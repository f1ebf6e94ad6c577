/** The "Write File" node (`src/nodes/WriteFileNode.ts`): writes content to a
    file named relative to a base directory. */
module WriteFileNode {
  import opened Wrappers
  import opened Rivet
  import opened Common
  import opened NodeEntry
  import Guard

  /** The node's data: each parameter has a static value and an optional toggle
      that takes the parameter from an input port instead. */
  datatype WriteFileNodeData = WriteFileNodeData(
    path: string, usePathInput: Option<bool>,
    content: string, useContentInput: Option<bool>)

  const PathPort: PortDefinition := PortDefinition("path", "string", "Path")
  const ContentPort: PortDefinition := PortDefinition("content", "string", "Content")

  /** The error thrown for a path that contains the traversal token. */
  const PathMessage: string := "Path cannot contain '..'"

  /** `data[key]` for the string parameters; any other key reads `undefined`. */
  function Field(data: WriteFileNodeData, key: string): Option<string> {
    if key == "path" then Some(data.path)
    else if key == "content" then Some(data.content)
    else None
  }

  /** `data[key]` for the toggles; any other key reads `undefined`. */
  function Toggle(data: WriteFileNodeData, key: string): Option<bool> {
    if key == "usePathInput" then data.usePathInput
    else if key == "useContentInput" then data.useContentInput
    else None
  }

  /** `create()`: a fresh node whose editable parameters are all empty and all
      switched over to their input ports. */
  function Create(id: string): (node: ChartNode<WriteFileNodeData>)
    ensures node.id == id && node.nodeType == "writeFile" && node.title == "Write File"
    ensures node.visualData == VisualData(0, 0, 200)
    ensures forall e :: e in Editors() ==>
              Field(node.data, e.dataKey) == Some("") && Truthy(Toggle(node.data, e.useInputToggleDataKey))
  {
    ChartNode(id, WriteFileNodeData("", Some(true), "", Some(true)), "Write File", "writeFile", VisualData(0, 0, 200))
  }

  /** Position of an input port in the fixed order baseDirectory, path, content. */
  function Rank(id: string): nat {
    if id == BaseDirectoryId then 0 else if id == PathPort.id then 1 else 2
  }

  /** `getInputDefinitions(data)`: the base directory port, then a port for each
      parameter whose toggle is truthy. */
  method GetInputDefinitions(data: WriteFileNodeData) returns (inputs: seq<PortDefinition>)
    ensures |inputs| == 1 + Count(data.usePathInput) + Count(data.useContentInput)
    ensures inputs[0] == BaseDirectoryPort
    ensures PathPort in inputs <==> Truthy(data.usePathInput)
    ensures ContentPort in inputs <==> Truthy(data.useContentInput)
    ensures forall i, j :: 0 <= i < j < |inputs| ==> Rank(inputs[i].id) < Rank(inputs[j].id)
    ensures forall p :: p in inputs ==> p.dataType == "string"
    ensures forall e :: e in Editors() ==>
              (e.dataKey in PortIds(inputs) <==> Truthy(Toggle(data, e.useInputToggleDataKey)))
  {
    inputs := [];
    inputs := inputs + [BaseDirectoryPort];
    if Truthy(data.usePathInput) {
      inputs := inputs + [PathPort];
    }
    if Truthy(data.useContentInput) {
      inputs := inputs + [ContentPort];
    }
  }

  /** `getOutputDefinitions()`: one string port, `content_out`. */
  function OutputDefinitions(): (outputs: seq<PortDefinition>)
    ensures |outputs| == 1 && PortIds(outputs) == {"content_out"}
    ensures forall p :: p in outputs ==> p.dataType == "string"
  {
    [PortDefinition("content_out", "string", "Content")]
  }

  /** `getEditors()`: an editor for the path and one for the content, each
      switched by the toggle whose name Rivet derives from the edited key. */
  function Editors(): (editors: seq<EditorDefinition>)
    ensures |editors| == 2
    ensures forall e :: e in editors ==> e.useInputToggleDataKey == ToggleKeyFor(e.dataKey)
    ensures (set e | e in editors :: e.dataKey) == {PathPort.id, ContentPort.id}
  {
    [ EditorDefinition("string", "path", "usePathInput", "Path", None),
      EditorDefinition("code", "content", "useContentInput", "Arguments", Some("plaintext")) ]
  }

  /** The base directory: always the value on its input port, never node data. */
  function BaseDirectory(inputData: Inputs, rivet: Library<WriteFileNodeData>): Result<string> {
    rivet.expectType(Port(inputData, BaseDirectoryId), "string")
  }

  /** The path, from its port or the node's data as the library decides. */
  function ResolvedPath(data: WriteFileNodeData, inputData: Inputs, rivet: Library<WriteFileNodeData>): Result<string> {
    rivet.getInputOrData(data, inputData, "path", "string")
  }

  /** The contents, from their port or the node's data as the library decides. */
  function ResolvedContents(data: WriteFileNodeData, inputData: Inputs, rivet: Library<WriteFileNodeData>): Result<string> {
    rivet.getInputOrData(data, inputData, "content", "string")
  }

  /** What `process` hands to the file writer, before joining. */
  datatype WriteRequest = WriteRequest(baseDirectory: string, path: string, contents: string)

  /** The decision `process` makes before its side effect: which write to perform,
      or which error to throw. */
  function Plan(data: WriteFileNodeData, inputData: Inputs, context: ProcessContext,
                rivet: Library<WriteFileNodeData>): (r: Result<WriteRequest>)
    // the executor is checked first, before any input is read
    ensures context.executor != NodeJs ==> r == Fail(ExecutorMessage)
    // the only content check is on the path: a ".." in the base directory or in the contents passes
    ensures r.Ok? <==>
              && context.executor == NodeJs
              && BaseDirectory(inputData, rivet).Ok?
              && ResolvedPath(data, inputData, rivet).Ok?
              && ResolvedContents(data, inputData, rivet).Ok?
              && !Guard.ContainsTraversal(ResolvedPath(data, inputData, rivet).value)
    ensures r.Ok? ==> r.value == WriteRequest(BaseDirectory(inputData, rivet).value,
                                              ResolvedPath(data, inputData, rivet).value,
                                              ResolvedContents(data, inputData, rivet).value)
    // reads happen in order base directory, path, contents, and all of them before the guard
    ensures context.executor == NodeJs && BaseDirectory(inputData, rivet).Fail? ==>
              r == Fail(BaseDirectory(inputData, rivet).message)
    ensures context.executor == NodeJs && BaseDirectory(inputData, rivet).Ok? && ResolvedPath(data, inputData, rivet).Fail? ==>
              r == Fail(ResolvedPath(data, inputData, rivet).message)
    ensures context.executor == NodeJs && BaseDirectory(inputData, rivet).Ok? && ResolvedPath(data, inputData, rivet).Ok? &&
            ResolvedContents(data, inputData, rivet).Fail? ==>
              r == Fail(ResolvedContents(data, inputData, rivet).message)
    ensures context.executor == NodeJs && BaseDirectory(inputData, rivet).Ok? && ResolvedPath(data, inputData, rivet).Ok? &&
            ResolvedContents(data, inputData, rivet).Ok? && Guard.ContainsTraversal(ResolvedPath(data, inputData, rivet).value) ==>
              r == Fail(PathMessage)
  {
    if context.executor != NodeJs then Fail(ExecutorMessage)
    else
      match BaseDirectory(inputData, rivet)
      case Fail(m) => Fail(m)
      case Ok(baseDirectory) =>
        match ResolvedPath(data, inputData, rivet)
        case Fail(m) => Fail(m)
        case Ok(path) =>
          match ResolvedContents(data, inputData, rivet)
          case Fail(m) => Fail(m)
          case Ok(contents) =>
            if Guard.ContainsTraversal(path) then Fail(PathMessage)
            else Ok(WriteRequest(baseDirectory, path, contents))
  }

  /** The output map of a successful write: the contents, under the one key `output`. */
  function WrittenOutputs(contents: string): Outputs {
    map[OutputId := DataValue("string", Text(contents))]
  }

  /** `process(data, inputData, context)`: the guarded pipeline and its one write. */
  method Process(data: WriteFileNodeData, inputData: Inputs, context: ProcessContext,
                 rivet: Library<WriteFileNodeData>, host: Host) returns (r: Result<Outputs>)
    modifies host
    ensures context.executor != NodeJs ==> r == Fail(ExecutorMessage) && host.trace == old(host.trace)
    ensures Plan(data, inputData, context, rivet).Fail? ==>
              r == Fail(Plan(data, inputData, context, rivet).message) && host.trace == old(host.trace)
    ensures Plan(data, inputData, context, rivet).Ok? ==>
              var request := Plan(data, inputData, context, rivet).value;
              var target := host.join(request.baseDirectory, request.path);
              && host.trace == old(host.trace) + [Write(target, request.contents)]
              && r == match host.writeOutcome(target, request.contents)
                      case Ok(_) => Ok(WrittenOutputs(request.contents))
                      case Fail(m) => Fail(m)
  {
    if context.executor != NodeJs {
      return Fail(ExecutorMessage);
    }
    var baseDirectory :- rivet.expectType(Port(inputData, BaseDirectoryId), "string");
    var path :- rivet.getInputOrData(data, inputData, "path", "string");
    var contents :- rivet.getInputOrData(data, inputData, "content", "string");
    if Guard.Includes(path, Guard.Traversal) {
      return Fail(PathMessage);
    }
    var written :- host.WriteFile(host.join(baseDirectory, path), contents);
    return Ok(WrittenOutputs(contents));
  }

  /** The key `process` returns its result under is not the id of the port the
      node declares, so the declared `content_out` port never carries a value. */
  lemma OutputKeyUndeclared(contents: string)
    ensures WrittenOutputs(contents).Keys == {OutputId}
    ensures OutputId !in PortIds(OutputDefinitions())
  {
  }
}
