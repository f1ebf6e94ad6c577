/** The "Shell Command" node (`src/nodes/ShellCommandNode.ts`): runs a command
    through a shell, with a base directory as its working directory. */
module ShellCommandNode {
  import opened Wrappers
  import opened Rivet
  import opened Common
  import opened NodeEntry
  import opened ShellOutputs
  import Guard

  /** The node's data: the command's static value and the optional toggle that
      takes it from an input port instead. */
  datatype ShellCommandNodeData = ShellCommandNodeData(command: string, useCommandInput: Option<bool>)

  const CommandPort: PortDefinition := PortDefinition("command", "string", "Command")

  /** The error thrown for a command that contains the traversal token. */
  const CommandMessage: string := "Command cannot contain '..'"

  /** `data[key]` for the string parameter; any other key reads `undefined`. */
  function Field(data: ShellCommandNodeData, key: string): Option<string> {
    if key == "command" then Some(data.command) else None
  }

  /** `data[key]` for the toggle; any other key reads `undefined`. */
  function Toggle(data: ShellCommandNodeData, key: string): Option<bool> {
    if key == "useCommandInput" then data.useCommandInput else None
  }

  /** `create()`: a fresh node with an empty command taken from its input port. */
  function Create(id: string): (node: ChartNode<ShellCommandNodeData>)
    ensures node.id == id && node.nodeType == "shellCommand" && node.title == "Shell Command"
    ensures node.visualData == VisualData(0, 0, 200)
    ensures forall e :: e in Editors() ==>
              Field(node.data, e.dataKey) == Some("") && Truthy(Toggle(node.data, e.useInputToggleDataKey))
  {
    ChartNode(id, ShellCommandNodeData("", Some(true)), "Shell Command", "shellCommand", VisualData(0, 0, 200))
  }

  /** `getInputDefinitions(data)`: the base directory port, then the command port
      when its toggle is truthy. */
  method GetInputDefinitions(data: ShellCommandNodeData) returns (inputs: seq<PortDefinition>)
    ensures |inputs| == 1 + Count(data.useCommandInput)
    ensures inputs[0] == BaseDirectoryPort
    ensures CommandPort in inputs <==> Truthy(data.useCommandInput)
    ensures |inputs| == 2 ==> inputs[1] == CommandPort
    ensures forall e :: e in Editors() ==>
              (e.dataKey in PortIds(inputs) <==> Truthy(Toggle(data, e.useInputToggleDataKey)))
  {
    inputs := [];
    inputs := inputs + [BaseDirectoryPort];
    if Truthy(data.useCommandInput) {
      inputs := inputs + [CommandPort];
    }
  }

  /** `getOutputDefinitions()`: one string port, `output`. */
  function OutputDefinitions(): (outputs: seq<PortDefinition>)
    ensures |outputs| == 1 && PortIds(outputs) == {OutputId}
    ensures forall p :: p in outputs ==> p.dataType == "string"
  {
    [PortDefinition(OutputId, "string", "Output")]
  }

  /** `getEditors()`: one editor, for the command, switched by the toggle whose
      name Rivet derives from the edited key. */
  function Editors(): (editors: seq<EditorDefinition>)
    ensures |editors| == 1
    ensures forall e :: e in editors ==> e.useInputToggleDataKey == ToggleKeyFor(e.dataKey)
    ensures (set e | e in editors :: e.dataKey) == {CommandPort.id}
  {
    [EditorDefinition("string", "command", "useCommandInput", "Command", None)]
  }

  /** The working directory: always the value on the base directory port, never node data. */
  function BaseDirectory(inputData: Inputs, rivet: Library<ShellCommandNodeData>): Result<string> {
    rivet.expectType(Port(inputData, BaseDirectoryId), "string")
  }

  /** The command, from its port or the node's data as the library decides. */
  function ResolvedCommand(data: ShellCommandNodeData, inputData: Inputs, rivet: Library<ShellCommandNodeData>): Result<string> {
    rivet.getInputOrData(data, inputData, "command", "string")
  }

  /** What `process` hands to the process runner. */
  datatype ShellRequest = ShellRequest(command: string, cwd: string)

  /** The decision `process` makes before its side effect: which command to run
      where, or which error to throw. */
  function Plan(data: ShellCommandNodeData, inputData: Inputs, context: ProcessContext,
                rivet: Library<ShellCommandNodeData>): (r: Result<ShellRequest>)
    // the executor is checked first, before any input is read
    ensures context.executor != NodeJs ==> r == Fail(ExecutorMessage)
    // only the command is checked: a ".." in the working directory passes
    ensures r.Ok? <==>
              && context.executor == NodeJs
              && BaseDirectory(inputData, rivet).Ok?
              && ResolvedCommand(data, inputData, rivet).Ok?
              && !Guard.ContainsTraversal(ResolvedCommand(data, inputData, rivet).value)
    ensures r.Ok? ==> r.value == ShellRequest(ResolvedCommand(data, inputData, rivet).value,
                                              BaseDirectory(inputData, rivet).value)
    // the base directory is read before the command, and both before the guard
    ensures context.executor == NodeJs && BaseDirectory(inputData, rivet).Fail? ==>
              r == Fail(BaseDirectory(inputData, rivet).message)
    ensures context.executor == NodeJs && BaseDirectory(inputData, rivet).Ok? && ResolvedCommand(data, inputData, rivet).Fail? ==>
              r == Fail(ResolvedCommand(data, inputData, rivet).message)
    ensures context.executor == NodeJs && BaseDirectory(inputData, rivet).Ok? && ResolvedCommand(data, inputData, rivet).Ok? &&
            Guard.ContainsTraversal(ResolvedCommand(data, inputData, rivet).value) ==>
              r == Fail(CommandMessage)
  {
    if context.executor != NodeJs then Fail(ExecutorMessage)
    else
      match BaseDirectory(inputData, rivet)
      case Fail(m) => Fail(m)
      case Ok(baseDirectory) =>
        match ResolvedCommand(data, inputData, rivet)
        case Fail(m) => Fail(m)
        case Ok(command) =>
          if Guard.ContainsTraversal(command) then Fail(CommandMessage)
          else Ok(ShellRequest(command, baseDirectory))
  }

  /** The output map of a run: whatever `shell` returned, exit code included,
      under the one key `output`, tagged as a string. */
  function RunOutputs(output: ShellOutput): Outputs {
    map[OutputId := DataValue("string", ShellRecord(output))]
  }

  /** `process(data, inputData, context)`: the guarded pipeline and its one spawn. */
  method Process(data: ShellCommandNodeData, inputData: Inputs, context: ProcessContext,
                 rivet: Library<ShellCommandNodeData>, host: Host) returns (r: Result<Outputs>)
    modifies host
    ensures context.executor != NodeJs ==> r == Fail(ExecutorMessage) && host.trace == old(host.trace)
    ensures Plan(data, inputData, context, rivet).Fail? ==>
              r == Fail(Plan(data, inputData, context, rivet).message) && host.trace == old(host.trace)
    ensures Plan(data, inputData, context, rivet).Ok? ==>
              var request := Plan(data, inputData, context, rivet).value;
              && host.trace == old(host.trace) + [Spawn(request.command, request.cwd)]
              && r == Ok(RunOutputs(host.commandOutput(request.command, request.cwd)))
  {
    if context.executor != NodeJs {
      return Fail(ExecutorMessage);
    }
    var baseDirectory :- rivet.expectType(Port(inputData, BaseDirectoryId), "string");
    var command :- rivet.getInputOrData(data, inputData, "command", "string");
    if Guard.Includes(command, Guard.Traversal) {
      return Fail(CommandMessage);
    }
    var output := host.Shell(command, baseDirectory);
    return Ok(RunOutputs(output));
  }

  /** Unlike the write node, this node returns its result under the port it declares. */
  lemma OutputKeyDeclared(output: ShellOutput)
    ensures RunOutputs(output).Keys == PortIds(OutputDefinitions())
  {
  }
}
