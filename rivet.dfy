/** The parts of the Rivet host library the two nodes use: typed port values,
    port and editor definitions, chart nodes, and the helper functions the
    nodes call on the library object they are given. */
module Rivet {
  import opened Wrappers
  import ShellOutputs

  /** The payload of a port value: a string, or the record `shell` returns. */
  datatype Value = Text(text: string) | ShellRecord(output: ShellOutputs.ShellOutput)

  /** A value on a port, tagged with its data type: `{type, value}`. */
  datatype DataValue = DataValue(dataType: string, value: Value)

  /** Values arriving on input ports, or leaving on output ports, by port id. */
  type Inputs = map<string, DataValue>
  type Outputs = map<string, DataValue>

  /** `inputs[id]`: `undefined` when nothing is wired to the port. */
  function Port(inputs: Inputs, id: string): Option<DataValue> {
    if id in inputs then Some(inputs[id]) else None
  }

  /** The processing context; only its executor kind is consulted. */
  datatype ProcessContext = ProcessContext(executor: string)

  /** An input or output port declaration. */
  datatype PortDefinition = PortDefinition(id: string, dataType: string, title: string)

  /** An editor in the node's settings panel: which data field it edits and which
      boolean field switches that parameter over to an input port. */
  datatype EditorDefinition = EditorDefinition(
    kind: string, dataKey: string, useInputToggleDataKey: string, labelText: string, language: Option<string>)

  datatype VisualData = VisualData(x: int, y: int, width: int)

  /** A node placed on a chart, with its node-specific data `D`. */
  datatype ChartNode<D> = ChartNode(id: string, data: D, title: string, nodeType: string, visualData: VisualData)

  /** The library helpers the nodes call. Their code belongs to the host and is
      not part of this model, so they are parameters: `expectType(value, type)`
      yields the string inside a port value or fails, and
      `getInputOrData(data, inputs, key, type)` yields a parameter either from
      its input port or from the node's data, or fails. */
  datatype Library<!D> = Library(
    expectType: (Option<DataValue>, string) -> Result<string>,
    getInputOrData: (D, Inputs, string, string) -> Result<string>)

  /** JavaScript truthiness of an optional boolean: `undefined` and `false` are falsy. */
  predicate Truthy(flag: Option<bool>) {
    flag == Some(true)
  }

  /** Upper-cases an ASCII letter, leaving every other character alone. */
  function UpperCase(c: char): char {
    if 'a' <= c <= 'z' then (c as int - 32) as char else c
  }

  /** The name of the boolean data field that routes `key` through an input
      port: `use` + the capitalised key + `Input`. */
  function ToggleKeyFor(key: string): string {
    "use" + (if key == "" then "" else [UpperCase(key[0])] + key[1..]) + "Input"
  }

  /** The ids of a list of port declarations. */
  function PortIds(ports: seq<PortDefinition>): set<string> {
    set p | p in ports :: p.id
  }
}
