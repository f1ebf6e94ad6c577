/** Definitions both nodes share. */
module Common {
  import opened Wrappers
  import opened Rivet

  /** The only executor under which the nodes may run. */
  const NodeJs: string := "nodejs"

  /** The error both nodes throw under any other executor. */
  const ExecutorMessage: string := "This node can only be run using a nodejs executor."

  /** Both nodes read the directory from this port and from nowhere else. */
  const BaseDirectoryId: string := "baseDirectory"
  const BaseDirectoryPort: PortDefinition := PortDefinition(BaseDirectoryId, "string", "Base Directory")

  /** The one key of the output map either node returns. */
  const OutputId: string := "output"

  /** 1 when the toggle is truthy, 0 otherwise. */
  function Count(flag: Option<bool>): nat {
    if Truthy(flag) then 1 else 0
  }
}
