/** The two side effects the nodes reach through their `nodeEntry` import
    (`src/impl/fs.ts`): writing a file and running a shell command, seen only
    as entries in a trace of effects. What a write does to the disk and what a
    command prints are not modelled; they are fixed by the host's oracles. */
module NodeEntry {
  import opened Wrappers
  import opened ShellOutputs

  /** One side effect, as requested. */
  datatype Effect =
    | Write(filePath: string, contents: string)
    | Spawn(command: string, cwd: string)

  /** The outside world as the nodes see it: the effects performed so far, and
      how the world answers. */
  class Host {
    /** Every effect requested so far, oldest first. */
    var trace: seq<Effect>
    /** `path.join` of Node.js. */
    const join: (string, string) -> string
    /** Whether writing `contents` at a path succeeds, or the error it rejects with. */
    const writeOutcome: (string, string) -> Result<()>
    /** What a command prints and returns when run in a directory. */
    const commandOutput: (string, string) -> ShellOutput

    constructor (join: (string, string) -> string,
                 writeOutcome: (string, string) -> Result<()>,
                 commandOutput: (string, string) -> ShellOutput)
      ensures trace == []
      ensures this.join == join && this.writeOutcome == writeOutcome && this.commandOutput == commandOutput
    {
      trace := [];
      this.join := join;
      this.writeOutcome := writeOutcome;
      this.commandOutput := commandOutput;
    }

    /** `writeFile(filePath, contents)`: creates the parent directory and
        replaces the file; rejects when the file system refuses. */
    method WriteFile(filePath: string, contents: string) returns (r: Result<()>)
      modifies this
      ensures trace == old(trace) + [Write(filePath, contents)]
      ensures r == writeOutcome(filePath, contents)
    {
      trace := trace + [Write(filePath, contents)];
      r := writeOutcome(filePath, contents);
    }

    /** `shell(command, {cwd})`: runs the command through a shell in `cwd`.
        It is taken never to reject, because the process library is told not to
        (`reject: false`); the library's own code is not part of this model. */
    method Shell(command: string, cwd: string) returns (output: ShellOutput)
      modifies this
      ensures trace == old(trace) + [Spawn(command, cwd)]
      ensures output == commandOutput(command, cwd)
    {
      trace := trace + [Spawn(command, cwd)];
      output := commandOutput(command, cwd);
    }
  }
}
