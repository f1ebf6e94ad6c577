/** The record a shell run yields, shared by the effect layer that produces it
    and the port values that carry it onward. */
module ShellOutputs {
  import opened Wrappers

  /** What `shell` returns: the interleaved output, each stream, and the exit
      code (absent when the process was killed). A non-zero exit is data. */
  datatype ShellOutput = ShellOutput(all: string, stdout: string, stderr: string, exitCode: Option<int>)
}
