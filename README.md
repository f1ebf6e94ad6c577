# rivet-plugin-fs: the two workflow nodes, modelled in Dafny

This project models the per-invocation logic of the two nodes the Rivet
plugin `rivet-plugin-fs` registers:

- **Write File** (`src/nodes/WriteFileNode.ts`) writes content to a file named
  relative to a base directory.
- **Shell Command** (`src/nodes/ShellCommandNode.ts`) runs a shell command with
  the base directory as its working directory.

For each node the model covers `create`, the input-port list that
`getInputDefinitions` builds from the `use…Input` toggles, the constant
output-port and editor tables, and `process`. `process` is a short guarded
pipeline:

1. it refuses any executor other than `nodejs`;
2. it reads `baseDirectory` from its input port only;
3. it resolves `path` and `content`, or `command`;
4. it refuses a path or command that contains `..`;
5. it performs exactly one side effect and returns a one-key output map.

Modules:

- `Wrappers` has `Option` (where `None` is `undefined`) and `Result` (where
  `Fail(message)` is a thrown error). `Result` works with `:-`, so a failing
  step ends `process` the way an uncaught `throw` rejects its promise.
- `Guard` models `String.prototype.includes` (`Includes`) and the traversal
  test `value.includes("..")` (`ContainsTraversal`).
- `ShellOutputs` holds the record a shell run yields, which both the effect
  layer and the port values use.
- `NodeEntry` models the `nodeEntry` imports as a `Host` object. It keeps a
  trace of requested effects: `Write(filePath, contents)` and
  `Spawn(command, cwd)`. It also holds `join` and two oracles that say how
  the world answers a write or a command.
- `Rivet` has the host library's types: port values, port and editor
  definitions, chart nodes. The library helpers `expectType` and
  `getInputOrData` are function-valued parameters (`Library`).
- `Common` has what both nodes share: the executor name, its error message,
  the `baseDirectory` port and the `output` key.
- `WriteFileNode` and `ShellCommandNode` model the two nodes. `Plan` is the
  decision `process` makes before its side effect. `Process` is the
  imperative pipeline. `Process` is proved against `Plan` and appends at most
  one effect to the host's trace.

The code does not do the following, and neither does the model:

- It does not check any resolved value for being empty or whitespace.
- It has no flag that turns a non-zero exit code into an error.
- It has no separate stdout, stderr or exit-code ports.
- It does not check the base directory or the file content for `..`.

Two quirks of the code are kept as written:

- The shell result, exit code included, is returned as the `output` value.
  It is tagged `"string"` even though it is a record.
- The Write File node returns its result under the key `output`. The output
  port it declares is `content_out` (`OutputKeyUndeclared`).

## Model

| member | source | states |
|---|---|---|
| `Guard.Includes` | src/nodes/WriteFileNode.ts:164 | `s.includes(sub)` holds exactly when `sub` occurs in `s` at some index |
| `Guard.ContainsTraversal` | src/nodes/ShellCommandNode.ts:128 | `value.includes("..")` holds exactly when two adjacent characters of `value` are both `.` |
| `Guard.TraversalSurvivesConcatenation` | src/nodes/ShellCommandNode.ts:128-130 | text before or after a refused value cannot hide its `..`: the longer string is refused too |
| `Guard.GuardIsStringLevel` | src/nodes/WriteFileNode.ts:164-166 | an illustration, following from `ContainsTraversal`, that the check is a substring test: `/etc/passwd` and `./src/./index.ts` pass it, `notes..txt` is refused |
| `NodeEntry.Host.WriteFile` | src/impl/fs.ts:30-39 | a write appends exactly one `Write(filePath, contents)` to the trace and resolves or rejects as the file system answers |
| `NodeEntry.Host.Shell` | src/impl/fs.ts:5-28 | a run appends exactly one `Spawn(command, cwd)` to the trace and always resolves, with the command's output and exit code as data |
| `WriteFileNode.Create` | src/nodes/WriteFileNode.ts:35-56 | a new node has type `writeFile`, title `Write File`, and visual data x=0, y=0, width=200; every parameter an editor binds is empty and has its toggle on |
| `WriteFileNode.GetInputDefinitions` | src/nodes/WriteFileNode.ts:58-84 | the first port is `baseDirectory`; the `path` and `content` ports are present iff their toggles are truthy (`undefined` is falsy); ports keep the order baseDirectory, path, content; the length is 1 + one per truthy toggle; all ports are strings; for each editor, its key is a port iff its toggle is truthy |
| `WriteFileNode.OutputDefinitions` | src/nodes/WriteFileNode.ts:86-94 | exactly one output port, `content_out`, of type string |
| `WriteFileNode.Editors` | src/nodes/WriteFileNode.ts:107-123 | two editors, for `path` and `content`; each one's toggle is named `use` + capitalised key + `Input` (`usePathInput`, `useContentInput`) |
| `WriteFileNode.Plan` | src/nodes/WriteFileNode.ts:144-166 | a wrong executor fails with the executor message whatever the inputs; success iff the executor is `nodejs`, base directory, path and contents all resolve, and the path has no `..`; the base directory comes only from its input port; a `..` in the base directory or the contents never causes a failure; the first failing read decides the error, and all reads come before the path check |
| `WriteFileNode.Process` | src/nodes/WriteFileNode.ts:139-178 | when the plan fails, the same error is returned and no effect is recorded; otherwise exactly one `Write(join(baseDirectory, path), contents)` is recorded, and the result is the map `{output: {type: "string", value: contents}}` or the write's error |
| `WriteFileNode.OutputKeyUndeclared` | src/nodes/WriteFileNode.ts:172-177 | the success map's only key is `output`, which is not a declared output port |
| `ShellCommandNode.Create` | src/nodes/ShellCommandNode.ts:26-45 | a new node has type `shellCommand`, title `Shell Command`, and visual data x=0, y=0, width=200; the command is empty and its toggle is on |
| `ShellCommandNode.GetInputDefinitions` | src/nodes/ShellCommandNode.ts:47-65 | the first port is `baseDirectory`; a second port, `command`, is present iff `useCommandInput` is truthy, so the length is 1 or 2; the editor's key is a port iff its toggle is truthy |
| `ShellCommandNode.OutputDefinitions` | src/nodes/ShellCommandNode.ts:67-75 | exactly one output port, `output`, of type string |
| `ShellCommandNode.Editors` | src/nodes/ShellCommandNode.ts:86-97 | one editor, for `command`, whose toggle `useCommandInput` follows Rivet's naming rule |
| `ShellCommandNode.Plan` | src/nodes/ShellCommandNode.ts:112-130 | a wrong executor fails with the executor message whatever the inputs; success iff the executor is `nodejs`, the base directory and command resolve, and the command has no `..`; the working directory comes only from the `baseDirectory` port and is never checked; the base directory is read before the command, and both before the check |
| `ShellCommandNode.Process` | src/nodes/ShellCommandNode.ts:107-144 | when the plan fails, the same error is returned and no effect is recorded; otherwise exactly one `Spawn(command, baseDirectory)` is recorded, and the shell result is returned under the single key `output` |
| `ShellCommandNode.OutputKeyDeclared` | src/nodes/ShellCommandNode.ts:138-143 | the keys of the output map are exactly the declared output port ids |

## Left out

- `getUIData`, `getBody` and the `console.dir` logging are display and logging only.
- The plugin registration in `src/index.ts` and the compiled copy in `dist/bundle.js` are also left out.
- The `await import("../nodeEntry")` module loading and the asynchrony of `process` are not modelled. Each call is one sequential pass, and concurrent calls are out of scope.
- `rivet.newId` is not part of this model. `Create` takes the fresh id as a parameter.
- `rivet.expectType` and `rivet.getInputOrData` are host-library code that is not part of this model. They are parameters. The model therefore does not say how a toggle selects between the input port and the node data. Nor does it state that switching one toggle leaves the other parameters' resolution unchanged.
- `path.join` is not part of this model. It is the host's `join` parameter. So the model does not show that joining an absolute path escapes the base directory. `GuardIsStringLevel` only shows that such a path passes the check.
- Three of the options `shell` passes to its process library are not modelled: the 30-second timeout, the environment allow-list (PATH, HOME, USER, USERNAME, SHELL) and `extendEnv: false`. A run is one abstract `Spawn` effect, and its output comes from an oracle.
- `Host.Shell`: two other options shape the model. `all: true` is why `ShellOutput` has an `all` field. `reject: false` is why `Shell` never fails. The process library's code is not part of this model, so "never fails" is an assumption: the library could still reject on an error it raises before it starts the process.
- The `mkdir` of the parent directory inside `writeFile` is folded into the one `Write` effect. A `Write` is recorded even when the write then rejects, because the attempt has already touched the file system.
- Real file-system and process behaviour is not modelled. Write outcomes and command output are fixed by the host's oracles, not by a simulated disk.
