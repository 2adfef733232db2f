# dockerd registry and command engine, in Dafny

This project models the core of `dockerd`, a prototype daemon that keeps an
in-memory registry of layers (named, sized artifacts) and containers (a
command line over a list of layers), answers named commands (`help`,
`layers`, `get`, `put`, `export`, `run`, `clone`, `list`) and runs a
container's command as a child process.

- `text.dfy` (module `Text`): `strings.Join`, a `Split` that inverts it for a
  one-character separator, and the case mapping used by command lookup.
- `types.dfy` (module `Types`): `Layer`, `ContainerEntry` (the container
  struct as stored in the registry map, with `CmdString`), `Status` (nil, an
  error message, or a runtime panic) and `Entropy` (the random values a
  command draws).
- `flags.dfy` (module `Flags`): the parsed flags each handler receives and
  `ArgList`, the repeatable `-l` flag value.
- `dispatch.dfy` (module `Dispatch`): `getMethod` as a static table from the
  normalised name ("Cmd" + upper-cased first character + lower-cased rest) to
  the eight handlers.
- `resolution.dfy` (module `LayerResolution`): how `run` resolves its `-l`
  references (a layer id first, then a container id whose layers are spliced
  in), and `WellFormed`, the shape the registry maps keep.
- `process.dfy` (module `Process`): `Container.Run`, the single-run guard, the
  `Running` flag and the order in which failures are reported.
- `daemon.dfy` (module `Daemon`): the `Docker` class with its two maps,
  `addLayer` and the command handlers.
- `scenarios.dfy` (module `Scenarios`): command sequences proved from the
  handlers' contracts.

Modelling choices:

- Registry entries are values. `containers` maps ids to `ContainerEntry`
  values. `CmdRun` builds a local `Process.Container` object, stores a copy of
  it, and only then calls `Run` on the local object. So a registered entry is
  never marked running. `WellFormed` records this, and the entry stays
  registered whatever `Run` returns.
- Randomness is a parameter. `randomId` and `rand.Int31n` become an `Entropy`
  value. Its draws have subset types bounded as in the source: a size below
  142·1024·1024, changed files below 42, changed bytes below 24·1024·1024.
  The id is taken to be fresh (`Docker.Fresh`: not a key of either map). The
  source hashes random input and relies on collisions not happening.
- The process and the two goroutines become a `ProcessOutcome` value. It
  holds the errors from starting the process, from `cmd.Wait` and from
  copying its output. The stdin goroutine always returns nil (`DiscardStdin`).
- Flag parsing becomes a parameter. Handlers receive what `flags.Parse`
  produced. `ParseFailed` stands for a parse error, including `-h`/`--help`.
  `clone` and `layers` ignore parse errors, so they receive the flag values
  directly.
- References are resolved by id only: the code never consults layer names;
  `Scenarios.RunByLayerNameFails` shows this.
- `help ""` makes the source panic: `name[:1]` on an empty string. It is
  modelled as `Status.Panic`. `getMethod` itself requires a non-empty name,
  and the HTTP entry point already rejects an empty name before calling it.
- Case mapping. The first character is upper-cased as an ASCII byte, because
  the source slices the first byte. The rest is lower-cased by Unicode simple
  lower-casing, restricted to the code points that lower to ASCII: `A`–`Z`,
  U+0130 (to `i`) and U+212A (to `k`).

## Model

| member | source | states |
|---|---|---|
| `Daemon.Docker.New` | dockerd/dockerd.go:269-274 | a new daemon has two empty maps and satisfies the registry invariant |
| `Daemon.LayerSize` | dockerd/dockerd.go:129-131 | a requested size of 0 is replaced by a value below 142·1024·1024; any other size is kept unchanged |
| `Daemon.Docker.AddLayer` | dockerd/dockerd.go:128-135 | the returned layer has the given name and source, the size from `LayerSize`, and a fresh id; it is stored under that id; every other layer is unchanged; containers are untouched (frame); the registry invariant is kept |
| `Daemon.Docker.CmdGet` | dockerd/dockerd.go:85-94 | no arguments: "Not enough arguments" and no new layer; otherwise exactly one new layer, named `args[0]`, with source "download" and a random size |
| `Daemon.Docker.CmdPut` | dockerd/dockerd.go:96-104 | same as get, with source "upload" |
| `Daemon.Docker.CmdExport` | dockerd/dockerd.go:106-125 | a parse error returns nil; fewer than 2 positionals returns "Not enough arguments"; an unknown container returns "No such container"; none of these adds a layer; otherwise one layer named by the second positional, with source "export:"+container id and the container's `BytesChanged` as size (random when that is 0) |
| `LayerResolution.Piece` | dockerd/dockerd.go:175-182 | one reference resolves iff it is a layer id or a container id; a layer id wins and gives that layer alone; otherwise a container id gives that container's layers |
| `LayerResolution.Resolve` | dockerd/dockerd.go:174-186 | no references give no layers; a failure names a reference from the list that is neither a layer id nor a container id |
| `LayerResolution.RegisterKeepsWellFormed` | dockerd/dockerd.go:187 | storing a new, not running container whose layers are all registered keeps the registry well formed |
| `LayerResolution.ResolveAppend` | dockerd/dockerd.go:174-186 | references are resolved in flag order: resolving `a + b` is resolving `a`, then `b`; the first failure wins, otherwise the layer lists concatenate |
| `LayerResolution.ResolveFailsAtFirstUnknown` | dockerd/dockerd.go:175-182 | resolution fails iff some reference is neither a layer id nor a container id, and the reported name is the first such reference |
| `LayerResolution.ResolveContainerId` | dockerd/dockerd.go:175-179 | a container id that is not a layer id resolves to that container's layers in their stored order |
| `LayerResolution.ResolvedLayersRegistered` | dockerd/dockerd.go:174-187 | in a well-formed registry every resolved layer is registered under its own id, and each reference contributes at least one layer |
| `Daemon.Docker.CmdRun` | dockerd/dockerd.go:148-189 | parse error: nil; zero `-l` flags: "Please specify at least one layer", checked before "No command specified"; unresolved reference: "No such layer or container: "+name; in these cases `containers` is unchanged; otherwise exactly one entry is added under the new id, holding the resolved layers, Cmd = first positional, Args = the rest, and `Running` false; it stays registered whatever `Run` returns, and the result is the run's status; the registry invariant is kept |
| `Daemon.Docker.CmdClone` | dockerd/dockerd.go:191-207 | `-r=false` returns the "Only reset mode" error; a positional count other than 1 returns nil; an unknown id returns "No such container: "+id; otherwise one new entry with the source's layers in the same order and the same Cmd and Args, not running |
| `Process.Container.constructor` | dockerd/dockerd.go:166-173 | the local container starts with no layers and not running |
| `Process.DiscardStdin` | dockerd/dockerd.go:375-381 | the stdin task closes both streams and never reports an error |
| `Process.Container.Entry` | dockerd/dockerd.go:187 | the value stored in the registry is a copy of every field of the local container |
| `Process.Container.AppendLayers` | dockerd/dockerd.go:177-179 | the given layers are appended one by one, in order, after the layers already held |
| `Process.Container.Run` | dockerd/dockerd.go:359-392 | if already running: "Already running", nothing started, flag unchanged; otherwise one start attempt, the result is the report's status, and `Running` is false again on every path |
| `Process.Report` | dockerd/dockerd.go:366-391 | fixed priority: a spawn error wins; otherwise the `Wait` error; otherwise the output-copy error; otherwise success; the stdin task never fails; the reported error is the very error of the step that failed |
| `Process.RunReport.ToStatus` | dockerd/dockerd.go:366-391 | `Run` returns nil exactly for a completed run, and otherwise the error the report carries |
| `Process.CopyErrorOnlyAfterCleanExit` | dockerd/dockerd.go:382-390 | a copy error is reported only when the process started and exited cleanly, and then it is the returned error |
| `Dispatch.Lookup` | dockerd/dockerd.go:309-312 | the static table returns a handler exactly when the method name is one of the eight `Cmd*` names, and that handler's name equals it |
| `Dispatch.Normalize` | dockerd/dockerd.go:308 | the method name is "Cmd", then the first character upper-cased as one ASCII byte, then the rest lower-cased character by character; it is three characters longer than the name |
| `Dispatch.GetMethod` | dockerd/dockerd.go:307-312 | a handler is found iff the normalised name is some handler's method name |
| `Dispatch.GetMethodFinds` | dockerd/dockerd.go:307-312 | `getMethod(name)` is command `c` iff `name` lower-cased is `c`'s word |
| `Dispatch.GetMethodUnknown` | dockerd/dockerd.go:309-311 | `getMethod` returns nil iff the lower-cased name is not one of help, layers, get, put, export, run, clone, list |
| `Dispatch.GetMethodIgnoresCase` | dockerd/dockerd.go:308 | names that lower-case alike resolve to the same handler |
| `Dispatch.RunSpellings` | dockerd/dockerd.go:308 | "run", "Run" and "RUN" all resolve to the run handler |
| `Daemon.HelpStatus` | dockerd/dockerd.go:23-50 | `help` with no args returns nil; an empty name panics; otherwise nil iff the name is a known command (any case), else "No such command: "+name |
| `Daemon.HelpLayerSource` | dockerd/dockerd.go:43-46 | the nested handler call registers a layer exactly when the name lower-cases to "get" or "put"; its source is "download" exactly for get and "upload" exactly for put |
| `Daemon.Docker.HelpInvoke` | dockerd/dockerd.go:46 | a handler called with "--help": get and put register a layer named "--help"; every other handler leaves both maps unchanged |
| `Daemon.Docker.CmdHelp` | dockerd/dockerd.go:23-50 | the result is `HelpStatus`, and the sub-handler's own error is ignored; containers are unchanged; layers change only by the "--help" layer of `help get`/`help put` |
| `Daemon.Docker.CmdHelpIntended` | dockerd/dockerd.go:23-50 | the answer is `HelpStatus`, and having no `modifies` clause the registry is left alone |
| `Daemon.ShownLayers` | dockerd/dockerd.go:64-70 | the empty filter keeps every layer id; any other filter keeps exactly the ids whose layer has that name |
| `Daemon.Docker.CmdLayers` | dockerd/dockerd.go:52-83 | more than one NAME shows only the usage; otherwise the listed ids are `ShownLayers` of the registry for the NAME filter (empty when absent); always nil |
| `Daemon.ClampWidth` | dockerd/dockerd.go:238-242 | the CMD column width is between 5 and 50; it equals the longest command iff that is within [5, 50]; above 50 gives 50, below 5 gives 8 |
| `Daemon.Docker.CmdList` | dockerd/dockerd.go:231-242 | the column width is the clamp of the byte length of the longest `CmdString` in the registry (0 when there is none) |
| `Daemon.ListWidthCountsBytes` | dockerd/dockerd.go:233-242 | a lone container whose command is three two-byte characters gets a width of 6 (its byte count), not 8 |
| `Text.ByteLength` | dockerd/dockerd.go:234 | Go's `len` of a string counts UTF-8 bytes: between one and four per character |
| `Text.ByteLengthAppend` | dockerd/dockerd.go:234 | the byte length of a concatenation is the sum of the byte lengths |
| `Text.ByteLengthAscii` | dockerd/dockerd.go:234 | a string has as many bytes as characters exactly when every character is ASCII |
| `Types.ContainerEntry.CmdString` | dockerd/dockerd.go:394-396 | Cmd and Args joined by single spaces: the string starts with Cmd, is Cmd alone without Args, and has length \|Cmd\| + total length of Args + one space per argument |
| `Types.CmdStringSplits` | dockerd/dockerd.go:394-396 | the command line splits at spaces back into Cmd and Args when none of them contains a space |
| `Text.JoinSnoc` | dockerd/dockerd.go:144-146 | joining one more value adds the separator and that value at the end |
| `Text.SplitJoin` | dockerd/dockerd.go:144-146 | the joined form splits back into the original values when none contains the separator |
| `Flags.ArgList.String` | dockerd/dockerd.go:144-146 | the values joined by commas: empty for no values, as long as the values plus one comma between each pair, and splitting at commas gives the values back when none contains a comma |
| `Flags.ArgList.Set` | dockerd/dockerd.go:139-142 | appends the value, returns nil, and the printed form gains "," + value (or becomes the value) |
| `Scenarios.GetThenRun` | dockerd/dockerd.go:85-189 | `get base` then `run -l <its id> -- true` registers one container holding that layer, not running, with the run's status |
| `Scenarios.RunByLayerNameFails` | dockerd/dockerd.go:174-182 | naming a layer by its name rather than its id fails with "No such layer or container" and registers nothing |
| `Scenarios.HelpGetRegistersLayer` | dockerd/dockerd.go:43-46 | on an empty daemon, `help get` returns nil and registers a layer named "--help" with source "download" |

## Findings

| source | as written | input that shows it | evidently intended | confidence | as-written member | corrected member |
|---|---|---|---|---|---|---|
| dockerd/dockerd.go:46 | `help COMMAND` calls the command's handler with the single argument "--help". `get` and `put` parse no flags, so they treat "--help" as the layer source. | `help get` | show the usage of `get` and leave the registry alone | high (proved in the model, not executed) | `Daemon.Docker.CmdHelp` (and `Scenarios.HelpGetRegistersLayer`) | `Daemon.Docker.CmdHelpIntended` |

In the source, the `help get` call also sleeps for two seconds and writes a
"New layer" line.

## Left out

- HTTP transport: `ServeHTTP`, `AutoFlush`, `URLToCall` and `main`. `CmdUsage` is called there as a method of `Docker` but is not defined in dockerd/dockerd.go, so it is not part of this model.
- Dispatch.Lookup: the table holds the eight handlers defined in dockerd/dockerd.go. Since `CmdUsage` must be an exported method of `*Docker` for the program to build, `usage` would also dispatch, to `CmdUsage`, which the table omits; so in the program `help usage` returns nil where `Daemon.HelpStatus` and `Dispatch.GetMethodUnknown` say "No such command: usage".
- Concurrency: `Go`, goroutines and channels. Each copy task is reduced to its result. The source leaves the copy goroutines blocked on their unbuffered channels when `Run` returns early; this is not modelled.
- OS processes: `startCommand`, `exec.Command`, `pty.Start` and `cmd.Wait` become `ProcessOutcome`.
- Randomness and hashing: `randomId`, `ComputeId` (sha256) and `rand.Int31n` become `Entropy`. Id freshness is assumed, not derived.
- Time: `time.Now`, `time.Sleep` and `humanDuration`. Layers and containers carry no creation time.
- Output text: the usage text, tabwriter tables, float size formatting and the "New layer"/"Downloading" lines. `CmdLayers` is modelled by the set of ids it lists; map order is unspecified.
- The `flag` package and `Subcmd`: handlers take parsed flags. `CmdClone` passes `run` the parse of its argument list `["-l", id, "--", Cmd] + Args` directly: one reference and the positionals `[Cmd] + Args`.
- Reflection in `getMethod`: replaced by a static table.
- Process.Container.Run: the single-run guard is modelled sequentially. Because concurrent callers are not modelled, a second run while the first is in progress cannot be shown; the guard is stated for any object whose flag is set.
- Dispatch.GetMethod: for a non-ASCII first character the source upper-cases a single byte. The model keeps the character instead. Either way, no handler name matches.
