# Simbolik editor extension: a Dafny model of its decision rules

The Simbolik extension lets a developer debug a single Solidity function from
the editor. A "▷ Debug" lens appears over each function that can run on its own.
Clicking the lens builds the Foundry project, finds its build-info files and
names the debug session. The editor's debugger then reaches the Simbolik server
through an inline adapter that relays messages over a WebSocket.

This project models the rules behind those steps and proves what they promise:

- **CodeLens** (`codelens.dfy`, with the syntax tree in `solidity_ast.dfy`): which
  (contract, function) pairs get a lens, in what order, and where the lens goes.
  `GetFunctions` and `ProvideCodeLenses` are loops proved against the
  specification function `Selected`.
- **Foundry** (`foundry.dfy`): the upward search for `foundry.toml` (a loop that
  pops path segments), the `out` and `build_info_path` defaults, the build-info
  file filter, and the `forge build` task with its working directory and
  environment.
- **Launch** (`launch.dfy`): parameter type extraction, the `name(types)` method
  signature, the `Contract.signature` session name, the RPC address, the launch
  configuration, and the order in which `startDebugging` gives up.
- **Watcher** (`watcher.dfy`): the workspace watcher class. It has a single
  "changed" flag that Solidity events set and `reset` clears.
- **Config** (`config.dfy`): the settings lookup and its fallback rule.
- **DebugAdapter** (`debug_adapter.dfy`): the desktop factory. The retry loop
  (5 attempts of 500 ms on one socket) is proved against a recursive
  specification. The factory warns on failure but still builds the adapter,
  unless the server URL is one the socket rejects outright.
  The adapter relays messages unchanged.
- **DebugAdapterWeb** (`debug_adapter_web.dfy`): the browser factory as a state
  machine. Its events are socket open, socket error, the 3000 ms timer and a
  server close. The descriptor promise settles at most once. A class with one
  method per handler is proved against the step function.
- **Transport** (`transport.dfy`): the WebSocket both adapters share. **Strings**
  (`strings.dfy`) holds the JavaScript `split`, `join` and `endsWith`
  operations. **Wrappers** holds `Option` and `Result`.

The adapters forward every message they fire unchanged, in both directions, and
so does the model. Not every inbound frame is fired: the browser adapter drops
text frames, and a frame that does not parse fires nothing. These source files do not rewrite paths inside messages, correlate
requests with responses, upload build artifacts in chunks, or stamp credentials
onto messages, so the model does not either.

Observations the proofs make explicit:

- The desktop retry listens on one socket each time, with `once` listeners that
  miss an event emitted before they exist. After that socket reports an error it
  is closed for good. Every later attempt can then only time out, and `retry`
  rejects without the error (`ErrorOnOneSocketDooms`). A socket that opens while
  no attempt listens, say 700 ms in, between the first attempt's timeout and the
  second attempt, is never heard either. `retry` rejects and the factory warns,
  yet the socket is open and the adapter works (`OpenUnheardDooms`,
  `OpenBetweenAttempts`).
- A `server` setting that `new WebSocket` does not accept, such as
  `localhost:6789`, makes the constructor throw. On the desktop the factory then
  rejects with no warning and no adapter. In the browser the descriptor promise
  is rejected before any handler or timer exists, also without a warning
  (`RejectionCauses`).
- The browser adapter reads inbound data with `data.text()`, which only binary
  (Blob) frames have. A text frame makes the handler throw, so nothing is fired
  (`DebugAdapterWeb.Decode`). The desktop adapter accepts both kinds of frame.
- The build-info filter compares the file type with `===` against File. A
  symbolic link to a `.json` file has the File and SymbolicLink bits both set,
  so it is dropped (`SymlinkedJsonDropped`).
- The settings lookup replaces only an unset value or `""`. A stored `null` or
  `false` is returned as stored. The `foundry.toml` defaults use JavaScript `||`.
- `foundryRoot` probes the file's full path first, then one segment shorter each
  time, down to the empty prefix: at most (#segments + 1) probes.
- A lensed function has no parameters, so its session name always ends in `()`
  (`LensedSignature`).

## Model

| member | source | states |
|---|---|---|
| `Config.GetConfigValue` | src/utils.ts:8-15 | an unset key and the empty string give the fallback; any other stored value, `null` and `false` included, is returned unchanged |
| `Config.NeverEmptyUnlessFallback` | src/utils.ts:11-14 | the lookup yields `""` only when the fallback is `""` |
| `Config.ConfinedToSection` | src/utils.ts:9-10 | only the setting `simbolik.<key>` affects the lookup |
| `CodeLens.CanBeInstantiated` | src/CodelensProvider.ts:89-91 | only kind `contract` qualifies: interfaces, libraries and abstract contracts never do |
| `CodeLens.IsExecutable` | src/CodelensProvider.ts:93-98 | executable iff not a constructor, not virtual, not a fallback, and neither internal nor private |
| `CodeLens.DebugLens` | src/CodelensProvider.ts:34-42 | the lens runs `simbolik.startDebugging` with the (contract, function) pair, on the function's lines shifted to 0-based |
| `CodeLens.GetFunctions` | src/CodelensProvider.ts:60-87 | the visit with its result list and constructor flag returns exactly `Selected(contracts)`, in traversal order |
| `CodeLens.VisitContract` | src/CodelensProvider.ts:63-84 | visiting one contract appends exactly its pairs: none unless it has kind `contract` and no constructor with arguments, else its parameterless executable functions in order |
| `CodeLens.ProvideCodeLenses` | src/CodelensProvider.ts:24-52 | a parse error gives no lenses; otherwise one lens per selected pair, in order, each built by `DebugLens` |
| `CodeLens.LocToRange` | src/CodelensProvider.ts:54-58 | editor lines are parser lines minus one, at start and end; columns are unchanged |
| `CodeLens.FunctionPairsExact` | src/CodelensProvider.ts:76-82 | a contract's function visit adds (contract, f) iff f is one of its functions, executable and without parameters |
| `CodeLens.SelectedAppend` | src/CodelensProvider.ts:62-86 | selection distributes over concatenation, so pairs come in traversal order |
| `CodeLens.SelectedExact` | src/CodelensProvider.ts:60-98 | a pair is selected iff its contract has kind `contract` and no constructor with arguments, and its function is a parameterless, non-constructor, non-virtual, non-fallback external, public or default function of that contract |
| `CodeLens.NoLensWithoutPlainContract` | src/CodelensProvider.ts:89-91 | a file of interfaces, libraries and abstract contracts gets no lens |
| `CodeLens.ConstructorArgsBlockContract` | src/CodelensProvider.ts:67-83 | a contract with a constructor taking arguments contributes nothing, wherever it stands |
| `CodeLens.DebugLensCommand` | src/CodelensProvider.ts:33-43 | each lens runs `simbolik.startDebugging` on a selected (contract, function) pair of the file, at the function's start line minus one |
| `Strings.DropLastSegment` | src/foundry.ts:8 | the path before its last `/`, and the empty string when there is no `/` |
| `Foundry.FoundryRoot` | src/foundry.ts:43-67 | returns the longest prefix of the path's segments that holds `foundry.toml`, trying the full path first, after (#segments - #root + 1) probes; fails with "No foundry.toml found" iff no prefix, the empty one included, holds it, after #segments + 1 probes |
| `Foundry.DefaultProfile` | src/foundry.ts:83 | a missing `profile` table or `default` profile reads as the empty table |
| `Foundry.SettingOr` | src/foundry.ts:84-85 | a set, non-empty value is kept; an unset or empty one gives the fallback |
| `Foundry.OutputDir` | src/foundry.ts:84 | the output directory is never empty: an unset or empty `out` gives `out` |
| `Foundry.BuildInfoPath` | src/foundry.ts:85 | the build-info directory is never empty |
| `Foundry.BuildInfoFiles` | src/foundry.ts:92 | never more files than entries; every kept entry is from the listing, has type exactly File and a name ending in `.json` (`IsBuildInfoFile`) |
| `Foundry.BuildInfoPathDefaults` | src/foundry.ts:83-85 | `out` defaults to `out`; `build_info_path` defaults to `<out>/build-info`, otherwise is the configured value; the result is never empty |
| `Foundry.EmptyConfigBuildInfo` | src/foundry.ts:83-85 | with no profile the build-info directory is `out/build-info` |
| `Foundry.BuildInfoFilesExact` | src/foundry.ts:92 | an entry is kept iff it is in the listing, has type exactly File and a name ending in `.json` |
| `Foundry.BuildInfoFilesAppend` | src/foundry.ts:92 | the filter keeps listing order |
| `Foundry.SymlinkedJsonDropped` | src/foundry.ts:92 | a `.json` entry of type File+SymbolicLink is dropped; one of type File is kept |
| `Foundry.ReadAll` | src/foundry.ts:100-105 | one text per file, the i-th being the i-th file's contents |
| `Foundry.ForgeBuildInfo` | src/foundry.ts:91-106 | "No build-info files found" is reported, with no texts, iff nothing survives the filter; otherwise one text per kept entry, in listing order |
| `Foundry.ForgeBuildTask` | src/foundry.ts:6-33 | runs the configured forge (default `forge`) with `build`, in the file's directory, with `FOUNDRY_OPTIMIZER=false`, `FOUNDRY_BUILD_INFO=true`, `FOUNDRY_FORCE=true`, in the background, silently, clearing the terminal; the working directory is the path before the file's last `/`, and `/` for a file directly under the root, such as `/A.sol` |
| `Launch.ParameterTypes` | src/startDebugging.ts:46-67 | never more type names than parameters |
| `Launch.MethodSignature` | src/startDebugging.ts:71 | the signature starts with the name (`null` for a nameless function) and `(`, and ends with `)` |
| `Launch.DebugConfigName` | src/startDebugging.ts:74 | the contract name, a `.`, then the signature |
| `Launch.DebugConfigNameRoundTrip` | src/startDebugging.ts:74 | since a contract name has no `.`, splitting the session name at its first `.` gives back the contract name and the signature |
| `Launch.RpcUrl` | src/startDebugging.ts:76 | `http://localhost:` followed by the port setting as a template renders it |
| `Launch.ParameterTypesAppend` | src/startDebugging.ts:46-67 | type extraction keeps parameter order |
| `Launch.ParameterTypesExact` | src/startDebugging.ts:46-67 | a type name is extracted iff some parameter has a non-null type name whose `name` is that string; null type names, missing and non-string names are dropped |
| `Launch.ParameterTypesAllKept` | src/startDebugging.ts:46-67 | when every parameter has a string type name, none is dropped and each keeps its position |
| `Launch.SignatureRoundTrip` | src/startDebugging.ts:71 | the signature is name, `(`, the kept types joined by `,`, `)`: reading it back yields exactly the name and the types |
| `Launch.LensedSignature` | src/startDebugging.ts:71-74 | for a function that got a lens the signature is `name()` and the session name `Contract.name()` |
| `Launch.MakeDebugConfig` | src/startDebugging.ts:98-122 | type `solidity`, request `launch`, every argument in its own field unchanged |
| `Launch.StartDebugging` | src/startDebugging.ts:12-96 | the node is restarted iff `anvil-autostart` is truthy; with autobuild on, a failed build ends the command without a session; a session starts iff there is an editor and a workspace folder and the build succeeded or was off, named `Contract.signature`, with RPC `http://localhost:<anvil-port>` |
| `Launch.DefaultRpcUrl` | src/startDebugging.ts:75-76 | with no port set the RPC address is `http://localhost:8545` |
| `Watcher.WorkspaceWatcher.constructor` | src/WorkspaceWatcher.ts:9-11 | a new watcher has the given flag, false by default |
| `Watcher.WorkspaceWatcher.OnDidSaveTextDocument` | src/WorkspaceWatcher.ts:12-16 | the flag becomes set iff it was set or the saved document's language is `solidity` |
| `Watcher.WorkspaceWatcher.OnDidCreateFiles` | src/WorkspaceWatcher.ts:17-21 | the flag is set when some created path ends in `.sol`, unchanged otherwise |
| `Watcher.WorkspaceWatcher.OnDidRenameFiles` | src/WorkspaceWatcher.ts:22-26 | the flag is set when some new path ends in `.sol`, unchanged otherwise |
| `Watcher.WorkspaceWatcher.HasChanges` | src/WorkspaceWatcher.ts:28-30 | returns the flag and changes nothing |
| `Watcher.WorkspaceWatcher.Reset` | src/WorkspaceWatcher.ts:31-33 | clears the flag |
| `Watcher.FlagMonotoneBetweenResets` | src/WorkspaceWatcher.ts:12-26 | no event other than `reset` clears the flag |
| `Watcher.FlagMeansUnbuiltChange` | src/WorkspaceWatcher.ts:12-33 | from a clear flag, the flag is set after a run of events iff some event touched a Solidity file and no `reset` followed it |
| `Watcher.RenameAwayIgnored` | src/WorkspaceWatcher.ts:22-26 | renaming a `.sol` file to a non-`.sol` path does not set the flag |
| `DebugAdapter.Race` | src/DebugAdapter.ts:45-49 | an attempt succeeds or fails only if its task settles before the interval; otherwise the timer wins |
| `DebugAdapter.RetryFrom` | src/DebugAdapter.ts:43-58 | at most `maxRetries + 1` attempts in all; resolves with the value of the first attempt that succeeds; rejects only after all attempts failed, with the last attempt's failure |
| `DebugAdapter.Retry` | src/DebugAdapter.ts:37-61 | the counter loop matches `RetryFrom`, makes 1 to `maxRetries + 1` attempts, and resolves iff some attempt within the bound succeeds |
| `DebugAdapter.FirstSuccessWins` | src/DebugAdapter.ts:45-50 | the first attempt that succeeds in time decides the result, and no later attempt is made |
| `DebugAdapter.AllFailReject` | src/DebugAdapter.ts:51-56 | when every attempt fails, the retry rejects with the last failure after `maxRetries + 1` attempts |
| `DebugAdapter.SilentAttemptTimesOut` | src/DebugAdapter.ts:45-49 | a task that never settles counts as a failure, rejected without a reason |
| `DebugAdapter.AtMostFiveAttempts` | src/DebugAdapter.ts:6 | with `MAX_RETRIES = 4` at most five attempts are made |
| `Transport.Connect` | src/DebugAdapter.ts:18 | `new WebSocket(url)` throws a SyntaxError iff the URL is not accepted; otherwise a fresh socket to that URL, connecting, with nothing sent |
| `DebugAdapter.ConnectResolvesIff` | src/DebugAdapter.ts:18-24 | the factory's retry resolves iff the socket opens within the 500 ms window of one of the five attempts |
| `DebugAdapter.ErrorOnOneSocketDooms` | src/DebugAdapter.ts:18-24 | on the one shared socket, an error before the last attempt closes it, and the retry rejects by timeout, without the error, after all five attempts |
| `DebugAdapter.OpenUnheardDooms` | src/DebugAdapter.ts:19-24 | a socket that opens outside every attempt's window is never heard: the retry rejects by timeout after all five attempts, while the socket is open by the last deadline when it opened before it |
| `DebugAdapter.OpenBetweenAttempts` | src/DebugAdapter.ts:19-24 | a server that accepts 700 ms in leaves the retry rejected and the socket open |
| `DebugAdapter.DeliveredAppend` | src/DebugAdapter.ts:67-71 | inbound messages are fired in arrival order |
| `DebugAdapter.DeliveredExactly` | src/DebugAdapter.ts:67-71 | each well-formed frame, text or binary, fires its message exactly once, unchanged |
| `DebugAdapter.WebsocketDebugAdapter.constructor` | src/DebugAdapter.ts:66-72 | the adapter wraps the given socket and has fired nothing |
| `DebugAdapter.WebsocketDebugAdapter.HandleMessage` | src/DebugAdapter.ts:76-78 | on an open socket the message's serialisation is sent unchanged; otherwise nothing is sent |
| `DebugAdapter.WebsocketDebugAdapter.OnMessage` | src/DebugAdapter.ts:67-71 | a frame that parses fires its message; one that does not fires nothing |
| `DebugAdapter.WebsocketDebugAdapter.Dispose` | src/DebugAdapter.ts:80-82 | closes the socket |
| `DebugAdapter.Decode` | src/DebugAdapter.ts:67-71 | a frame that parses, text or binary, yields its message; one that does not yields nothing |
| `DebugAdapter.CreateDescriptor` | src/DebugAdapter.ts:13-34 | a server URL (default `ws://localhost:6789`) the socket does not accept rejects the factory with a SyntaxError, no warning and no adapter; otherwise one fresh socket to it, a warning iff the retry rejected, and the adapter over that same socket either way, open when the retry resolved, and otherwise in the state the socket's event left it at the last deadline |
| `DebugAdapterWeb.Step` | src/DebugAdapter.web.ts:17-40 | open resolves; an error on an open socket does nothing, otherwise it closes and warns without rejecting; the timer does nothing on an open socket, otherwise it closes, rejects with "Connection timed out" and warns; a settled promise never changes |
| `DebugAdapterWeb.SettlesOnce` | src/DebugAdapter.web.ts:14-41 | once settled, the descriptor promise keeps its value through any events |
| `DebugAdapterWeb.RejectedOnlyByTimer` | src/DebugAdapter.web.ts:22-40 | once the socket exists, a rejection always comes from the timer, firing while the socket was not open and the promise pending, with "Connection timed out" |
| `DebugAdapterWeb.RejectionCauses` | src/DebugAdapter.web.ts:14-40 | the descriptor is rejected with a SyntaxError iff the server URL was not accepted, then at once and without a warning; otherwise only by the timer, as `RejectedOnlyByTimer` states |
| `DebugAdapterWeb.ConsistentAlways` | src/DebugAdapter.web.ts:14-41 | in every reachable state, an open socket means resolved, a connecting socket means pending, and a fired timer means settled |
| `DebugAdapterWeb.TimerSettles` | src/DebugAdapter.web.ts:31-40 | after the timer the descriptor is never pending |
| `DebugAdapterWeb.OpenMeansResolved` | src/DebugAdapter.web.ts:17-21 | whenever the socket is open the descriptor has been resolved |
| `DebugAdapterWeb.ErrorThenTimeout` | src/DebugAdapter.web.ts:22-40 | an error followed by the timer leaves the socket closed, the promise rejected by the timer and two warnings |
| `DebugAdapterWeb.Decode` | src/DebugAdapter.web.ts:49-54 | only a binary frame that parses yields a message, and then exactly its message |
| `DebugAdapterWeb.WebsocketDebugAdapter.constructor` | src/DebugAdapter.web.ts:48-55 | the adapter wraps the given socket and has fired nothing |
| `DebugAdapterWeb.WebsocketDebugAdapter.HandleMessage` | src/DebugAdapter.web.ts:59-61 | on an open socket the message's serialisation is sent unchanged; otherwise nothing is sent |
| `DebugAdapterWeb.WebsocketDebugAdapter.OnMessage` | src/DebugAdapter.web.ts:49-54 | a binary frame that parses fires its message; a text frame or an unparsable one fires nothing |
| `DebugAdapterWeb.WebsocketDebugAdapter.Dispose` | src/DebugAdapter.web.ts:63-65 | closes the socket |
| `DebugAdapterWeb.CreateDescriptor` | src/DebugAdapter.web.ts:14-16 | a server URL (default `wss://beta.simbolik.runtimeverification.com`) the socket does not accept rejects the promise at once with a SyntaxError; otherwise one fresh socket to it, connecting, with the promise pending and the timer armed |
| `DebugAdapterWeb.DescriptorRequest.constructor` | src/DebugAdapter.web.ts:17-40 | the handlers go on the socket just created: connecting, promise pending, no warnings, timer not yet fired, no adapter |
| `DebugAdapterWeb.DescriptorRequest.OnOpen` | src/DebugAdapter.web.ts:17-21 | follows `Step`; a pending promise is resolved with a new adapter over this same socket |
| `DebugAdapterWeb.DescriptorRequest.OnError` | src/DebugAdapter.web.ts:22-30 | follows `Step`: ignored when open, otherwise closes and warns without rejecting |
| `DebugAdapterWeb.DescriptorRequest.OnTimeout` | src/DebugAdapter.web.ts:31-40 | follows `Step`: ignored when open, otherwise closes, rejects and warns |

## Left out

- Parsing is not modelled: the Solidity parser, the TOML parser and JSON
  `stringify`/`parse` are foreign libraries. The model takes their outputs as
  inputs. A parse failure is the `ParserError` outcome. A JSON frame is
  `Encoded(message)` or `Malformed`, so serialising and parsing back gives the
  message.
- The file system, the editor's APIs, timers and the network are inputs. The
  file system is the predicate `hasConfig` over segment prefixes plus a
  directory listing and a `read` function. Each connection attempt is an event
  time or "never settles". The browser events come as a sequence of `Event`
  values.
- Foundry.FoundryRoot: returns the root as path segments, not as a URI, and does
  not model URI path joining, which normalises empty segments. The predicate
  may therefore answer differently for two prefixes that join to the same
  directory, such as `[]` and `[""]`.
- Foundry.ForgeBuildTask: the working directory is the URI path that
  `file.with` keeps (`FileUriPath`: an empty path becomes `/`). Turning it into
  an `fsPath`, for example drive letters and backslashes on Windows, is not
  modelled.
- Launch.StartDebugging: the calls to `forgeBuild` and `anvilTerminate`, and the
  calls to `foundryRoot` and `loadBuildInfo` with a string argument, do not
  match the other files' signatures. The model therefore takes their effects as
  inputs: whether the build succeeds, the root, and the build-info texts. A
  failing `foundryRoot` or build-info read is not modelled.
- Foundry.ForgeBuildInfo: the listing and the `read` function are inputs. A
  missing build-info directory, which makes `readDirectory` throw, and an
  unreadable file, which makes `Promise.all` reject, are not modelled.
- The exact text of the warning dialogs is not modelled. Warnings are counted
  (web) or flagged (desktop).
- DebugAdapter.CreateDescriptor: the socket produces at most one event, an open
  or an error. A socket that opens and later errors while attempts still run is
  not modelled. Attempt `k` is taken to listen from `1000·k` ms. This is exact
  until the socket's event, and after it every later attempt times out whenever
  it starts, so event-loop delays do not change the outcome. The socket's state
  is given at the last attempt's deadline, not at every later time.
- Which URLs `new WebSocket` accepts is an input (`urlAccepted`). The URL parser
  is not modelled.
- DebugAdapter.WebsocketDebugAdapter.OnMessage: a frame that `JSON.parse`
  rejects makes the handler throw, since the source catches nothing. The model
  records only that nothing is fired for it. What the socket library does with
  later frames after a listener has thrown is not modelled: `Delivered` keeps
  delivering them. The same holds for the browser adapter
  (`DebugAdapterWeb.Decode`). There a text frame throws from the handler, and a
  Blob that does not parse leaves a rejected promise.
- DebugAdapterWeb.WebsocketDebugAdapter.OnMessage: the adapter reads each Blob's
  text asynchronously. The model fires in arrival order and does not model
  reads that finish out of order.
- The socket's behaviour when sending on a socket that is not open follows the
  WebSocket standard: it throws while connecting and discards once closed. The
  CLOSING state is folded into Closed.
- Lens titles, tooltips and the events that refresh lenses are not modelled.
  Nor are the extension's command registration, the process supervisor, the
  repository cloner, the Kast view and the solc wrapper script. They are editor
  glue, process and network I/O.
- Parser function records carry no receive flag. The selection rule never reads
  one, so a receive function is treated like any other function record.
