# lager-cli core, modelled in Dafny

This project models the plain sequential logic of the lager command-line client. Two Python
packages are covered: the newer `lager_cli` and the older `lager`. The model has these parts:

- **Output matchers.** `UnityMatcher` is a streaming classifier for Unity test output. It
  buffers chunks, splits off complete lines, colours each line, and keeps two flags: a
  "summary seen" flag and a failure flag that never resets. `EmptyMatcher` is a passthrough.
  Each is a pure specification (`UnityState`, `UnityFeed`, `FeedAll`) plus a class whose
  methods are proved against that specification.
- **Job-output sessions.** The WebSocket is an ordered trace of events: a decoded frame,
  silence longer than the message timeout, the overall deadline, or a close with an optional
  code and reason. The model covers:
  - dispatch of decoded frames to the matcher (`data`) or to the downloader (`urls`);
  - the close decision that both `heartbeat`s and the receive loop apply;
  - the bounded connect retry;
  - the `except` table of `run_job_output`, in both packages.

  HTTP downloads go through an `HttpClient` object that records every URL requested. That
  makes "the remaining URLs are not fetched" something a contract can state.
- **Python script output.** This covers the `Lager-Output-Version` gate, the separator header,
  the exit-code diagnostics, and the one-shot SIGINT forwarder.
- **Config and devenvs.** The config is an ordered list of section names plus a map from
  section to key/value map. It covers:
  - `DEVENV.<name>` sections and their inverse;
  - saved `cmd.<name>` commands, with an overwriting add and a remove that errors on a
    missing key;
  - devenv selection: zero, one or many devenvs, plus the source-directory scope filter;
  - the nearest-first search for project config files from the working directory up to the
    root.

  A `ConfigParser` class holds the config that the commands change in place.
- **`exec`, `run` and `devenv`.** Command resolution covers help, mutually exclusive
  arguments, lookup of a saved command, and save-as. Each call is specified by a pure
  `Effect`: how it ends, the config afterwards, whether the file was written, and what it
  echoed. The model also gives the `docker run` command lines these commands build.
- **Flash parameters and the API context.** This covers:
  - the hex-integer parser, and the `<path>,<address>` binfile parser, which splits at the last
    comma;
  - the order of the flash form fields;
  - HTTP status handling, and the openocd `Error: ` line filter;
  - the WebSocket path and authorization header;
  - the default gateway.

Text is `seq<char>`. Terminal output is a sequence of `Piece(text, style, newline)` echo
calls, with colours as tags (`Red | Green | Yellow | Plain`). `Render` turns such a sequence
into the characters it shows. The environment is passed in as parameters:
- file existence (`isFile`);
- HTTP servers (`server: string -> Response`);
- the container's return code (`run: seq<string> -> int`);
- the python matcher's exit code (`exitOf`);
- environment variables.

`lager/run/commands.py` imports `figure_out_devenv` from `lager/config.py`, which does not
define it, so as written that import fails. The model gives `run` the `figure_out_devenv` of
`lager_cli/config.py`, which is evidently what it means.

## Model

| member | source | states |
|---|---|---|
| Matchers.TestMatcherFactory | lager_cli/matchers.py:3-6 | the Unity matcher is chosen exactly when the runner is `unity` |
| Matchers.MarkerStyle | lager_cli/matchers.py:33-42 | outside the summary: red iff `:FAIL`, else green iff `:PASS`, else yellow iff `:INFO`, else plain |
| Matchers.ClassifyLine | lager_cli/matchers.py:26-42 | the line is echoed with a newline; the separator sets the summary flag and is plain; in the summary: red if a failure was seen, else green; the failure flag is set only by a `:FAIL` line outside the summary |
| Matchers.ProcessLines | lager_cli/matchers.py:25-42 | one echo call per complete line, in order, each with a newline; both flags only ever go from false to true |
| Matchers.UnityFeed | lager_cli/matchers.py:17-24 | a chunk with no newline only extends the buffer and echoes nothing; after a chunk with a newline the buffer holds no newline; flags are monotone |
| Matchers.FeedAll | lager_cli/matchers.py:17-42 | over any chunk sequence every echoed line is newline-free and newline-terminated |
| Matchers.ExitCode | lager_cli/matchers.py:49-53 | 1 iff a failure was seen, 0 iff not |
| Matchers.FeedReconstructs | lager_cli/matchers.py:17-24 | the echoed lines, then the new buffer, equal the old buffer plus the chunk; the buffer stays newline-free |
| Matchers.StreamFromReconstructs | lager_cli/matchers.py:17-24 | over a whole stream, echoed lines plus the buffer equal the starting buffer plus everything fed |
| Matchers.StreamReconstructs | lager_cli/matchers.py:11-24 | from a fresh matcher, echoed lines plus the buffer are exactly the concatenated chunks |
| Matchers.StreamLinesAreSplit | lager_cli/matchers.py:22-24 | the echoed lines plus the buffer are `split('\n')` of everything fed |
| Matchers.SummaryIffSeparator | lager_cli/matchers.py:26-29 | the summary flag is set iff it was set or the separator line occurred |
| Matchers.FailIffMarkerBeforeSummary | lager_cli/matchers.py:30-36 | the failure flag is set iff it was set, or, outside the summary, a `:FAIL` line occurs with no separator up to it |
| Matchers.ProcessLinesIgnoresPending | lager_cli/matchers.py:25-42 | classification never depends on the buffer |
| Matchers.ProcessLinesAppend | lager_cli/matchers.py:25-42 | classifying `a` then `b` is classifying `a + b` |
| Matchers.FeedAllIsProcessLines | lager_cli/matchers.py:17-42 | feeding chunks leaves the flags that classifying every echoed line in one go would |
| Matchers.ExitCodeIffFailLine | lager_cli/matchers.py:14-53 | the exit code of a stream is 1 iff some complete line before the summary separator holds `:FAIL` |
| Matchers.SeparatorTwice | lager_cli/matchers.py:26-29 | a repeated separator changes no state |
| Matchers.FailureSticks | lager_cli/matchers.py:34-36 | once a failure is seen the exit code stays 1 whatever is fed |
| Matchers.EmptyFeed | lager_cli/matchers.py:59-60 | the passthrough shows exactly the chunk, with no newline |
| Matchers.FeedModel | lager_cli/matchers.py:17-60 | either matcher's feed: the passthrough shows the chunk, the Unity matcher does `UnityFeed` |
| Matchers.ModelExitCode | lager_cli/matchers.py:49-67 | 1 iff a Unity matcher has seen a failure; the passthrough always 0 |
| Matchers.UnityMatcher.constructor | lager_cli/matchers.py:11-15 | empty buffer, both flags false |
| Matchers.UnityMatcher.Feed | lager_cli/matchers.py:17-44 | new state and echo calls are those of `UnityFeed` |
| Matchers.UnityMatcher.HandleLines | lager_cli/matchers.py:25-42 | the loop over complete lines does `ProcessLines` |
| Matchers.UnityMatcher.HandleLine | lager_cli/matchers.py:26-42 | one loop turn does `ClassifyLine` |
| Matchers.UnityMatcher.Done | lager_cli/matchers.py:46-47 | `done` changes no state: a trailing fragment is never echoed |
| Matchers.UnityMatcher.ExitCode | lager_cli/matchers.py:49-53 | 1 iff the failure field is set |
| Matchers.EmptyMatcher.constructor | lager_cli/matchers.py:56-57 | a fresh passthrough |
| Matchers.EmptyMatcher.Feed | lager_cli/matchers.py:59-60 | echoes the chunk unchanged without a newline |
| Matchers.EmptyMatcher.Done | lager_cli/matchers.py:62-63 | does nothing but count the call |
| Matchers.EmptyMatcher.ExitCode | lager_cli/matchers.py:65-67 | always 0 |
| Matchers.NewMatcher | lager_cli/status.py:152-158 | a fresh matcher of the chosen class, constructed without arguments |
| Matchers.Feed | lager_cli/status.py:46 | feeding whichever matcher the session holds follows `FeedModel` |
| Matchers.Done | lager_cli/status.py:110 | `done` on whichever matcher leaves its state unchanged |
| Protocol.Payloads | lager_cli/status.py:42-46 | the payloads of the entries that have one, in order |
| Protocol.HttpClient.Get | lager_cli/status.py:34 | returns the server's response and records the URL as requested |
| Protocol.FirstFailing | lager_cli/status.py:33-35 | the index of the first response that raises for status, or the count |
| Protocol.BeforeFirstFailing | lager_cli/status.py:33-35 | every response before the first failing one succeeds |
| Protocol.StreamResponse | lager_cli/status.py:20-26 | every body chunk echoed in order without a newline |
| Protocol.HandleUrlMessage | lager_cli/status.py:28-36 | URLs are requested in order up to and including the first failing one; only the bodies before it are shown; the failing status is returned |
| Protocol.BodiesRender | lager/status.py:15-31 | successful downloads show exactly the concatenated bodies |
| Protocol.AllSucceed | lager_cli/status.py:33-35 | when no response raises, every URL is downloaded |
| Protocol.UniformBodies | tests/test_status.py:14-20 | URLs answering the same body show it once per URL |
| Protocol.FirstNonPong | lager_cli/status.py:82-86 | the index of the first ping not answered in time |
| Protocol.BeatOutcome | lager_cli/status.py:87-91 | an unanswered ping returns iff the socket closed cleanly (no reason, or code 1000 with `EOF`), times out iff the pong was late, else re-raises |
| Protocol.Heartbeat | lager_cli/util.py:59-86 | pings until the first one without a pong, sleeping `interval` after each pong, then ends as `BeatOutcome` says |
| Protocol.SecondsWord | lager_cli/status.py:184-190 | "second" only for a timeout of exactly 1 |
| Protocol.ErrorReportExit | lager_cli/status.py:183-222 | clean closes neither print nor exit; a close without a reason and a handshake error without a status code escape; HTTP errors never exit; both timeouts exit 1 even under debug; every other exception, rejections included, exits 1 (or propagates under debug) |
| Protocol.ErrorReportSilent | lager_cli/status.py:193-222 | exactly the clean closes and the status-less handshake errors print nothing; every rejection prints one line |
| Protocol.ErrorReportMessages | lager_cli/status.py:183-208 | the two timeout messages name their limit; a rejection with 404 is "Job not found", any other rejection "Could not connect to API websocket" |
| CliStatus.FeedChunks | lager_cli/status.py:42-46 | feeding chunks keeps the matcher's class |
| CliStatus.StopOf | lager_cli/status.py:96-107 | an event that is not a frame always ends the loop |
| CliStatus.HandleDataMessage | lager_cli/status.py:38-46 | the payloads, in entry order, fed to the matcher |
| CliStatus.HandleMessage | lager_cli/status.py:48-56 | `data` is checked before `urls`; neither does nothing |
| CliStatus.Stop | lager_cli/status.py:100-107 | the close decision for one non-frame event |
| CliStatus.Turn | lager_cli/status.py:95-108 | one loop turn: a frame is handled, any other event ends the loop |
| CliStatus.ReceiveLoop | lager_cli/status.py:95-108 | frames handled in arrival order until the first ending event |
| CliStatus.ReadFromWebsocket | lager_cli/status.py:93-111 | as the loop, and `done` runs exactly once on every exit |
| CliStatus.FloatText | lager_cli/status.py:185 | a float timeout prints as `inf`, or as its whole number, with a sign if negative, followed by `.0` |
| CliStatus.ConnectWithRetry | lager_cli/status.py:146 | at most 4 attempts, retried only after a rejection, 2 seconds between attempts, the last result kept |
| CliStatus.InitialModel | lager_cli/status.py:152 | the session's matcher starts as the factory's class |
| CliStatus.RunJobOutput | lager_cli/status.py:176-234 | attempts as the retry allows; report and terminal output as the session and the `except` table give |
| CliStatus.FeedChunksEmpty | lager_cli/matchers.py:59-60 | the passthrough shows exactly the concatenated chunks |
| CliStatus.StreamedPayloads | lager_cli/status.py:93-108 | data frames through the passthrough show their payloads in order, and the loop continues |
| CliStatus.DataFrameStep | lager_cli/status.py:38-56 | one data frame shows its payloads and changes nothing else |
| CliStatus.StreamingSession | lager_cli/status.py:176-182 | data frames then a clean close: the payloads are shown and the exit code is 0 |
| CliStatus.DownloadFrame | lager_cli/status.py:28-36 | a frame of URLs all answering 200: every URL requested in order, body shown once per URL |
| CliStatus.UnityCleanExit | lager_cli/status.py:180-182 | with the Unity matcher a clean end exits 1 iff some complete line before the summary holds `:FAIL` |
| CliStatus.FeedChunksUnity | lager_cli/status.py:42-46 | feeding through the session is the matcher's own `feed` sequence |
| LegacyStatus.HandleDataMessage | lager/status.py:33-40 | payloads echoed in entry order without a newline |
| LegacyStatus.HandleMessage | lager/status.py:42-50 | `data` before `urls`; neither does nothing |
| LegacyStatus.DisplayJobOutput | lager/status.py:58-71 | frames handled in arrival order until an event or a failed download raises |
| LegacyStatus.IntText | lager/status.py:80-86 | an integer timeout prints as `inf`, or as its digits with a sign if negative |
| LegacyStatus.RunJobOutput | lager/status.py:73-130 | the report is the `except` table applied to how the loop raised |
| LegacyStatus.StreamedPayloads | lager/status.py:33-40 | data frames echo exactly their payloads, in order |
| LegacyStatus.EofCloseIsQuiet | lager/status.py:105-115 | a code 1000 `EOF` close prints nothing and does not exit |
| LegacyStatus.StreamingSession | tests/test_status.py:5-12 | streamed frames then the normal close show exactly the concatenated payloads, with no message or exit |
| LegacyStatus.DownloadFrame | lager/status.py:23-31 | every URL requested in order, nothing fails, body shown once per URL |
| LegacyStatus.DownloadSession | tests/test_status.py:14-20 | one URL frame then the normal close shows the body once per URL |
| LegacyStatus.AgreesWithCli | lager/status.py:58-71 | the older loop shows and requests exactly what the newer one does with the passthrough matcher |
| LegacyStatus.CloseWithoutReason | lager/status.py:105-106 | a close without a reason escapes here, while the newer client exits 0 |
| Terminal.EchoChunksRender | lager_cli/util.py:23-24 | echoing chunks without newlines shows exactly their concatenation |
| Util.StreamOutput | lager_cli/util.py:19-25 | every chunk echoed unchanged, in order, without a newline |
| Util.Header | lager_cli/util.py:34-37 | `None` iff no field has the name in any letter case |
| Util.HeaderLast | lager_cli/util.py:34-37 | the last field with the name, in any case, gives the value |
| Util.HeaderIgnoresCase | lager_cli/util.py:53 | a header lookup gives the same result whatever the case of the name asked for |
| Util.Separator | lager_cli/util.py:34-37 | no separator iff no `Lager-Separator` field in any case; otherwise that header's value |
| Util.HeaderCaseAccepted | lager_cli/util.py:34-53 | fields spelt in another case (e.g. `lager-output-version: 1`) take the v1 path and give their separator |
| Util.ExitDiagnostic | lager_cli/util.py:43-49 | exactly -1, 124 and 137 have their messages; every other code has none |
| Util.PythonMatcherV1.constructor | lager_cli/util.py:38 | the matcher gets the separator and has been fed nothing |
| Util.PythonMatcherV1.Feed | lager_cli/util.py:42 | the chunk is appended to what the matcher was fed |
| Util.Signals.constructor | lager_cli/util.py:27 | SIGINT starts bound to the original handler |
| Util.Signals.Install | lager_cli/util.py:39-40 | SIGINT is bound to the forwarder |
| Util.Signals.SigintHandler | lager_cli/util.py:29-31 | the original handler is rebound before SIGINT is forwarded once |
| Util.Signals.Deliver | lager_cli/util.py:29-31 | one SIGINT reaches whatever is bound |
| Util.Signals.DeliverMany | lager_cli/util.py:29-31 | `n` SIGINTs forward and interrupt as `Forwarded`/`Interrupted` count |
| Util.ForwardsAtMostOnce | lager_cli/util.py:29-31 | the forwarder fires at most once (exactly once if bound and any SIGINT arrives); every other SIGINT reaches the original handler |
| Util.PythonOutcomeTable | lager_cli/util.py:43-57 | a `Lager-Output-Version` field (name in any case) other than "1", or none: upgrade message and exit 1; version "1": the matcher's exit code, with a diagnostic exactly for -1, 124, 137 |
| Util.StreamPythonOutput | lager_cli/util.py:52-57 | a matcher exists iff the version is "1"; it is fed every chunk; stderr and exit as `PythonOutcome` |
| Util.StreamPythonOutputV1 | lager_cli/util.py:33-50 | separator from the headers, forwarder installed, chunks fed in order, exit code with its diagnostic |
| Util.FeedChunks | lager_cli/util.py:41-42 | every chunk fed to the matcher, in order |
| Paths.RStrip | lager_cli/config.py:39 | a prefix with no trailing separator, having removed only separators |
| Paths.Dirname | lager_cli/config.py:39 | `dirname` is a prefix, and either the path itself or shorter |
| Paths.DirnameFixpoint | lager_cli/config.py:39-41 | `dirname(p) == p` iff `p` is the root (only slashes) |
| Paths.DirnameOfJoin | lager_cli/config.py:19-23 | `dirname(join(dir, name)) == dir` for a plain name |
| Config.ConfigFileName | lager_cli/config.py:10-11 | `.lager` unless the environment names another file |
| Config.MakeConfigPathDir | lager_cli/config.py:19-23 | the config path lies directly in its directory |
| Config.Ancestors | lager_cli/config.py:35-42 | the walk starts at the working directory |
| Config.AncestorsChain | lager_cli/config.py:39-42 | each step is the `dirname` of the previous, strictly shorter, ending at the root |
| Config.CandidatesMembers | lager_cli/config.py:36-38 | a path is found iff it is some ancestor's config path, exists and is not the global file |
| Config.CandidatesNearest | lager_cli/config.py:25-29 | the first path found is the nearest directory's |
| Config.FindConfigFiles | lager_cli/config.py:31-44 | the loop lists exactly the candidates of the ancestors, nearest first |
| Config.FindDevenvConfigPath | lager_cli/config.py:25-29 | None iff no ancestor has a config file; otherwise the nearest one |
| Config.ReadConfigFile | lager_cli/config.py:47-62 | a `LAGER` section is always present; everything parsed is kept |
| Config.DevenvRoundTrip | lager_cli/config.py:73-74 | `DEVENV.`+name maps back to name, and every `DEVENV.` section is the section of its name |
| Config.DevenvSections | lager_cli/config.py:105 | exactly the sections starting with `DEVENV.` |
| Config.NamesOf | lager_cli/config.py:110 | each section's text after the first `.`, in order |
| Config.ScopeFilter | lager_cli/config.py:106-109 | reading `source_dir` fails iff some section lacks it; kept exactly the in-scope sections |
| Config.GetDevenvNames | lager_cli/config.py:104-110 | unfiltered unless a target is given and several devenvs exist |
| Config.DevenvNamesExact | lager_cli/config.py:104-110 | a name is listed iff its section exists |
| Config.FindScopedDevenv | lager_cli/config.py:76-86 | none scoped: error; several: the "Multiple" error; otherwise the single one |
| Config.FigureOutDevenv | lager_cli/config.py:88-102 | the result is an existing `DEVENV.` section; a given name succeeds iff its section exists, and fails with "not defined" otherwise |
| Config.FigureOutOnlyDevenv | lager_cli/config.py:90-93 | with no name and a single devenv, that devenv is used, whatever the directory |
| Config.FigureOutScoped | lager_cli/config.py:76-95 | with no name and zero or several devenvs, the scoped lookup decides: its error, or the section of the devenv it finds |
| Config.ScopeFilterSame | lager_cli/config.py:106-109 | the scope filter reads only sections and their `source_dir` |
| Config.FigureOutSame | lager_cli/config.py:88-110 | the chosen devenv depends only on the sections and their `source_dir` values |
| Config.CmdKeyOfSuffix | lager_cli/config.py:130-133 | every `cmd.` key is the key of its suffix |
| Config.CommandNames | lager_cli/config.py:130-133 | a name is listed iff its `cmd.` key is present |
| Config.AllCommands | lager_cli/config.py:130-133 | each `cmd.X` key maps X to its value, and nothing else is listed |
| Config.CommandNameAfterDot | lager_cli/config.py:132 | the text after the first `.` of a `cmd.` key is the command name |
| Config.AllCommandsMember | lager_cli/config.py:130-133 | a name is a saved command iff its `cmd.` key is in the section |
| Config.AddedCommandListed | lager_cli/config.py:112-117 | after adding, `all_commands` is the old map with the name set to the command |
| Config.CmdKeyInjective | lager_cli/config.py:113 | different names have different keys |
| Config.RemovedCommandGone | lager_cli/config.py:119-127 | after removing, `all_commands` is the old map without the name |
| Config.ConfigParser.constructor | lager_cli/config.py:51 | the parser holds the parsed config |
| Config.ConfigParser.AddSection | lager/devenv/commands.py:41-42 | an empty section appended; well-formedness kept |
| Config.ConfigParser.Set | lager/devenv/commands.py:43-45 | only that key of that section changes |
| Config.ConfigParser.AddDevenvCommand | lager_cli/config.py:112-117 | only `cmd.<name>` changes, to the command; the warning prints iff the key existed and `warn` is set |
| Config.ConfigParser.RemoveDevenvCommand | lager_cli/config.py:119-127 | missing key: red error, exit 1, nothing changed; otherwise only that key removed |
| Context.ErrorLines | lager_cli/context.py:28-29 | exactly the lines containing `Error: ` |
| Context.ErrorLinesAppend | lager_cli/context.py:28-30 | the filter keeps the original order |
| Context.PrintOpenocdError | lager_cli/context.py:18-30 | stderr gets the red error lines of the log, or nothing for an empty error or log |
| Context.EchoErrorLines | lager_cli/context.py:28-30 | the error lines echoed in red, in order |
| Context.ErrorResponseTable | lager_cli/context.py:47-67 | 404, 422 and 5xx exit 1 with their messages; other 4xx raise silently; below 400 passes; the openocd code prints only error lines |
| Context.HandleErrors | lager_cli/context.py:42-67 | outcome and stderr as the table |
| Context.AuthHeaderParts | lager_cli/context.py:76-78 | the header is the type, a space, then exactly the token |
| Context.WebsocketPath | lager_cli/context.py:129-134 | `/ws/job/<id>`, `/ws/gateway/<id>/gdb-tunnel`, any other kind an invalid-type error |
| Context.Origin | lager_cli/context.py:135 | the scheme-and-host part is a prefix of the URL |
| Context.OriginOf | lager_cli/context.py:135 | joining an absolute path keeps exactly scheme and host |
| Context.WebsocketConnectionParams | lager_cli/context.py:125-142 | URI is the host's origin plus the path; one `authorization` header with the session's value |
| Context.LagerContext.constructor | lager_cli/context.py:102-112 | host and WebSocket host from the environment or defaults; header from the auth |
| Context.LagerContext.DefaultGateway | lager_cli/context.py:114-119 | the `gateway_id` default, if any |
| Context.LagerContext.SetDefaultGateway | lager_cli/context.py:121-123 | stores `str(id)` under `gateway_id`, which the getter then returns |
| Context.GetDefaultGateway | lager_cli/context.py:144-171 | a configured default without a request; else one gateway is stored and returned; none prints and exits; several are ambiguous |
| Flash.ParseHex | lager/flash/commands.py:18-25 | fails with `<v> is not a valid hex integer` iff no hex digits follow the optional `0x`; otherwise the positional value of those digits, in either case |
| Flash.ParseHexDigits | lager/flash/commands.py:18-25 | any non-empty string of hex digits, with or without `0x`, parses to its value |
| Flash.HexValueLeadingZeros | lager/flash/commands.py:23 | leading zero digits do not change the value |
| Flash.ParseHexPadded | lager/flash/commands.py:18-25 | a zero-padded number, with or without `0x`, parses to the number |
| Flash.HexRoundTrip | lager/flash/commands.py:23 | the digits of a number read back as that number |
| Flash.ParseHexRoundTrip | lager/flash/commands.py:18-25 | every number parses from its digits, with or without `0x` |
| Flash.ConvertBinfile | lager/flash/commands.py:42-53 | no comma: the syntax error; success: path, comma, hex digits with the address; an existing path when required |
| Flash.BinfileRoundTrip | lager/flash/commands.py:46-53 | any path, commas included, comes back with its address (`a,b,10` is `a,b` at 0x10) |
| Flash.FlashFields | lager/flash/commands.py:85-94 | hexfiles in order, then binfile files, then their addresses in the same order, then the three flags |
| Exec.Resolve | lager_cli/exec/commands.py:24-44 | help iff neither argument; both: usage error; a name resolves to `section['cmd.'+name]` or "not found"; save-as only with a raw command |
| Exec.ExecArgv | lager_cli/exec/commands.py:46-61 | the docker start, image, shell, `-c`, command; none without image or shell |
| Exec.SavingKeepsContainer | lager_cli/exec/commands.py:40-61 | saving a command never changes the container part of the command line |
| Exec.Exec | lager_cli/exec/commands.py:17-62 | outcome, config, file write and output are those of `ExecEffect` |
| Exec.ExecDevenvFirst | lager_cli/exec/commands.py:23 | a devenv error ends the command before any argument check |
| Exec.ExecHelp | lager_cli/exec/commands.py:24-26 | help printed iff neither argument, then exit 0 with nothing changed |
| Exec.ExecChangesOnlyAlias | lager_cli/exec/commands.py:40-44 | the file is written iff a raw command is saved; only its key changes |
| Exec.ExecNamed | lager_cli/exec/commands.py:33-39 | a name runs the saved command, ignores save-as, exits with the container's code |
| Exec.ExecSaveThenByName | lager_cli/exec/commands.py:33-44 | saving then running by name gives the same result and saves nothing |
| Run.Run | lager/run/commands.py:17-62 | outcome, config and output are those of `RunEffect` |
| Run.RunIsQuietExec | lager/run/commands.py:40-44 | `run` is exactly `exec --no-warn` |
| Run.RunDiffersOnlyInWarning | lager/run/commands.py:42-44 | `run` differs from `exec --warn` only on stderr |
| Devenv.Create | lager/devenv/commands.py:33-46 | the config becomes `CreateConfig` of the old one |
| Devenv.CreateSets | lager/devenv/commands.py:39-46 | the three keys set; other keys, other sections and the order kept; a new section goes last |
| Devenv.DevenvNames | lager/devenv/commands.py:48-54 | one name per `DEVENV.` section, in order, each mapping back to its section |
| Devenv.DevenvNamesAgree | lager/devenv/commands.py:48-54 | equals the newer unfiltered list; a name is listed iff its section exists |
| Devenv.CreatedIsListed | lager/devenv/commands.py:39-54 | a created devenv is listed under its name |
| Devenv.TerminalName | lager/devenv/commands.py:75-85 | the given name; else none: error; several: the joined-names error; one: that one |
| Devenv.TerminalArgv | lager/devenv/commands.py:87-105 | a missing section is "not defined"; otherwise the argv exists iff `image`, `source_dir` and `mount_dir` are all set, and is the docker start plus the image; the first missing key, in that order, raises `NoOptionError` |
| Devenv.TerminalAfterCreate | lager/devenv/commands.py:39-105 | right after `create`, the terminal runs the created image with the created mount |
| Devenv.TerminalOnlyDevenv | lager/devenv/commands.py:75-85 | with no name and one devenv, the terminal is that devenv's |
| Devenv.ExecExtendsTerminal | lager/devenv/commands.py:97-105 | `exec`'s command line is the terminal's plus shell, `-c`, command |

## Left out

- Decoding is not modelled: `bson.loads` and `json.loads` become an abstract `Envelope` / `ApiError`. Neither is bytes versus text: `.decode()` and `.encode()` are the identity on `seq<char>`.
- The curses screen, the keystroke thread and channel, `write_to_websocket` and the trio nursery are left out. These are terminal I/O and concurrency, and only the decision logic is kept.
- `match_class(stdscr)` passes an argument that neither matcher's constructor accepts. Matchers are built without arguments instead.
- `PythonMatcherV1` parsing: its source is not part of this model. The matcher records the chunks it is fed, and its exit code is the parameter `exitOf`.
- Time is not modelled: no clocks or sleeps. Timeouts are `Finite(n) | Infinite` for a whole number `n`, and fractional float timeouts are left out.
- CliStatus.FloatText: from 10^16 upwards Python prints a float in exponent form (`1e+16`), after rounding to the nearest float. The model prints every digit of the whole number followed by `.0`.
- Util.Header: only ASCII letters are case-folded. Repeated fields, which the HTTP library joins with `, `, are not modelled: the last field of a name wins.
- Flash.ParseHex: Python's `int(x, 16)` also accepts a sign, surrounding whitespace and underscores. Only an optional `0x`/`0X` prefix followed by hex digits is modelled.
- `configparser` details are left out: key case folding, the `DEFAULT` section, interpolation and file syntax.
- `write_config_file` and the reading of files are I/O. The model records whether the file is written and what config was read.
- The HTTP requests themselves are not modelled: `requests` sessions, SSL, `NOVERIFY`, and the connection errors caught in `LagerSession.request`. Servers are functions from URL to response.
- `click.Path` conversion and its messages: only existence (a parameter) is modelled for binfiles.
- `subprocess.run` is a parameter that maps an argv to a return code. Devenv.TerminalArgv: the `check=True` failure on a non-zero return code is left out.
- Protocol.ErrorReport: relies on trio-websocket 0.8.0 making `ConnectionRejected` (the only handshake error with a status code) and `ConnectionTimeout` subclasses of `HandshakeError`; that library is not part of this model. So the `ConnectionRejected` clause (lager_cli/status.py:225-234) is unreachable and its internal-error message is never printed, and `ConnectionTimeout` is modelled as the status-less handshake error whose `AttributeError` escapes. `DisconnectionTimeout` is not modelled.
- Context.OriginOf: `urljoin` is modelled only for an absolute path joined onto a host URL, not its full grammar.
- The GDB tunnel, authentication, and the remaining click commands are glue around network calls.
- `click.MissingParameter` for several gateways is the `Ambiguous` choice; its hint text is not modelled.
