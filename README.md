# Qt Creator MCP plugin: a Dafny model of the request pipeline and command rules

The plugin runs a loopback TCP server inside the IDE. It speaks JSON-RPC 2.0
with one request per line and drives the IDE through a command executor.
This project models the following, and proves properties about each part:

- **The server (`MCPServer`), as classes.** It covers:
  - port selection on start: the requested port, then 3001 through 3010;
  - the client registry: accept, disconnect, stop;
  - framing of received chunks into lines;
  - request validation and routing over 22 method names;
  - the response envelopes.
- **The command executor (`MCPCommands`).** The advisory method-timeout
  table is a class, because `setMethodMetadata` updates it in place. The
  IDE commands are functions of a host snapshot. A command reports the
  trigger it fires, as an `Effect`. Some commands try action IDs one by
  one, search the configurations for a name, or poll the session load:
  `runProject`, `debug`, `stopDebug`, `switchToBuildConfig` and
  `loadSession`. Each of these also has a method with that loop.
  `listIssues` and `setMethodMetadata` have step-by-step methods too. Each
  method is proved equal to its function. Loops that only copy a list into
  another are modelled as values; see "Left out".
- **The issues manager (`IssuesManager`).** It covers the accessibility
  flag, the issue count and list, and the task formatter.

The IDE itself is a `Host.Snapshot` value. It holds:

- the startup project and its active target;
- the build and run configurations;
- the registered action IDs;
- the sessions, open files and existing files;
- whether a build is running;
- the startup project name seen at each of `loadSession`'s 15 polls;
- the version string and the `testTaskAccess` report.

Parsing a line is an oracle `parse: string -> Option<Value>`. `None` stands
for a parse error. JSON values follow Qt's rules:

- a missing key reads as `Undefined`;
- storing `Undefined` under a key removes the key.

The modules are:

- `Wrappers`: the `Option` type and first-match search;
- `Json`: JSON values;
- `Strings`: split, join, trimming and decimal rendering;
- `Host`: the host snapshot;
- `Protocol`: the response builders and error codes;
- `McpCommands`: the command executor;
- `IssuesManager`: the issues manager;
- `Dispatch`: what the server answers, as functions;
- `McpServer`: the server class, proved against `Dispatch`.

Some behaviour differs from what a reader might expect. In each case the
model does what the code does:

- **Missing id.** JSON-RPC 2.0 (section 5 of the JSON-RPC 2.0
  Specification) asks a response to carry the request's id, or `null`. A
  request without an `id` here gets a response without an `id` member. The
  source stores the request's Undefined value, and Qt drops it. Framing-level
  errors use the builders' default id of `null`.
- **Bad params.** Params of the wrong shape are answered with code -32601
  (`Invalid parameters for <name>`). Section 5.1 of the JSON-RPC 2.0
  Specification reserves -32602 for invalid params.
- **stopDebug.** The executor has a `stopDebug` command, but neither the
  routing nor `listMethods` includes it. A request for it gets
  `Unknown method`.
- **debug's result.** `debug` is long-running, but its result carries
  only `output` and `timeoutInfo`. It has no `success` member and no
  message naming the timeout, which the other long-running results carry.
- **Port order.** `start` tries the requested port first, then 3001 through
  3010 in increasing order.

## Model

| member | source | states |
|---|---|---|
| Wrappers.FirstWhere | mcpcommands.cpp:139-171 | the index returned is in range and its element matches; no earlier element matches; none is returned exactly when no element matches |
| Json.Get | mcpserver.cpp:159-164 | a present key gives its value, a missing key gives Undefined |
| Json.Put | mcpserver.cpp:384-386 | reading the key back gives the stored value; other keys are untouched; the key is present exactly when the value is not Undefined |
| Json.ToInt | mcpserver.cpp:362 | the result fits a 32-bit int; a number in range is returned as is |
| Json.StringArray | mcpserver.cpp:215-230 | an array of the same length whose i-th item is the i-th string |
| Strings.Split | mcpserver.cpp:107 | at least one part; no part contains the separator |
| Strings.JoinOfSplit | mcpserver.cpp:107 | joining the parts of a split with the separator gives the original text back |
| Strings.SplitOfJoin | mcpserver.cpp:107 | splitting the join of separator-free parts gives the parts back |
| Strings.NonEmpty | mcpserver.cpp:107 | no longer than the input; every part kept is non-empty and comes from the input; every non-empty part of the input is kept |
| Strings.NonBlank | mcpserver.cpp:109-112 | no longer than the input; every part kept has a non-space character and comes from the input; every such part of the input is kept |
| Strings.NonBlankStep | mcpserver.cpp:109-112 | one more part is kept exactly when it is not blank |
| Strings.NonBlankOfNonEmpty | mcpserver.cpp:107-112 | dropping empty parts first does not change the non-blank parts that remain |
| Strings.NonBlankKeepsAll | mcpserver.cpp:109-112 | parts that are all non-blank are all kept, in order |
| Strings.NatToString | issuesmanager.cpp:34 | at least one decimal digit, and no leading zero except for 0 itself |
| Strings.IntToString | mcpserver.cpp:187 | a non-negative number in decimal; a negative one with a leading minus |
| Strings.DecimalOfNatToString | issuesmanager.cpp:34 | the decimal rendering denotes the number it renders |
| Strings.NatToStringInjective | issuesmanager.cpp:88-90 | distinct numbers render differently, which lets a formatted task identify its line number |
| Host.ApplyEffect | mcpcommands.cpp:320-325 | only activating a build configuration changes what later commands see |
| Protocol.ErrorResponse | mcpserver.cpp:382-394 | jsonrpc "2.0", the id as given, an error object with the code and message, no result; the members are exactly jsonrpc, error and the id unless it is Undefined |
| Protocol.SuccessResponse | mcpserver.cpp:396-404 | jsonrpc "2.0", the id as given, the result, no error; the members are exactly jsonrpc, plus the id and the result where they are not Undefined |
| Protocol.ErrorResponseReadBack | mcpserver.cpp:382-394 | a client reads back the code and the message the error response was built with |
| Protocol.SuccessResponseHasNoCode | mcpserver.cpp:396-404 | a success response carries no error code |
| McpCommands.DefaultTimeouts | mcpcommands.cpp:42-46 | debug 60, build 1200, runProject 60, loadSession 30, cleanProject 300, and the table invariant holds |
| McpCommands.SetMetadata | mcpcommands.cpp:654-697 | rejections in source order: empty name, negative timeout, unsupported name; each gives its ERROR line and leaves the table unchanged; otherwise only that method's entry is replaced, and the report shows the method, the previous timeout and the new one |
| McpCommands.SetMetadataReports | mcpcommands.cpp:654-697 | the whole report: exactly the header and its ERROR line for an empty name or a negative timeout; the header, the ERROR line and the valid-methods line for an unsupported name; an accepted update's four lines followed by the fixed trailer |
| McpCommands.SetMetadataThenLookup | mcpcommands.cpp:680-681 | after an accepted update the method's lookup gives the new timeout, and every other method's lookup is unchanged |
| McpCommands.SetMetadataKeepsInvariant | mcpcommands.cpp:654-697 | every update, accepted or rejected, keeps the invariant: keys are the five configurable names and every value is non-negative |
| McpCommands.PreviousAlwaysSet | mcpcommands.cpp:680-684 | under the invariant the previous value is reported as a number of seconds, never as "not set" |
| McpCommands.Commands.constructor | mcpcommands.cpp:33-47 | the table is the default one, and the invariant holds |
| McpCommands.Commands.SetMethodMetadata | mcpcommands.cpp:654-697 | the report is the joined lines of SetMetadata and the new table is its table; the invariant is kept |
| McpCommands.Commands.GetMethodTimeout | mcpcommands.cpp:699-702 | the stored value, or -1 for a name not in the table; under the invariant it is non-negative exactly for the configurable names |
| McpCommands.Build | mcpcommands.cpp:49-80 | succeeds exactly when there is a startup project, an active target and an active build configuration; then the project's build is triggered, otherwise nothing is |
| McpCommands.CleanProject | mcpcommands.cpp:435-456 | the same precondition as build; a clean is triggered exactly on success |
| McpCommands.FirstAction | mcpcommands.cpp:406-432 | no trigger exactly when no ID resolves; otherwise the trigger of a resolvable ID with no resolvable ID before it |
| McpCommands.RunOutcome | mcpcommands.cpp:371-433 | succeeds exactly when there is an active run configuration and an action manager; then the first resolvable run action is triggered, or a RunControl is started when none resolves; nothing is triggered on failure |
| McpCommands.RunProject | mcpcommands.cpp:371-433 | the loop over the run action IDs with its break gives RunOutcome's result and trigger |
| McpCommands.AttemptTraceAfterMisses | mcpcommands.cpp:139-171 | IDs that fail to resolve at the front of the list each add their two progress lines before the rest of the trace |
| McpCommands.TryActions | mcpcommands.cpp:139-171 | the loop fires the first resolvable ID, or none, and logs exactly the lines for the IDs up to it |
| McpCommands.DebugOutcome | mcpcommands.cpp:82-183 | the report starts with its header; the debug action triggered is the first resolvable one when there is an active run configuration and an action manager, and none otherwise; nothing is triggered exactly when the report ends with an ERROR line |
| McpCommands.InvalidProjectTriggersNothing | mcpcommands.cpp:472-485 | without a startup project with an active target, build, cleanProject, runProject and debug all fail and trigger nothing |
| McpCommands.DebugReportsCause | mcpcommands.cpp:86-183 | the report's last line names why nothing fired: no valid project or no active run configuration (then it is the only line after the header), no action manager, or no debug action found; after a trigger the last line is "Debug command completed." |
| McpCommands.Debug | mcpcommands.cpp:82-183 | the step-by-step report and trigger equal DebugOutcome's |
| McpCommands.StopDebugOutcome | mcpcommands.cpp:185-232 | without an action manager, an ERROR report and no trigger; otherwise the first resolvable stop action is triggered, the report ends with the completion line, and it contains the WARNING line when none resolves |
| McpCommands.AttemptTracePlain | mcpcommands.cpp:139-171 | the progress lines logged while trying action IDs never begin like an ERROR or WARNING line |
| McpCommands.StopDebugWarnsIffNothingFired | mcpcommands.cpp:205-231 | with an action manager, the WARNING line appears exactly when no stop action fired, and no line is an ERROR line |
| McpCommands.StopDebug | mcpcommands.cpp:185-232 | the step-by-step report and trigger equal StopDebugOutcome's |
| McpCommands.OpenFile | mcpcommands.cpp:239-258 | succeeds exactly for a non-empty path of an existing file, and then opens an editor on it |
| McpCommands.ListBuildConfigs | mcpcommands.cpp:274-298 | empty without an active target; otherwise the display names of its configurations, in order |
| McpCommands.SwitchOutcome | mcpcommands.cpp:300-330 | succeeds exactly for a non-empty name that some configuration of the active target carries; then it activates the first such configuration; nothing is triggered on failure |
| McpCommands.SwitchToBuildConfig | mcpcommands.cpp:300-330 | the search loop gives SwitchOutcome's result and trigger |
| McpCommands.SwitchThenCurrentConfig | mcpcommands.cpp:320-325 | after a successful switch the current build configuration is the one asked for |
| McpCommands.Quit | mcpcommands.cpp:332-340 | always true, and requests the application to quit |
| McpCommands.GetCurrentBuildConfig | mcpcommands.cpp:351-369 | the active configuration's display name, or the empty string when there is none |
| McpCommands.SaveSession | mcpcommands.cpp:557-569 | the session manager's answer, after the save is requested |
| McpCommands.LoadOutcome | mcpcommands.cpp:501-540 | an empty or unknown name fails before the load is requested; otherwise the load is requested and the polls stop at the first with a non-empty startup project name; the result is true exactly when such a poll occurs within 15, and 15 polls are made otherwise |
| McpCommands.LoadSession | mcpcommands.cpp:501-540 | the 15-step polling loop gives LoadOutcome's result, trigger and poll count |
| McpCommands.ProjectWarning | mcpcommands.cpp:587-629 | the checks in order, each with its own text: no startup project, no build targets, no active target, no build configurations, no active build configuration; no warning exactly when all five pass |
| McpCommands.ProjectWarningIsFirstFailure | mcpcommands.cpp:587-629 | the warning is that of the first failing check in the list of the five checks, and there is none when no check fails |
| McpCommands.NoWarningThenBuildable | mcpcommands.cpp:587-629 | when listIssues finds no project problem, build and cleanProject succeed |
| McpCommands.IssueLines | mcpcommands.cpp:571-652 | one to three lines; the first is the build-in-progress line exactly while building; a failed check gives its warning after the optional progress line; when every check passes, the optional progress line and the missing build directory warning, or the placeholder lines when there are neither |
| McpCommands.WarningIsLast | mcpcommands.cpp:571-652 | apart from the placeholder, every line but the last is the progress line, and a warning is always the last line |
| McpCommands.ListIssues | mcpcommands.cpp:571-652 | the step-by-step list equals IssueLines |
| IssuesManager.IssueCount | issuesmanager.cpp:55-66 | -1 exactly when not accessible; otherwise the error count when tasks are available, else 0 |
| IssuesManager.CurrentIssues | issuesmanager.cpp:21-48 | one ERROR line when not accessible; otherwise three lines: a status line (the error count, no errors, or no tasks) and the two fixed INFO lines |
| IssuesManager.ReportCarriesCount | issuesmanager.cpp:21-66 | the count is -1 exactly when the report is one line, and a positive count can be read back from the report's first line |
| IssuesManager.FormatTask | issuesmanager.cpp:81-95 | always begins with type:description; exactly that without a path; with a path, type:description, " [path", ":line" when the line number is positive, and "]" |
| IssuesManager.FormatTaskKeepsLine | issuesmanager.cpp:85-92 | with a path, two positive line numbers give the same text only when they are equal |
| IssuesManager.FormatTaskWithoutPath | issuesmanager.h:59-60 | without a path the line number is ignored, so the two-argument call gives the same text |
| IssuesManager.FormatTaskNonPositiveLine | issuesmanager.cpp:86-92 | a line number that is not positive is left out |
| IssuesManager.FormatTaskLine | issuesmanager.cpp:86-92 | a positive line number is inserted as ":line" before the closing bracket, and can be read back |
| IssuesManager.Issues.constructor | issuesmanager.cpp:15-19 | the flag starts false and ends true exactly when the build manager exists |
| IssuesManager.Issues.InitializeAccess | issuesmanager.cpp:68-79 | returns whether the build manager exists, sets the flag then, and never clears it |
| IssuesManager.Issues.GetIssueCount | issuesmanager.h:38-42 | equals IssueCount on the flag; -1 exactly when not accessible |
| IssuesManager.Issues.GetCurrentIssues | issuesmanager.cpp:21-48 | the appended list equals CurrentIssues on the flag |
| Dispatch.Name | mcpserver.cpp:181-370 | every method name is non-empty |
| Dispatch.Lookup | mcpserver.cpp:181-373 | a routed name reaches the method with that name; an unrouted name is not among listMethods' names |
| Dispatch.NameListed | mcpserver.cpp:313-336 | each method's name sits at its position in listMethods' answer |
| Dispatch.LookupOfName | mcpserver.cpp:181-370 | every method is routed under its own name |
| Dispatch.RoutedNamesAreListed | mcpserver.cpp:313-336 | the routed names are exactly the names listMethods returns |
| Dispatch.StopDebugNotRouted | mcpserver.cpp:371-373 | stopDebug is neither routed nor listed |
| Dispatch.LongRunning | mcpserver.cpp:184-189 | the result has exactly the members success, message and timeoutInfo: the success flag, a message announcing the table's timeout for the method, and the advice to call getMethodMetadata |
| Dispatch.LongRunningResult | mcpserver.cpp:181-190 | build, runProject, cleanProject and loadSession answer with that result, whose success flag is the executor's answer for the command |
| Dispatch.Durations | mcpserver.cpp:342-349 | exactly the listed names whose timeout is non-negative, each mapped to its timeout |
| Dispatch.DurationsListEveryMethod | mcpserver.cpp:342-349 | under the table invariant the durations list every configurable method with its timeout |
| Dispatch.Query | mcpserver.cpp:199-311 | a query method always answers with a defined value |
| Dispatch.Meta | mcpserver.cpp:312-366 | the protocol methods always answer with a defined value and fire nothing; only setMethodMetadata may change the table |
| Dispatch.Command | mcpserver.cpp:181-307 | a host command always answers with a defined value and never changes the table |
| Dispatch.Invoke | mcpserver.cpp:181-370 | a method is rejected exactly when it needs a params object and gets something else, with "Invalid parameters for" its name; otherwise it answers with a defined value, and only setMethodMetadata changes the table |
| Dispatch.Routed | mcpserver.cpp:371-373 | a rejection always carries a message |
| Dispatch.Reply | mcpserver.cpp:156-380 | every response carries jsonrpc "2.0" and the request's id, and exactly one of error and result |
| Dispatch.VersionCheckedFirst | mcpserver.cpp:164-168 | a wrong jsonrpc version is answered with -32600 whatever the method, and changes nothing |
| Dispatch.MethodRequired | mcpserver.cpp:170-173 | with the right version, a missing, non-string or empty method is answered with -32600, and changes nothing |
| Dispatch.UnknownMethodRejected | mcpserver.cpp:371-376 | an unrouted name is answered with -32601 and "Unknown method: name", and changes nothing |
| Dispatch.ReplyOfMethod | mcpserver.cpp:181-379 | a request naming a routed method is answered by that method's branch: its rejection with -32601 or its result |
| Dispatch.BadParamsRejected | mcpserver.cpp:206-208 | a non-object params for openFile, switchToBuildConfig, loadSession or setMethodMetadata is answered with -32601 naming the method; the table is unchanged and no trigger fires |
| Dispatch.SetMetadataBranch | mcpserver.cpp:357-366 | the setMethodMetadata branch installs the executor's updated table |
| Dispatch.SetMetadataOutcome | mcpserver.cpp:357-366 | the setMethodMetadata branch answers with the executor's report and installs its table |
| Dispatch.MetadataOutcome | mcpserver.cpp:338-356 | getMethodMetadata answers with the durations of the current table |
| Dispatch.RoutedTable | mcpserver.cpp:181-373 | routing the name setMethodMetadata with a params object installs exactly the executor's update; routing any other name or params leaves the table unchanged |
| Dispatch.SetMetadataRequestUpdates | mcpserver.cpp:156-366 | a well-formed setMethodMetadata request with a params object is answered with the executor's joined report and the request's id, installs exactly the executor's table and fires nothing |
| Dispatch.TableChangesOnlyBySetMetadata | mcpserver.cpp:156-380 | a setMethodMetadata request with version "2.0" and a params object installs exactly the executor's update; every other request leaves the table unchanged, including a setMethodMetadata request with a wrong version |
| Dispatch.ReplyKeepsInvariant | mcpserver.cpp:156-380 | every request keeps the table invariant |
| Dispatch.MissingTimeoutIsZero | mcpserver.cpp:362 | a missing timeoutSeconds is passed to the executor as 0 |
| Dispatch.CommandEffect | mcpserver.cpp:181-307 | each host command fires exactly the trigger of its executor function: Build, DebugOutcome, OpenFile, SwitchOutcome, Quit, RunOutcome, CleanProject, LoadOutcome, SaveSession |
| Dispatch.CommandResult | mcpserver.cpp:191-307 | debug answers with its joined report as output and the timeout advice; openFile, switchToBuildConfig, quit and saveSession answer with the executor's success flag |
| Dispatch.QueryValue | mcpserver.cpp:199-370 | each query answers with the executor's value: getVersion with exactly version, plugin and note, the version being the host's; the list queries (listIssues included) with string arrays of the executor's lists; the name queries with strings |
| Dispatch.RoutedQueryAnswers | mcpserver.cpp:156-380 | a well-formed request for a query gets a success response with the query's value and the request's id; the table is kept and nothing fires |
| Dispatch.ListMethodsAnswers | mcpserver.cpp:312-337 | a well-formed listMethods request gets the listed names as a string array; the table is kept and nothing fires |
| Dispatch.RoutedRequestRunsItsCommand | mcpserver.cpp:156-380 | a well-formed request for a host command gets a success response with the command's result, keeps the table and fires the command's trigger |
| Dispatch.InvalidProjectRequestFiresNothing | mcpcommands.cpp:472-485 | without a startup project with an active target, a build, cleanProject, runProject or debug request fires nothing |
| Dispatch.HintMatchesMetadata | mcpserver.cpp:184-189 | the timeout a long-running command announces is the one getMethodMetadata lists for it |
| Dispatch.ListedDuration | mcpserver.cpp:342-349 | getMethodMetadata lists each long-running command with the timeout the table holds for it |
| Dispatch.LongRunningConfigurable | mcpserver.cpp:343 | build, runProject, cleanProject and loadSession are among the configurable methods |
| Dispatch.ReplyLine | mcpserver.cpp:114-129 | a parse failure gives -32700 "Parse error", a non-object gives -32600 "Invalid Request", both with a null id; an object is processed as a request |
| Dispatch.Replies | mcpserver.cpp:109-130 | one response per line |
| Dispatch.RepliesSnoc | mcpserver.cpp:109-130 | one more line extends the run by that line's reply, against the table and host the earlier lines left |
| Dispatch.RepliesPrefix | mcpserver.cpp:109-130 | later lines never change the answers to earlier ones |
| Dispatch.ResponseAt | mcpserver.cpp:109-130 | the i-th response is the reply to the i-th line, in the state the lines before it left |
| Dispatch.ParseErrorIsLocal | mcpserver.cpp:117-121 | a line that does not parse is answered with a parse error with a null id, and every line is still answered |
| Dispatch.Frames | mcpserver.cpp:107-112 | every frame has a non-space character and no newline; every non-blank line of the chunk is a frame |
| Dispatch.FramesOfJoined | mcpserver.cpp:107-112 | requests written one per line are framed back as written |
| Dispatch.FramesOfJoinedNewline | mcpserver.cpp:107-112 | a final newline after the last request adds no frame |
| McpServer.FirstFree | mcpserver.cpp:34-40 | the first port of the range that no other process holds, with every earlier port held; none exactly when all are held |
| McpServer.ChosenPort | mcpserver.cpp:25-49 | a chosen port is free and the server was not listening; a port other than the requested one is used only if the requested one is held, and it is the lowest free port of 3001 through 3010; no port exactly when already listening, or when the requested port and all of 3001 through 3010 are held |
| McpServer.FirstFreeAt | mcpserver.cpp:34-40 | a free port with every earlier port of the range held is the one the fallback loop picks |
| McpServer.Socket.Disconnect | mcpserver.cpp:55 | the client is no longer connected and nothing more is written |
| McpServer.Socket.Write | mcpserver.cpp:152 | the response is appended to what the client received |
| McpServer.Without | mcpserver.cpp:137 | no longer than the registry; the client no longer occurs; every other client keeps its multiplicity |
| McpServer.WithoutMembers | mcpserver.cpp:137 | a client remains exactly when it was registered and is not the one removed |
| McpServer.WithoutOne | mcpserver.cpp:137 | a one-client registry loses that client exactly when it is the one removed |
| McpServer.WithoutSnoc | mcpserver.cpp:137 | removing from a registry with one more client at the end removes from the rest and keeps that client unless it is the one removed |
| McpServer.WithoutAppend | mcpserver.cpp:137 | removing from two registries joined is removing from each and joining the results, so the other clients keep their order |
| McpServer.Server.constructor | mcpserver.cpp:9-17 | not listening, port 3001, no clients, and the executor's default table |
| McpServer.Server.Listen | mcpserver.cpp:30 | binding succeeds exactly when not yet listening and the port is free |
| McpServer.Server.Start | mcpserver.cpp:25-49 | succeeds exactly when ChosenPort gives a port; the port is then that one, and stays at the requested one on failure; the clients are unchanged |
| McpServer.Server.Stop | mcpserver.cpp:51-67 | every client is disconnected with nothing more written, the registry is empty and the server no longer listens |
| McpServer.Server.HandleNewConnection | mcpserver.cpp:79-94 | a pending connection is appended; no pending connection changes nothing |
| McpServer.Server.HandleClientDisconnected | mcpserver.cpp:133-141 | the registry becomes Without of the old one and the connection settings are unchanged; without a sender nothing changes |
| McpServer.Server.SendResponse | mcpserver.cpp:143-154 | a connected client receives the response; a disconnected one receives nothing |
| McpServer.Server.ExpectedDurations | mcpserver.cpp:342-349 | the loop over the five names builds Durations of the executor's table |
| McpServer.Server.Route | mcpserver.cpp:181-373 | the outcome is Routed on the table before the call; the executor's table afterwards is the outcome's table |
| McpServer.Server.ProcessRequest | mcpserver.cpp:156-380 | the table and trigger are Reply's; a connected client receives exactly Reply's response |
| McpServer.Server.HandleLine | mcpserver.cpp:114-129 | the table and host are ReplyLine's; a connected client receives exactly ReplyLine's response |
| McpServer.Server.AnswerNext | mcpserver.cpp:109-130 | after one more non-blank line the state is Replies of the lines so far plus that line |
| McpServer.Server.AnswerAll | mcpserver.cpp:109-130 | the loop over the non-empty parts skips the blank ones and leaves the state Replies gives over the rest, with one response per answered line delivered to a connected client |
| McpServer.Server.HandleClientData | mcpserver.cpp:96-131 | for a client, the table and host are those Replies leaves over the chunk's frames, and a connected client receives exactly one response per frame, in order; without a client nothing changes |

Some members are getters or plain definitions with no contract of their
own. They are outside the table, and the rows above that use them state
their properties:

- the server's `isRunning` and `getPort`: `McpServer.Server.IsRunning` and
  `McpServer.Server.GetPort`;
- `IssuesManager.Issues.IsAccessible`;
- the executor's pass-through queries: `ListProjects`, `GetCurrentProject`,
  `ListOpenFiles`, `ListSessions`, `GetCurrentSession`, `GetVersion`,
  `TestTaskAccess`;
- the predicate `HasValidProject`, stated by
  `McpCommands.InvalidProjectTriggersNothing`;
- the table read `McpCommands.Lookup` (QMap's value-or-default), stated by
  `Commands.GetMethodTimeout` and `SetMetadataThenLookup`;
- `Dispatch.MetadataResult`, stated by `Dispatch.MetadataOutcome`;
- the string helpers `Strings.Join`, `JoinLines`, `IsSpace`, `IsBlank` and
  `Json.ToStr`, stated by the split and join lemmas.

## Left out

- **Sockets and bytes.** The sockets and the bytes on the wire are not
  modelled: UTF-8 decoding, compact JSON serialisation, `flush`. A client is
  its connection flag and the list of response objects written to it.
- **JSON parsing.** Parsing is an oracle argument of the framing functions.
- **Numbers.** JSON numbers are integers; fractional numbers are not
  modelled.
- **Threads and signals.** `QThread::msleep` is not modelled, and neither
  are the queued signal hand-off of `handleSessionLoadRequest` and the
  unread `m_sessionLoadResult`. Each of the 15 polls is an element of the
  host snapshot.
- **Object lifetime.** `waitForDisconnected` and `deleteLater` in `stop`
  and `handleClientDisconnected` are not modelled, nor is the destructor.
  The signal connections made on accept, the `sender()` lookup and all
  `qDebug` logging are left out too.
- **Host IDE services.** The project, session, action, build and editor
  managers, and `QApplication::quit`, are reduced to the host snapshot. A
  command's trigger is returned as an `Effect`. Only activating a build
  configuration is applied to the snapshot between the requests of one
  chunk. The model does not apply the other triggers, so a later request
  in the same chunk does not observe them: for example, it does not see the
  editor that `openFile` opened or the build that `build` started.
- **Port 0.** Port 0, which asks the OS for any port, is treated as an
  ordinary port number.
- McpCommands.DebugOutcome: the contract does not state the report's
  middle lines: the project and run configuration lines, the attempt trace
  and the success text. It states the header, the trigger and whether the
  last line is an ERROR line. `DebugReportsCause` states the last line of
  each branch.
- **List-copying loops.** The loops that copy a list element by element
  are modelled as values, not as loops: `listProjects`
  (mcpcommands.cpp:265), `listBuildConfigs` (mcpcommands.cpp:291) and
  `listOpenFiles` (mcpcommands.cpp:463) in the executor, and the loops that
  build result arrays in the server (mcpserver.cpp:218, 226, 273, 281). Each
  such loop is modelled as a function of the snapshot or as
  `Json.StringArray`.
- **checkProcessRunning.** The `checkProcessRunning` lambda in `debug` is
  never invoked and is not modelled.
- **Dead project checks.** `build`, `runProject` and `debug` repeat their
  project and target checks after `hasValidProject`. Those repeats cannot
  fail and are modelled once.
- **testTaskAccess.** `testTaskAccess` is defined in no source file. Its
  report is a host input.
- **getVersion.** Its value comes from `version.h`, which is not part of
  this model; it is a host input.
- **Server calls functions directly.** For `build`, `runProject`, `debug`,
  `switchToBuildConfig`, `loadSession` and `listIssues`, the server's
  branches call the executor's functions, not its loop methods. Each such
  method is proved equal to its function.
- **Partial lines.** There is no buffering across chunks, because the
  source does none: each chunk is framed on its own.
