/**
 * What the server answers, as functions: the reply to one request object
 * (processRequest), the reply to one received line (parse and shape
 * checks), and the replies to a whole received chunk, threading the
 * timeout table and the host snapshot from one request to the next.
 * The server class in McpServer is proved against these.
 */
module Dispatch {
  import opened Wrappers
  import opened Json
  import opened Strings
  import opened Host
  import opened Protocol
  import McpCommands

  /** The method names the server routes. */
  datatype Method =
    | Build | Debug | GetVersion | OpenFile | ListProjects | ListBuildConfigs
    | SwitchToBuildConfig | Quit | GetCurrentProject | GetCurrentBuildConfig
    | RunProject | CleanProject | ListOpenFiles | ListSessions | GetCurrentSession
    | LoadSession | SaveSession | ListIssues | ListMethods | GetMethodMetadata
    | SetMethodMetadata | TestTaskAccess

  function Name(m: Method): (r: string)
    ensures r != ""
  {
    match m
    case Build => "build"
    case Debug => "debug"
    case GetVersion => "getVersion"
    case OpenFile => "openFile"
    case ListProjects => "listProjects"
    case ListBuildConfigs => "listBuildConfigs"
    case SwitchToBuildConfig => "switchToBuildConfig"
    case Quit => "quit"
    case GetCurrentProject => "getCurrentProject"
    case GetCurrentBuildConfig => "getCurrentBuildConfig"
    case RunProject => "runProject"
    case CleanProject => "cleanProject"
    case ListOpenFiles => "listOpenFiles"
    case ListSessions => "listSessions"
    case GetCurrentSession => "getCurrentSession"
    case LoadSession => "loadSession"
    case SaveSession => "saveSession"
    case ListIssues => "listIssues"
    case ListMethods => "listMethods"
    case GetMethodMetadata => "getMethodMetadata"
    case SetMethodMetadata => "setMethodMetadata"
    case TestTaskAccess => "testTaskAccess"
  }

  /** The names listMethods returns, in its order. */
  const ListMethodsNames: seq<string> := [
    "build", "debug", "getVersion", "openFile", "listProjects", "listBuildConfigs",
    "switchToBuildConfig", "quit", "getCurrentProject", "getCurrentBuildConfig",
    "runProject", "cleanProject", "listOpenFiles", "listSessions", "getCurrentSession",
    "loadSession", "saveSession", "listIssues", "listMethods", "getMethodMetadata",
    "setMethodMetadata", "testTaskAccess"]

  /** The routing chain of processRequest, in the order it compares names. */
  function Lookup(name: string): (r: Option<Method>)
    ensures r.Some? ==> Name(r.value) == name
    ensures r.None? ==> name !in ListMethodsNames
  {
    if name == "build" then Some(Build)
    else if name == "debug" then Some(Debug)
    else if name == "getVersion" then Some(GetVersion)
    else if name == "openFile" then Some(OpenFile)
    else if name == "listProjects" then Some(ListProjects)
    else if name == "listBuildConfigs" then Some(ListBuildConfigs)
    else if name == "switchToBuildConfig" then Some(SwitchToBuildConfig)
    else if name == "quit" then Some(Quit)
    else if name == "getCurrentProject" then Some(GetCurrentProject)
    else if name == "getCurrentBuildConfig" then Some(GetCurrentBuildConfig)
    else if name == "runProject" then Some(RunProject)
    else if name == "cleanProject" then Some(CleanProject)
    else if name == "listOpenFiles" then Some(ListOpenFiles)
    else if name == "listSessions" then Some(ListSessions)
    else if name == "getCurrentSession" then Some(GetCurrentSession)
    else if name == "loadSession" then Some(LoadSession)
    else if name == "saveSession" then Some(SaveSession)
    else if name == "listIssues" then Some(ListIssues)
    else if name == "listMethods" then Some(ListMethods)
    else if name == "getMethodMetadata" then Some(GetMethodMetadata)
    else if name == "setMethodMetadata" then Some(SetMethodMetadata)
    else if name == "testTaskAccess" then Some(TestTaskAccess)
    else None
  }

  /** The position of a method's name in listMethods' answer. */
  function Index(m: Method): nat
  {
    match m
    case Build => 0
    case Debug => 1
    case GetVersion => 2
    case OpenFile => 3
    case ListProjects => 4
    case ListBuildConfigs => 5
    case SwitchToBuildConfig => 6
    case Quit => 7
    case GetCurrentProject => 8
    case GetCurrentBuildConfig => 9
    case RunProject => 10
    case CleanProject => 11
    case ListOpenFiles => 12
    case ListSessions => 13
    case GetCurrentSession => 14
    case LoadSession => 15
    case SaveSession => 16
    case ListIssues => 17
    case ListMethods => 18
    case GetMethodMetadata => 19
    case SetMethodMetadata => 20
    case TestTaskAccess => 21
  }

  /** Every method's name is advertised by listMethods. */
  lemma NameListed(m: Method)
    ensures Index(m) < |ListMethodsNames| && ListMethodsNames[Index(m)] == Name(m)
  {
    match m
    case Build =>
    case Debug =>
    case GetVersion =>
    case OpenFile =>
    case ListProjects =>
    case ListBuildConfigs =>
    case SwitchToBuildConfig =>
    case Quit =>
    case GetCurrentProject =>
    case GetCurrentBuildConfig =>
    case RunProject =>
    case CleanProject =>
    case ListOpenFiles =>
    case ListSessions =>
    case GetCurrentSession =>
    case LoadSession =>
    case SaveSession =>
    case ListIssues =>
    case ListMethods =>
    case GetMethodMetadata =>
    case SetMethodMetadata =>
    case TestTaskAccess =>
  }

  /** The first eight names of the routing chain reach their own method. */
  lemma LookupFirstGroup()
    ensures Lookup("build") == Some(Build)
    ensures Lookup("debug") == Some(Debug)
    ensures Lookup("getVersion") == Some(GetVersion)
    ensures Lookup("openFile") == Some(OpenFile)
    ensures Lookup("listProjects") == Some(ListProjects)
    ensures Lookup("listBuildConfigs") == Some(ListBuildConfigs)
    ensures Lookup("switchToBuildConfig") == Some(SwitchToBuildConfig)
    ensures Lookup("quit") == Some(Quit)
  {
  }

  /** The middle seven names of the routing chain reach their own method. */
  lemma LookupMiddleGroup()
    ensures Lookup("getCurrentProject") == Some(GetCurrentProject)
    ensures Lookup("getCurrentBuildConfig") == Some(GetCurrentBuildConfig)
    ensures Lookup("runProject") == Some(RunProject)
    ensures Lookup("cleanProject") == Some(CleanProject)
    ensures Lookup("listOpenFiles") == Some(ListOpenFiles)
    ensures Lookup("listSessions") == Some(ListSessions)
    ensures Lookup("getCurrentSession") == Some(GetCurrentSession)
  {
  }

  /** The last seven names of the routing chain reach their own method. */
  lemma LookupLastGroup()
    ensures Lookup("loadSession") == Some(LoadSession)
    ensures Lookup("saveSession") == Some(SaveSession)
    ensures Lookup("listIssues") == Some(ListIssues)
    ensures Lookup("listMethods") == Some(ListMethods)
    ensures Lookup("getMethodMetadata") == Some(GetMethodMetadata)
    ensures Lookup("setMethodMetadata") == Some(SetMethodMetadata)
    ensures Lookup("testTaskAccess") == Some(TestTaskAccess)
  {
  }

  /** Every method is routed under its own name. */
  lemma LookupOfName(m: Method)
    ensures Lookup(Name(m)) == Some(m)
  {
    LookupFirstGroup();
    LookupMiddleGroup();
    LookupLastGroup();
    match m
    case Build =>
    case Debug =>
    case GetVersion =>
    case OpenFile =>
    case ListProjects =>
    case ListBuildConfigs =>
    case SwitchToBuildConfig =>
    case Quit =>
    case GetCurrentProject =>
    case GetCurrentBuildConfig =>
    case RunProject =>
    case CleanProject =>
    case ListOpenFiles =>
    case ListSessions =>
    case GetCurrentSession =>
    case LoadSession =>
    case SaveSession =>
    case ListIssues =>
    case ListMethods =>
    case GetMethodMetadata =>
    case SetMethodMetadata =>
    case TestTaskAccess =>
  }

  /** The names the server routes are exactly the names listMethods advertises. */
  lemma RoutedNamesAreListed(name: string)
    ensures Lookup(name).Some? <==> name in ListMethodsNames
  {
    if Lookup(name).Some? { NameListed(Lookup(name).value); }
  }

  /** The executor's stopDebug command is not reachable over the protocol. */
  lemma StopDebugNotRouted()
    ensures Lookup("stopDebug") == None
    ensures "stopDebug" !in ListMethodsNames
  {
  }

  /** The four methods that read their arguments from a params object. */
  predicate NeedsParams(m: Method)
  {
    m == OpenFile || m == SwitchToBuildConfig || m == LoadSession || m == SetMethodMetadata
  }

  const TimeoutInfo: string := "Call getMethodMetadata() for expected operation durations"
  const PluginName: string := "Qt MCP Plugin"
  const VersionNote: string := "Some operations may take several minutes. Call getMethodMetadata() for timeout information."
  const MetadataDescription: string := "Provides metadata about MCP methods, including expected operation durations in seconds"
  const MetadataNote: string := "Use setMethodMetadata() to customize timeout values"

  function BadParams(m: Method): string
  {
    "Invalid parameters for " + Name(m)
  }

  function UnknownMethod(name: string): string
  {
    "Unknown method: " + name
  }

  /** The message of a long-running command, carrying the table's timeout in decimal. */
  function TimeoutHint(started: string, timeout: int): string
  {
    started + " This operation may take up to " + IntToString(timeout) + " seconds."
  }

  /** The opening sentence of a long-running command's message. */
  function Started(m: Method): string
  {
    match m
    case Build => "Build started."
    case RunProject => "Project run started."
    case CleanProject => "Project clean started."
    case _ => "Session loading started."
  }

  /** build, runProject, cleanProject and loadSession: commands that start work and announce a timeout. */
  predicate IsLongRunning(m: Method)
  {
    m == Build || m == RunProject || m == CleanProject || m == LoadSession
  }

  /** A result whose message announces the table's timeout for method m. */
  predicate Announces(result: Value, m: Method, t: map<string, int>)
  {
    && result.Object? && "message" in result.fields
    && result.fields["message"] == Str(TimeoutHint(Started(m), McpCommands.Lookup(t, Name(m))))
  }

  /** The result of a long-running command: its success, and a message announcing the table's timeout for it. */
  function LongRunning(ok: bool, m: Method, t: map<string, int>): (v: Value)
    ensures v.Object? && v.fields.Keys == {"success", "message", "timeoutInfo"}
    ensures v.fields["success"] == Bool(ok) && v.fields["timeoutInfo"] == Str(TimeoutInfo)
    ensures Announces(v, m, t)
  {
    Value.Object(map["success" := Bool(ok), "message" := Str(TimeoutHint(Started(m), McpCommands.Lookup(t, Name(m)))),
                     "timeoutInfo" := Str(TimeoutInfo)])
  }

  /** expectedDurations: each listed method whose timeout is not negative, with that timeout. */
  function Durations(t: map<string, int>, names: seq<string>): (r: map<string, Value>)
    ensures forall k :: k in r <==> k in names && McpCommands.Lookup(t, k) >= 0
    ensures forall k :: k in r ==> r[k] == Number(McpCommands.Lookup(t, k))
  {
    if names == [] then map[]
    else
      var name := names[|names| - 1];
      var timeout := McpCommands.Lookup(t, name);
      if timeout >= 0 then Durations(t, names[..|names| - 1])[name := Number(timeout)]
      else Durations(t, names[..|names| - 1])
  }

  /** Under the table invariant the durations list every configurable method with its timeout. */
  lemma DurationsListEveryMethod(t: map<string, int>)
    requires McpCommands.TableInvariant(t)
    ensures Durations(t, McpCommands.TimeoutMethods).Keys == t.Keys
    ensures forall k :: k in t ==> Durations(t, McpCommands.TimeoutMethods)[k] == Number(t[k])
  {
  }

  function MetadataResult(t: map<string, int>): Value
  {
    Value.Object(map["expectedDurations" := Value.Object(Durations(t, McpCommands.TimeoutMethods)),
                     "description" := Str(MetadataDescription), "note" := Str(MetadataNote)])
  }

  /** A routed method either rejects its params or produces a result, a new table and a trigger. */
  datatype Outcome =
    | Invalid(message: string)
    | Done(result: Value, table: map<string, int>, effect: Effect)

  /** The routed methods that only read the host and answer with a value. */
  predicate IsQuery(m: Method)
  {
    || m == GetVersion || m == ListProjects || m == ListBuildConfigs || m == GetCurrentProject
    || m == GetCurrentBuildConfig || m == ListOpenFiles || m == ListSessions || m == GetCurrentSession
    || m == ListIssues || m == TestTaskAccess
  }

  /** The routed methods about the protocol itself: the method list and the timeout table. */
  predicate IsMeta(m: Method)
  {
    m == ListMethods || m == GetMethodMetadata || m == SetMethodMetadata
  }

  /** The result of a query method. */
  function Query(m: Method, h: Snapshot): (v: Value)
    requires IsQuery(m)
    ensures v != Undefined
  {
    match m
    case GetVersion =>
      Value.Object(map["version" := Str(McpCommands.GetVersion(h)), "plugin" := Str(PluginName),
                       "note" := Str(VersionNote)])
    case ListProjects => StringArray(McpCommands.ListProjects(h))
    case ListBuildConfigs => StringArray(McpCommands.ListBuildConfigs(h))
    case GetCurrentProject => Str(McpCommands.GetCurrentProject(h))
    case GetCurrentBuildConfig => Str(McpCommands.GetCurrentBuildConfig(h))
    case ListOpenFiles => StringArray(McpCommands.ListOpenFiles(h))
    case ListSessions => StringArray(McpCommands.ListSessions(h))
    case GetCurrentSession => Str(McpCommands.GetCurrentSession(h))
    case ListIssues => StringArray(McpCommands.IssueLines(h))
    case TestTaskAccess => StringArray(McpCommands.TestTaskAccess(h))
  }

  /** The result and new table of a protocol method; params is an object where one is needed. */
  function Meta(m: Method, t: map<string, int>, params: Value): (o: Outcome)
    requires IsMeta(m) && (m == SetMethodMetadata ==> params.Object?)
    ensures o.Done? && o.result != Undefined && o.effect == NoEffect
    ensures m != SetMethodMetadata ==> o.table == t
  {
    match m
    case ListMethods => Done(StringArray(ListMethodsNames), t, NoEffect)
    case GetMethodMetadata => Done(MetadataResult(t), t, NoEffect)
    case SetMethodMetadata =>
      var u := McpCommands.SetMetadata(t, ToStr(Get(params.fields, "method")),
                                       ToInt(Get(params.fields, "timeoutSeconds")));
      Done(Str(JoinLines(u.lines)), u.table, NoEffect)
  }

  /** The result and trigger of a command against the host; params is an object where one is needed. */
  function Command(m: Method, t: map<string, int>, h: Snapshot, params: Value): (o: Outcome)
    requires !IsQuery(m) && !IsMeta(m) && (NeedsParams(m) ==> params.Object?)
    ensures o.Done? && o.result != Undefined && o.table == t
  {
    match m
    case Build =>
      var r := McpCommands.Build(h);
      Done(LongRunning(r.ok, Build, t), t, r.effect)
    case Debug =>
      var r := McpCommands.DebugOutcome(h);
      Done(Value.Object(map["output" := Str(JoinLines(r.lines)), "timeoutInfo" := Str(TimeoutInfo)]), t, r.effect)
    case OpenFile =>
      var r := McpCommands.OpenFile(h, ToStr(Get(params.fields, "path")));
      Done(Bool(r.ok), t, r.effect)
    case SwitchToBuildConfig =>
      var r := McpCommands.SwitchOutcome(h, ToStr(Get(params.fields, "name")));
      Done(Bool(r.ok), t, r.effect)
    case Quit =>
      var r := McpCommands.Quit();
      Done(Bool(r.ok), t, r.effect)
    case RunProject =>
      var r := McpCommands.RunOutcome(h);
      Done(LongRunning(r.ok, RunProject, t), t, r.effect)
    case CleanProject =>
      var r := McpCommands.CleanProject(h);
      Done(LongRunning(r.ok, CleanProject, t), t, r.effect)
    case LoadSession =>
      var r := McpCommands.LoadOutcome(h, ToStr(Get(params.fields, "sessionName")));
      Done(LongRunning(r.ok, LoadSession, t), t, r.effect)
    case SaveSession =>
      var r := McpCommands.SaveSession(h);
      Done(Bool(r.ok), t, r.effect)
  }

  /** The branch of processRequest for one routed method. */
  function Invoke(m: Method, t: map<string, int>, h: Snapshot, params: Value): (o: Outcome)
    ensures o.Invalid? <==> NeedsParams(m) && !params.Object?
    ensures o.Invalid? ==> o.message == BadParams(m)
    ensures o.Done? ==> o.result != Undefined
    ensures o.Done? && m != SetMethodMetadata ==> o.table == t
  {
    if NeedsParams(m) && !params.Object? then Invalid(BadParams(m))
    else if IsQuery(m) then Done(Query(m, h), t, NoEffect)
    else if IsMeta(m) then Meta(m, t, params)
    else Command(m, t, h, params)
  }

  /** Routing by name: an unknown name is rejected with its own message. */
  function Routed(t: map<string, int>, h: Snapshot, name: string, params: Value): (o: Outcome)
    ensures o.Invalid? ==> o.message != ""
  {
    match Lookup(name)
    case None => Invalid(UnknownMethod(name))
    case Some(m) => Invoke(m, t, h, params)
  }

  /** What one request leads to: the response, the new table and the trigger fired. */
  datatype Step = Step(response: Object, table: map<string, int>, effect: Effect)

  const BadVersion: string := "Invalid Request: jsonrpc must be '2.0'"
  const MissingMethod: string := "Invalid Request: method is required"

  function MethodOf(req: Object): string
  {
    ToStr(Get(req, "method"))
  }

  /** processRequest. */
  function Reply(t: map<string, int>, h: Snapshot, req: Object): (s: Step)
    ensures Get(s.response, "jsonrpc") == Str("2.0")
    ensures Get(s.response, "id") == Get(req, "id")
    ensures ("error" in s.response) != ("result" in s.response)
  {
    var id := Get(req, "id");
    if ToStr(Get(req, "jsonrpc")) != "2.0" then Step(ErrorResponse(InvalidRequest, BadVersion, id), t, NoEffect)
    else if MethodOf(req) == "" then Step(ErrorResponse(InvalidRequest, MissingMethod, id), t, NoEffect)
    else match Routed(t, h, MethodOf(req), Get(req, "params"))
      case Invalid(message) => Step(ErrorResponse(MethodNotFound, message, id), t, NoEffect)
      case Done(result, table, effect) => Step(SuccessResponse(result, id), table, effect)
  }

  /** The version check comes first: whatever the method, a wrong version is an invalid request. */
  lemma VersionCheckedFirst(t: map<string, int>, h: Snapshot, req: Object)
    requires ToStr(Get(req, "jsonrpc")) != "2.0"
    ensures Reply(t, h, req) == Step(ErrorResponse(InvalidRequest, BadVersion, Get(req, "id")), t, NoEffect)
    ensures ErrorCodeOf(Reply(t, h, req).response) == Some(InvalidRequest)
  {
    ErrorResponseReadBack(InvalidRequest, BadVersion, Get(req, "id"));
  }

  /** With the right version, a missing, non-string or empty method is an invalid request. */
  lemma MethodRequired(t: map<string, int>, h: Snapshot, req: Object)
    requires ToStr(Get(req, "jsonrpc")) == "2.0"
    requires !Get(req, "method").Str? || Get(req, "method").s == ""
    ensures Reply(t, h, req) == Step(ErrorResponse(InvalidRequest, MissingMethod, Get(req, "id")), t, NoEffect)
  {
  }

  /** An unrouted name is answered with -32601 and its name, and changes nothing. */
  lemma UnknownMethodRejected(t: map<string, int>, h: Snapshot, req: Object)
    requires ToStr(Get(req, "jsonrpc")) == "2.0" && MethodOf(req) != ""
    requires MethodOf(req) !in ListMethodsNames
    ensures Reply(t, h, req) == Step(ErrorResponse(MethodNotFound, UnknownMethod(MethodOf(req)), Get(req, "id")), t, NoEffect)
  {
    RoutedNamesAreListed(MethodOf(req));
  }

  /** A request naming a routed method, with the right version, is answered by that method's branch. */
  lemma ReplyOfMethod(t: map<string, int>, h: Snapshot, req: Object, m: Method)
    requires ToStr(Get(req, "jsonrpc")) == "2.0" && MethodOf(req) == Name(m)
    ensures Reply(t, h, req) == match Invoke(m, t, h, Get(req, "params"))
      case Invalid(message) => Step(ErrorResponse(MethodNotFound, message, Get(req, "id")), t, NoEffect)
      case Done(result, table, effect) => Step(SuccessResponse(result, Get(req, "id")), table, effect)
  {
    LookupOfName(m);
  }

  /**
   * A method that needs a params object and gets something else is answered
   * with -32601 naming the method; its command is not run, so the table is
   * unchanged and no trigger fires.
   */
  lemma BadParamsRejected(t: map<string, int>, h: Snapshot, req: Object, m: Method)
    requires ToStr(Get(req, "jsonrpc")) == "2.0" && MethodOf(req) == Name(m)
    requires NeedsParams(m) && !Get(req, "params").Object?
    ensures Reply(t, h, req) == Step(ErrorResponse(MethodNotFound, BadParams(m), Get(req, "id")), t, NoEffect)
  {
    ReplyOfMethod(t, h, req, m);
  }

  /** A well-formed setMethodMetadata request: the right version, that method name and a params object. */
  predicate IsMetadataUpdate(req: Object)
  {
    ToStr(Get(req, "jsonrpc")) == "2.0" && MethodOf(req) == "setMethodMetadata" && Get(req, "params").Object?
  }

  /** The executor's update for the method and timeout a params object names. */
  function RequestedUpdate(t: map<string, int>, params: Value): McpCommands.MetadataUpdate
    requires params.Object?
  {
    McpCommands.SetMetadata(t, ToStr(Get(params.fields, "method")), ToInt(Get(params.fields, "timeoutSeconds")))
  }

  /**
   * The table after a request: the executor's update for a well-formed
   * setMethodMetadata request, and the table before it for every other.
   */
  predicate TableAfter(t: map<string, int>, req: Object, table: map<string, int>)
  {
    if IsMetadataUpdate(req) then table == RequestedUpdate(t, Get(req, "params")).table
    else table == t
  }

  /** The setMethodMetadata branch installs the executor's updated table. */
  lemma SetMetadataBranch(t: map<string, int>, h: Snapshot, params: Value)
    requires params.Object?
    ensures Invoke(SetMethodMetadata, t, h, params).Done?
    ensures Invoke(SetMethodMetadata, t, h, params).table
         == McpCommands.SetMetadata(t, ToStr(Get(params.fields, "method")),
                                    ToInt(Get(params.fields, "timeoutSeconds"))).table
  {
    SetMetadataOutcome(t, h, params);
  }

  /** The setMethodMetadata branch answers with the executor's report and installs its table. */
  lemma SetMetadataOutcome(t: map<string, int>, h: Snapshot, params: Value)
    requires params.Object?
    ensures var u := McpCommands.SetMetadata(t, ToStr(Get(params.fields, "method")),
                                             ToInt(Get(params.fields, "timeoutSeconds")));
            Invoke(SetMethodMetadata, t, h, params) == Done(Str(JoinLines(u.lines)), u.table, NoEffect)
  {
    InvokeMeta(SetMethodMetadata, t, h, params);
  }

  /** A protocol method with acceptable params is answered by its branch of Meta. */
  lemma InvokeMeta(m: Method, t: map<string, int>, h: Snapshot, params: Value)
    requires IsMeta(m) && (m == SetMethodMetadata ==> params.Object?)
    ensures Invoke(m, t, h, params) == Meta(m, t, params)
  {
  }

  /** The getMethodMetadata branch answers with the durations of the current table. */
  lemma MetadataOutcome(t: map<string, int>, h: Snapshot, params: Value)
    ensures Invoke(GetMethodMetadata, t, h, params) == Done(MetadataResult(t), t, NoEffect)
  {
  }

  /** Routing changes the table only through setMethodMetadata with a params object, to the executor's update. */
  lemma RoutedTable(t: map<string, int>, h: Snapshot, name: string, params: Value)
    ensures var o := Routed(t, h, name, params);
            o.Done? ==> o.table == if name == "setMethodMetadata" && params.Object? then RequestedUpdate(t, params).table else t
  {
    var r := Lookup(name);
    if r.Some? {
      RoutedToBranch(t, h, name, params, r.value);
      InvokeTable(r.value, t, h, params);
      if name == "setMethodMetadata" {
        LookupLastGroup();
      }
    }
  }

  /** A name the chain recognises is routed to its branch. */
  lemma RoutedToBranch(t: map<string, int>, h: Snapshot, name: string, params: Value, m: Method)
    requires Lookup(name) == Some(m)
    ensures Routed(t, h, name, params) == Invoke(m, t, h, params)
  {
  }

  /** A branch changes the table only for setMethodMetadata with a params object, to the executor's update. */
  lemma InvokeTable(m: Method, t: map<string, int>, h: Snapshot, params: Value)
    ensures var o := Invoke(m, t, h, params);
            o.Done? ==> o.table == if m == SetMethodMetadata && params.Object? then RequestedUpdate(t, params).table else t
  {
    if m == SetMethodMetadata && params.Object? {
      SetMetadataBranch(t, h, params);
    }
  }

  /**
   * A well-formed setMethodMetadata request is answered with the executor's
   * report, installs exactly its table and fires nothing.
   */
  lemma SetMetadataRequestUpdates(t: map<string, int>, h: Snapshot, req: Object)
    requires IsMetadataUpdate(req)
    ensures var u := RequestedUpdate(t, Get(req, "params"));
            Reply(t, h, req) == Step(SuccessResponse(Str(JoinLines(u.lines)), Get(req, "id")), u.table, NoEffect)
  {
    ReplyOfMethod(t, h, req, SetMethodMetadata);
    SetMetadataOutcome(t, h, Get(req, "params"));
  }

  /**
   * A well-formed setMethodMetadata request installs exactly the executor's
   * update; every other request, including a setMethodMetadata request with
   * a wrong version, leaves the table as it was.
   */
  lemma TableChangesOnlyBySetMetadata(t: map<string, int>, h: Snapshot, req: Object)
    ensures TableAfter(t, req, Reply(t, h, req).table)
  {
    if IsMetadataUpdate(req) {
      SetMetadataRequestUpdates(t, h, req);
    } else if ToStr(Get(req, "jsonrpc")) == "2.0" && MethodOf(req) != "" {
      RoutedTable(t, h, MethodOf(req), Get(req, "params"));
    }
  }

  /** Every request keeps the table invariant. */
  lemma ReplyKeepsInvariant(t: map<string, int>, h: Snapshot, req: Object)
    requires McpCommands.TableInvariant(t)
    ensures McpCommands.TableInvariant(Reply(t, h, req).table)
  {
    TableChangesOnlyBySetMetadata(t, h, req);
    var params := Get(req, "params");
    if Reply(t, h, req).table != t {
      McpCommands.SetMetadataKeepsInvariant(t, ToStr(Get(params.fields, "method")), ToInt(Get(params.fields, "timeoutSeconds")));
    }
  }

  /** A missing timeoutSeconds is read as 0. */
  lemma MissingTimeoutIsZero(t: map<string, int>, h: Snapshot, params: Value)
    requires params.Object? && "timeoutSeconds" !in params.fields
    ensures var u := McpCommands.SetMetadata(t, ToStr(Get(params.fields, "method")), 0);
            Invoke(SetMethodMetadata, t, h, params) == Done(Str(JoinLines(u.lines)), u.table, NoEffect)
  {
    assert ToInt(Get(params.fields, "timeoutSeconds")) == 0;
  }

  /**
   * The timeout a long-running command's message announces is the one
   * getMethodMetadata lists for that method, read from the same table.
   */
  lemma HintMatchesMetadata(t: map<string, int>, h: Snapshot, params: Value, m: Method)
    requires McpCommands.TableInvariant(t)
    requires IsLongRunning(m) && (m == LoadSession ==> params.Object?)
    ensures Announces(Command(m, t, h, params).result, m, t)
    ensures var durations := Durations(t, McpCommands.TimeoutMethods);
            Name(m) in durations && durations[Name(m)] == Number(McpCommands.Lookup(t, Name(m)))
  {
    ListedDuration(t, m);
  }

  /** Whether the command behind a long-running method reports success. */
  function Succeeded(m: Method, h: Snapshot, params: Value): bool
    requires IsLongRunning(m) && (m == LoadSession ==> params.Object?)
  {
    if m == Build then McpCommands.Build(h).ok
    else if m == RunProject then McpCommands.RunOutcome(h).ok
    else if m == CleanProject then McpCommands.CleanProject(h).ok
    else McpCommands.LoadOutcome(h, ToStr(Get(params.fields, "sessionName"))).ok
  }

  /**
   * A long-running command answers with exactly success (its command's
   * outcome), the timeout message and the advice to call getMethodMetadata.
   */
  lemma LongRunningResult(t: map<string, int>, h: Snapshot, params: Value, m: Method)
    requires IsLongRunning(m) && (m == LoadSession ==> params.Object?)
    ensures var v := Command(m, t, h, params).result;
            && v == LongRunning(Succeeded(m, h, params), m, t)
            && v.Object? && v.fields.Keys == {"success", "message", "timeoutInfo"}
            && v.fields["success"] == Bool(Succeeded(m, h, params))
            && v.fields["timeoutInfo"] == Str(TimeoutInfo)
  {
  }

  /** Each host command fires exactly the trigger the executor's function for it gives. */
  lemma CommandEffect(m: Method, t: map<string, int>, h: Snapshot, params: Value)
    requires !IsQuery(m) && !IsMeta(m) && (NeedsParams(m) ==> params.Object?)
    ensures var e := Command(m, t, h, params).effect;
            && (m == Build ==> e == McpCommands.Build(h).effect)
            && (m == Debug ==> e == McpCommands.DebugOutcome(h).effect)
            && (m == OpenFile ==> e == McpCommands.OpenFile(h, ToStr(Get(params.fields, "path"))).effect)
            && (m == SwitchToBuildConfig ==> e == McpCommands.SwitchOutcome(h, ToStr(Get(params.fields, "name"))).effect)
            && (m == Quit ==> e == McpCommands.Quit().effect)
            && (m == RunProject ==> e == McpCommands.RunOutcome(h).effect)
            && (m == CleanProject ==> e == McpCommands.CleanProject(h).effect)
            && (m == LoadSession ==> e == McpCommands.LoadOutcome(h, ToStr(Get(params.fields, "sessionName"))).effect)
            && (m == SaveSession ==> e == McpCommands.SaveSession(h).effect)
  {
  }

  /**
   * The commands that are not long-running answer with the executor's
   * answer: debug with its joined report and the timeout advice, the others
   * with their success flag.
   */
  lemma CommandResult(m: Method, t: map<string, int>, h: Snapshot, params: Value)
    requires !IsQuery(m) && !IsMeta(m) && !IsLongRunning(m) && (NeedsParams(m) ==> params.Object?)
    ensures var v := Command(m, t, h, params).result;
            && (m == Debug ==>
                  v == Value.Object(map["output" := Str(JoinLines(McpCommands.DebugOutcome(h).lines)),
                                        "timeoutInfo" := Str(TimeoutInfo)]))
            && (m == OpenFile ==> v == Bool(McpCommands.OpenFile(h, ToStr(Get(params.fields, "path"))).ok))
            && (m == SwitchToBuildConfig ==> v == Bool(McpCommands.SwitchOutcome(h, ToStr(Get(params.fields, "name"))).ok))
            && (m == Quit ==> v == Bool(true))
            && (m == SaveSession ==> v == Bool(McpCommands.SaveSession(h).ok))
  {
  }

  /** Each query answers with the executor's value for it; lists become string arrays. */
  lemma QueryValue(m: Method, h: Snapshot)
    requires IsQuery(m)
    ensures var v := Query(m, h);
            && (m == GetVersion ==>
                  v.Object? && v.fields.Keys == {"version", "plugin", "note"}
                  && v.fields["version"] == Str(McpCommands.GetVersion(h)))
            && (m == ListProjects ==> v == StringArray(McpCommands.ListProjects(h)))
            && (m == ListBuildConfigs ==> v == StringArray(McpCommands.ListBuildConfigs(h)))
            && (m == GetCurrentProject ==> v == Str(McpCommands.GetCurrentProject(h)))
            && (m == GetCurrentBuildConfig ==> v == Str(McpCommands.GetCurrentBuildConfig(h)))
            && (m == ListOpenFiles ==> v == StringArray(McpCommands.ListOpenFiles(h)))
            && (m == ListSessions ==> v == StringArray(McpCommands.ListSessions(h)))
            && (m == GetCurrentSession ==> v == Str(McpCommands.GetCurrentSession(h)))
            && (m == ListIssues ==> v == StringArray(McpCommands.IssueLines(h)))
            && (m == TestTaskAccess ==> v == StringArray(McpCommands.TestTaskAccess(h)))
  {
  }

  /** A well-formed request for a query answers with the query's value and fires nothing. */
  lemma RoutedQueryAnswers(t: map<string, int>, h: Snapshot, req: Object, m: Method)
    requires ToStr(Get(req, "jsonrpc")) == "2.0" && MethodOf(req) == Name(m) && IsQuery(m)
    ensures Reply(t, h, req) == Step(SuccessResponse(Query(m, h), Get(req, "id")), t, NoEffect)
  {
    ReplyOfMethod(t, h, req, m);
    InvokeQuery(m, t, h, Get(req, "params"));
  }

  /** A query takes no params and is answered by its branch of Query. */
  lemma InvokeQuery(m: Method, t: map<string, int>, h: Snapshot, params: Value)
    requires IsQuery(m)
    ensures Invoke(m, t, h, params) == Done(Query(m, h), t, NoEffect)
  {
    assert !NeedsParams(m);
  }

  /** listMethods answers with the names listed, as an array of strings. */
  lemma ListMethodsAnswers(t: map<string, int>, h: Snapshot, req: Object)
    requires ToStr(Get(req, "jsonrpc")) == "2.0" && MethodOf(req) == Name(ListMethods)
    ensures Reply(t, h, req) == Step(SuccessResponse(StringArray(ListMethodsNames), Get(req, "id")), t, NoEffect)
  {
    ReplyOfMethod(t, h, req, ListMethods);
    InvokeMeta(ListMethods, t, h, Get(req, "params"));
  }

  /**
   * A well-formed request for a host command answers with the command's
   * result, keeps the table and fires the command's trigger.
   */
  lemma RoutedRequestRunsItsCommand(t: map<string, int>, h: Snapshot, req: Object, m: Method)
    requires ToStr(Get(req, "jsonrpc")) == "2.0" && MethodOf(req) == Name(m)
    requires !IsQuery(m) && !IsMeta(m) && (NeedsParams(m) ==> Get(req, "params").Object?)
    ensures var o := Command(m, t, h, Get(req, "params"));
            Reply(t, h, req) == Step(SuccessResponse(o.result, Get(req, "id")), t, o.effect)
  {
    ReplyOfMethod(t, h, req, m);
    InvokeCommand(m, t, h, Get(req, "params"));
  }

  /** A host command with acceptable params is answered by its branch of Command. */
  lemma InvokeCommand(m: Method, t: map<string, int>, h: Snapshot, params: Value)
    requires !IsQuery(m) && !IsMeta(m) && (NeedsParams(m) ==> params.Object?)
    ensures Invoke(m, t, h, params) == Command(m, t, h, params)
  {
  }

  /**
   * Without a startup project with an active target, a build, cleanProject,
   * runProject or debug request fires nothing.
   */
  lemma InvalidProjectRequestFiresNothing(t: map<string, int>, h: Snapshot, req: Object, m: Method)
    requires ToStr(Get(req, "jsonrpc")) == "2.0" && MethodOf(req) == Name(m)
    requires m == Build || m == CleanProject || m == RunProject || m == Debug
    requires !McpCommands.HasValidProject(h)
    ensures Reply(t, h, req).effect == NoEffect
  {
    RoutedRequestRunsItsCommand(t, h, req, m);
    CommandEffect(m, t, h, Get(req, "params"));
    McpCommands.InvalidProjectTriggersNothing(h);
  }

  /** getMethodMetadata lists a long-running command with the timeout the table holds for it. */
  lemma ListedDuration(t: map<string, int>, m: Method)
    requires McpCommands.TableInvariant(t) && IsLongRunning(m)
    ensures var durations := Durations(t, McpCommands.TimeoutMethods);
            Name(m) in durations && durations[Name(m)] == Number(McpCommands.Lookup(t, Name(m)))
  {
    LongRunningConfigurable(m);
    DurationsListEveryMethod(t);
  }

  /** Each long-running command has a configurable timeout. */
  lemma LongRunningConfigurable(m: Method)
    requires IsLongRunning(m)
    ensures Name(m) in McpCommands.TimeoutMethods
  {
    assert McpCommands.TimeoutMethods[1] == "build" && McpCommands.TimeoutMethods[2] == "runProject";
    assert McpCommands.TimeoutMethods[3] == "loadSession" && McpCommands.TimeoutMethods[4] == "cleanProject";
  }


  // ---------------------------------------------------------------------
  // Lines and chunks

  /** The reply to one received line: parse failures and non-objects are answered with a null id. */
  function ReplyLine(t: map<string, int>, h: Snapshot, line: string, parse: string -> Option<Value>): (s: Step)
    ensures parse(line).None? ==> s == Step(ErrorResponse(ParseError, "Parse error"), t, NoEffect)
    ensures parse(line).Some? && !parse(line).value.Object? ==> s == Step(ErrorResponse(InvalidRequest, "Invalid Request"), t, NoEffect)
    ensures parse(line).Some? && parse(line).value.Object? ==> s == Reply(t, h, parse(line).value.fields)
  {
    match parse(line)
    case None => Step(ErrorResponse(ParseError, "Parse error"), t, NoEffect)
    case Some(doc) =>
      if !doc.Object? then Step(ErrorResponse(InvalidRequest, "Invalid Request"), t, NoEffect)
      else Reply(t, h, doc.fields)
  }

  /** The state after some lines: the responses sent so far, the table and the host. */
  datatype Run = Run(responses: seq<Object>, table: map<string, int>, host: Snapshot)

  /** The lines handled in order, each against the table and host the previous ones left. */
  function Replies(t: map<string, int>, h: Snapshot, lines: seq<string>, parse: string -> Option<Value>): (r: Run)
    ensures |r.responses| == |lines|
  {
    if lines == [] then Run([], t, h)
    else
      var prev := Replies(t, h, lines[..|lines| - 1], parse);
      var s := ReplyLine(prev.table, prev.host, lines[|lines| - 1], parse);
      Run(prev.responses + [s.response], s.table, ApplyEffect(prev.host, s.effect))
  }

  /** One more line extends the run by that line's reply. */
  lemma RepliesSnoc(t: map<string, int>, h: Snapshot, lines: seq<string>, line: string, parse: string -> Option<Value>)
    ensures var prev := Replies(t, h, lines, parse);
            var s := ReplyLine(prev.table, prev.host, line, parse);
            Replies(t, h, lines + [line], parse) == Run(prev.responses + [s.response], s.table, ApplyEffect(prev.host, s.effect))
  {
    assert (lines + [line])[..|lines|] == lines;
  }

  /** The lines of a chunk that get a reply: split on newlines, empty and blank parts dropped. */
  function Frames(chunk: string): (r: seq<string>)
    ensures forall i :: 0 <= i < |r| ==> !IsBlank(r[i]) && '\n' !in r[i]
    ensures forall line :: line in Split(chunk, '\n') && !IsBlank(line) ==> line in r
  {
    NonBlank(NonEmpty(Split(chunk, '\n')))
  }

  /** Handling fewer lines gives a prefix of the responses: later lines never change earlier answers. */
  lemma {:induction false} RepliesPrefix(t: map<string, int>, h: Snapshot, lines: seq<string>, parse: string -> Option<Value>, i: nat)
    requires i <= |lines|
    ensures Replies(t, h, lines[..i], parse).responses == Replies(t, h, lines, parse).responses[..i]
    decreases |lines|
  {
    if i < |lines| {
      var init := lines[..|lines| - 1];
      RepliesPrefix(t, h, init, parse, i);
      assert init[..i] == lines[..i];
      assert Replies(t, h, lines, parse).responses[..i] == Replies(t, h, init, parse).responses[..i];
    } else {
      assert lines[..i] == lines;
    }
  }

  /**
   * The i-th response is the reply to the i-th line, given the state the
   * lines before it left.
   */
  lemma ResponseAt(t: map<string, int>, h: Snapshot, lines: seq<string>, parse: string -> Option<Value>, i: nat)
    requires i < |lines|
    ensures var before := Replies(t, h, lines[..i], parse);
            Replies(t, h, lines, parse).responses[i] == ReplyLine(before.table, before.host, lines[i], parse).response
  {
    RepliesPrefix(t, h, lines, parse, i + 1);
    var upTo := lines[..i + 1];
    assert upTo[..i] == lines[..i];
    assert Replies(t, h, lines, parse).responses[i] == Replies(t, h, upTo, parse).responses[i];
  }

  /** A line that does not parse is answered with a parse error, and the lines after it are still answered. */
  lemma ParseErrorIsLocal(t: map<string, int>, h: Snapshot, lines: seq<string>, parse: string -> Option<Value>, i: nat)
    requires i < |lines| && parse(lines[i]).None?
    ensures Replies(t, h, lines, parse).responses[i] == ErrorResponse(ParseError, "Parse error")
    ensures Get(Replies(t, h, lines, parse).responses[i], "id") == Null
    ensures |Replies(t, h, lines, parse).responses| == |lines|
  {
    ResponseAt(t, h, lines, parse, i);
  }

  /** Requests written one per line are framed back as written. */
  lemma FramesOfJoined(docs: seq<string>)
    requires forall i :: 0 <= i < |docs| ==> '\n' !in docs[i] && !IsBlank(docs[i])
    ensures Frames(JoinLines(docs)) == docs
  {
    if docs == [] {
      assert Split("", '\n') == [""];
    } else {
      SplitOfJoin(docs, '\n');
      NonBlankOfNonEmpty(docs);
      NonBlankKeepsAll(docs);
    }
  }

  /** A final newline after the last request adds no frame. */
  lemma FramesOfJoinedNewline(docs: seq<string>)
    requires forall i :: 0 <= i < |docs| ==> '\n' !in docs[i] && !IsBlank(docs[i])
    ensures Frames(JoinLines(docs) + "\n") == docs
  {
    if docs == [] {
      assert JoinLines(docs) + "\n" == "\n";
      assert Split("\n", '\n') == ["", ""];
      assert NonEmpty(["", ""]) == [];
    } else {
      var padded := docs + [""];
      JoinWithTrailingSeparator(docs, '\n');
      SplitOfJoin(padded, '\n');
      NonBlankOfNonEmpty(padded);
      assert padded[..|padded| - 1] == docs;
      assert IsBlank("");
      assert NonBlank(padded) == NonBlank(docs);
      NonBlankKeepsAll(docs);
    }
  }
}
