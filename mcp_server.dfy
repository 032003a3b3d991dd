/**
 * The TCP server: the listening state and port, the list of connected
 * clients, and the handling of received data, one line-delimited JSON-RPC
 * request at a time, against the executor's timeout table. Sockets are
 * modelled by their connection state and the responses written to them;
 * the host is a snapshot threaded through the requests.
 */
module McpServer {
  import opened Wrappers
  import opened Json
  import opened Host
  import opened Protocol
  import opened Dispatch
  import McpCommands
  import Strings

  /** A TCP port number (quint16). */
  type Port = p: int | 0 <= p < 0x1_0000

  const DefaultPort: Port := 3001

  /** The first port from `from` through 3010 that no other process holds: the fallback loop of start. */
  function FirstFree(busy: set<int>, from: int): (r: Option<Port>)
    requires 3001 <= from <= 3011
    ensures r.Some? ==> from <= r.value <= 3010 && r.value !in busy
    ensures r.Some? ==> forall p :: from <= p < r.value ==> p in busy
    ensures r.None? <==> forall p :: from <= p <= 3010 ==> p in busy
    decreases 3011 - from
  {
    if from > 3010 then None
    else if from !in busy then Some(from)
    else FirstFree(busy, from + 1)
  }

  /**
   * The port start ends up listening on: none while already listening
   * (listen refuses a second call); otherwise the requested port when it is
   * free, else the first free port of 3001 through 3010.
   */
  function ChosenPort(listening: bool, busy: set<int>, requested: Port): (r: Option<Port>)
    ensures r.Some? ==> !listening && r.value !in busy
    ensures r.Some? && r.value != requested ==>
              && requested in busy && 3001 <= r.value <= 3010
              && forall p :: 3001 <= p < r.value ==> p in busy
    ensures r.None? <==> listening || (requested in busy && forall p :: 3001 <= p <= 3010 ==> p in busy)
  {
    if listening then None
    else if requested !in busy then Some(requested)
    else FirstFree(busy, 3001)
  }

  /** When the fallback loop reaches a free port, that port is the first free one. */
  lemma {:induction false} FirstFreeAt(busy: set<int>, from: int, p: Port)
    requires 3001 <= from <= p <= 3010 && p !in busy
    requires forall q :: from <= q < p ==> q in busy
    ensures FirstFree(busy, from) == Some(p)
    decreases p - from
  {
    if from < p {
      FirstFreeAt(busy, from + 1, p);
    }
  }

  /** A client connection: whether it is connected, and the responses written to it so far. */
  class Socket {
    var connected: bool
    var sent: seq<Object>

    constructor()
      ensures connected && sent == []
    {
      connected := true;
      sent := [];
    }

    /** disconnectFromHost: the connection goes down, nothing more is written. */
    method Disconnect()
      modifies this
      ensures !connected && sent == old(sent)
    {
      connected := false;
    }

    /** write: one compact JSON line, modelled by the object it encodes. */
    method Write(response: Object)
      requires connected
      modifies this
      ensures connected && sent == old(sent) + [response]
    {
      sent := sent + [response];
    }
  }

  /** The clients left once every occurrence of c is removed, in their order (QList::removeAll). */
  function Without(clients: seq<Socket>, c: Socket): (r: seq<Socket>)
    ensures |r| <= |clients|
    ensures c !in r
    ensures multiset(r) == multiset(clients)[c := 0]
  {
    if clients == [] then []
    else
      var init := clients[..|clients| - 1];
      var last := clients[|clients| - 1];
      assert clients == init + [last];
      if last == c then Without(init, c) else Without(init, c) + [last]
  }

  /** The clients left are exactly the others: none is lost and none is added. */
  lemma WithoutMembers(clients: seq<Socket>, c: Socket, d: Socket)
    ensures d in Without(clients, c) <==> d in clients && d != c
  {
    assert d in Without(clients, c) <==> d in multiset(Without(clients, c));
    assert d in clients <==> d in multiset(clients);
  }

  /** A single client is dropped exactly when it is the one removed. */
  lemma WithoutOne(d: Socket, c: Socket)
    ensures Without([d], c) == if d == c then [] else [d]
  {
    assert [d][..0] == [];
  }

  /**
   * Removal works piece by piece: the clients left of a concatenation are the
   * clients left of each part, in the same order. With WithoutOne this fixes
   * Without completely: the other clients stay in their order.
   */
  lemma {:induction false} WithoutAppend(a: seq<Socket>, b: seq<Socket>, c: Socket)
    ensures Without(a + b, c) == Without(a, c) + Without(b, c)
    decreases |b|
  {
    if b == [] {
      assert a + b == a;
    } else {
      var init, last := b[..|b| - 1], b[|b| - 1];
      var kept := if last == c then [] else [last];
      LastSplit(a, b);
      calc {
        Without(a + b, c);
        Without((a + init) + [last], c);
        { WithoutSnoc(a + init, last, c); }
        Without(a + init, c) + kept;
        { WithoutAppend(a, init, c); }
        (Without(a, c) + Without(init, c)) + kept;
        Without(a, c) + (Without(init, c) + kept);
        { WithoutSnoc(init, last, c); }
        Without(a, c) + Without(init + [last], c);
        Without(a, c) + Without(b, c);
      }
    }
  }

  /** A non-empty right part splits off its last element. */
  lemma LastSplit<T>(a: seq<T>, b: seq<T>)
    requires b != []
    ensures a + b == (a + b[..|b| - 1]) + [b[|b| - 1]]
    ensures b == b[..|b| - 1] + [b[|b| - 1]]
  {
  }

  /** One more client at the end is kept exactly when it is not the one removed. */
  lemma WithoutSnoc(s: seq<Socket>, d: Socket, c: Socket)
    ensures Without(s + [d], c) == Without(s, c) + (if d == c then [] else [d])
  {
    assert (s + [d])[..|s|] == s;
  }

  /** What a client has received after a response is sent to it: nothing once it is disconnected. */
  function Delivered(sent: seq<Object>, connected: bool, responses: seq<Object>): seq<Object>
  {
    if connected then sent + responses else sent
  }

  class Server {
    var clients: seq<Socket>
    var port: Port
    var listening: bool
    const commands: McpCommands.Commands

    ghost predicate Valid()
      reads this, commands
    {
      commands.Valid()
    }

    /** A new server: not listening, port 3001, no clients, the default timeouts. */
    constructor()
      ensures Valid() && fresh(commands)
      ensures clients == [] && port == DefaultPort && !listening
      ensures commands.timeouts == McpCommands.DefaultTimeouts()
    {
      clients := [];
      port := DefaultPort;
      listening := false;
      commands := new McpCommands.Commands();
    }

    /** isRunning. */
    function IsRunning(): bool
      reads this
    {
      listening
    }

    /** getPort: the port last requested or found. */
    function GetPort(): Port
      reads this
    {
      port
    }

    /** QTcpServer::listen: refused while listening or when another process holds the port. */
    method Listen(p: Port, busy: set<int>) returns (ok: bool)
      modifies this
      ensures ok == (!old(listening) && p !in busy)
      ensures listening == (old(listening) || ok)
      ensures clients == old(clients) && port == old(port)
    {
      ok := !listening && p !in busy;
      if ok {
        listening := true;
      }
    }

    /** start: the requested port, else the first free port of 3001 through 3010. */
    method Start(busy: set<int>, requested: Port := DefaultPort) returns (ok: bool)
      modifies this
      ensures ok == ChosenPort(old(listening), busy, requested).Some?
      ensures port == if ok then ChosenPort(old(listening), busy, requested).value else requested
      ensures listening == (old(listening) || ok)
      ensures clients == old(clients)
    {
      port := requested;
      ok := Listen(requested, busy);
      if ok {
        return;
      }
      var tryPort: Port := 3001;
      while tryPort <= 3010
        invariant 3001 <= tryPort <= 3011
        invariant listening == old(listening) && port == requested && clients == old(clients)
        invariant old(listening) || (requested in busy && forall p :: 3001 <= p < tryPort ==> p in busy)
      {
        ok := Listen(tryPort, busy);
        if ok {
          port := tryPort;
          FirstFreeAt(busy, 3001, tryPort);
          return;
        }
        tryPort := tryPort + 1;
      }
    }

    /** stop: every client is disconnected and dropped, and listening ends. */
    method Stop()
      modifies this, clients
      ensures clients == [] && !listening && port == old(port)
      ensures forall c :: c in old(clients) ==> !c.connected && c.sent == old(c.sent)
    {
      for i := 0 to |clients|
        invariant clients == old(clients) && port == old(port)
        invariant forall j :: 0 <= j < i ==> !clients[j].connected
        invariant forall c :: c in old(clients) ==> c.sent == old(c.sent)
      {
        clients[i].Disconnect();
      }
      clients := [];
      listening := false;
    }

    /** handleNewConnection: a pending connection joins the clients; no pending one changes nothing. */
    method HandleNewConnection(pending: Socket?)
      modifies this
      ensures clients == old(clients) + (if pending == null then [] else [pending])
      ensures port == old(port) && listening == old(listening)
    {
      if pending == null {
        return;
      }
      clients := clients + [pending];
    }

    /** handleClientDisconnected: the client is removed wherever it occurs. */
    method HandleClientDisconnected(client: Socket?)
      modifies this
      ensures clients == if client == null then old(clients) else Without(old(clients), client)
      ensures port == old(port) && listening == old(listening)
    {
      if client == null {
        return;
      }
      var kept: seq<Socket> := [];
      for i := 0 to |clients|
        invariant kept == Without(clients[..i], client)
      {
        assert clients[..i + 1][..i] == clients[..i];
        if clients[i] != client {
          kept := kept + [clients[i]];
        }
      }
      assert clients[..|clients|] == clients;
      clients := kept;
    }

    /** sendResponse: written only to a connected client. */
    method SendResponse(client: Socket?, response: Object)
      modifies client
      ensures client != null ==> client.connected == old(client.connected)
      ensures client != null ==> client.sent == Delivered(old(client.sent), old(client.connected), [response])
    {
      if client == null || !client.connected {
        return;
      }
      client.Write(response);
    }

    /** The expectedDurations loop of getMethodMetadata, reading each timeout from the executor. */
    method ExpectedDurations() returns (durations: map<string, Value>)
      ensures durations == Durations(commands.timeouts, McpCommands.TimeoutMethods)
    {
      var names := McpCommands.TimeoutMethods;
      durations := map[];
      for i := 0 to |names|
        invariant durations == Durations(commands.timeouts, names[..i])
      {
        assert names[..i + 1][..i] == names[..i];
        var timeout := commands.GetMethodTimeout(names[i]);
        if timeout >= 0 {
          durations := durations[names[i] := Number(timeout)];
        }
      }
      assert names[..|names|] == names;
    }

    /**
     * The routing of processRequest. setMethodMetadata goes through the
     * executor's method, which updates its table; getMethodMetadata runs the
     * durations loop; every other method's branch only reads the table.
     */
    method Route(h: Snapshot, name: string, params: Value) returns (o: Outcome)
      requires Valid()
      modifies commands
      ensures Valid()
      ensures o == Routed(old(commands.timeouts), h, name, params)
      ensures commands.timeouts == if o.Done? then o.table else old(commands.timeouts)
    {
      var t := commands.timeouts;
      var found := Lookup(name);
      if found.None? {
        return Invalid(UnknownMethod(name));
      }
      var m := found.value;
      if m == SetMethodMetadata && params.Object? {
        var report := commands.SetMethodMetadata(ToStr(Get(params.fields, "method")),
                                                 ToInt(Get(params.fields, "timeoutSeconds")));
        o := Done(Str(report), commands.timeouts, NoEffect);
        SetMetadataOutcome(t, h, params);
      } else if m == GetMethodMetadata {
        var durations := ExpectedDurations();
        o := Done(Value.Object(map["expectedDurations" := Value.Object(durations),
                                   "description" := Str(MetadataDescription), "note" := Str(MetadataNote)]),
                  t, NoEffect);
        MetadataOutcome(t, h, params);
      } else {
        o := Invoke(m, t, h, params);
      }
    }

    /** processRequest: every request is answered on the client, whatever the method. */
    method ProcessRequest(client: Socket?, h: Snapshot, req: Object) returns (effect: Effect)
      requires Valid()
      modifies commands, client
      ensures Valid()
      ensures var s := Reply(old(commands.timeouts), h, req);
              commands.timeouts == s.table && effect == s.effect
      ensures client != null ==> client.connected == old(client.connected)
      ensures client != null ==>
        client.sent == Delivered(old(client.sent), old(client.connected), [Reply(old(commands.timeouts), h, req).response])
    {
      var id := Get(req, "id");
      if ToStr(Get(req, "jsonrpc")) != "2.0" {
        SendResponse(client, ErrorResponse(InvalidRequest, BadVersion, id));
        return NoEffect;
      }
      var name := MethodOf(req);
      if name == "" {
        SendResponse(client, ErrorResponse(InvalidRequest, MissingMethod, id));
        return NoEffect;
      }
      var o := Route(h, name, Get(req, "params"));
      if o.Invalid? {
        SendResponse(client, ErrorResponse(MethodNotFound, o.message, id));
        effect := NoEffect;
      } else {
        SendResponse(client, SuccessResponse(o.result, id));
        effect := o.effect;
      }
    }

    /** One received line: a parse failure or a non-object is answered here, an object is processed. */
    method HandleLine(client: Socket?, h: Snapshot, line: string, parse: string -> Option<Value>) returns (host: Snapshot)
      requires Valid()
      modifies commands, client
      ensures Valid()
      ensures var s := ReplyLine(old(commands.timeouts), h, line, parse);
              commands.timeouts == s.table && host == ApplyEffect(h, s.effect)
      ensures client != null ==> client.connected == old(client.connected)
      ensures client != null ==>
        client.sent == Delivered(old(client.sent), old(client.connected), [ReplyLine(old(commands.timeouts), h, line, parse).response])
    {
      match parse(line)
      case None =>
        SendResponse(client, ErrorResponse(ParseError, "Parse error"));
        host := h;
      case Some(doc) =>
        if !doc.Object? {
          SendResponse(client, ErrorResponse(InvalidRequest, "Invalid Request"));
          host := h;
        } else {
          var effect := ProcessRequest(client, h, doc.fields);
          host := ApplyEffect(h, effect);
        }
    }

    /** One more non-blank line of a chunk, answered after the lines before it. */
    method AnswerNext(client: Socket, h: Snapshot, ghost t: map<string, int>, ghost sent: seq<Object>,
                      ghost lines: seq<string>, host: Snapshot, line: string, parse: string -> Option<Value>)
      returns (host': Snapshot)
      requires Valid()
      requires var run := Replies(t, h, lines, parse);
        && commands.timeouts == run.table && host == run.host
        && client.sent == Delivered(sent, client.connected, run.responses)
      modifies commands, client
      ensures Valid()
      ensures client.connected == old(client.connected)
      ensures var run := Replies(t, h, lines + [line], parse);
        && commands.timeouts == run.table && host' == run.host
        && client.sent == Delivered(sent, client.connected, run.responses)
    {
      RepliesSnoc(t, h, lines, line, parse);
      host' := HandleLine(client, host, line, parse);
    }

    /**
     * handleClientData: the chunk is split on newlines, empty and blank parts
     * are skipped, and every other line is answered in order, each against
     * the table and host the previous ones left.
     */
    method HandleClientData(client: Socket?, h: Snapshot, chunk: string, parse: string -> Option<Value>)
      returns (host: Snapshot)
      requires Valid()
      modifies commands, client
      ensures Valid()
      ensures client == null ==> commands.timeouts == old(commands.timeouts) && host == h
      ensures client != null ==>
        var run := Replies(old(commands.timeouts), h, Frames(chunk), parse);
        && commands.timeouts == run.table && host == run.host
        && client.connected == old(client.connected)
        && client.sent == Delivered(old(client.sent), old(client.connected), run.responses)
    {
      host := h;
      if client == null {
        return;
      }
      var messages := Strings.NonEmpty(Strings.Split(chunk, '\n'));
      host := AnswerAll(client, h, messages, parse);
    }

    /** The loop of handleClientData over the non-empty parts of a chunk: the blank ones are skipped. */
    method AnswerAll(client: Socket, h: Snapshot, messages: seq<string>, parse: string -> Option<Value>)
      returns (host: Snapshot)
      requires Valid()
      modifies commands, client
      ensures Valid()
      ensures var run := Replies(old(commands.timeouts), h, Strings.NonBlank(messages), parse);
        && commands.timeouts == run.table && host == run.host
        && client.connected == old(client.connected)
        && client.sent == Delivered(old(client.sent), old(client.connected), run.responses)
    {
      host := h;
      ghost var lines: seq<string> := [];
      for i := 0 to |messages|
        invariant Valid()
        invariant lines == Strings.NonBlank(messages[..i])
        invariant client.connected == old(client.connected)
        invariant var run := Replies(old(commands.timeouts), h, lines, parse);
          && commands.timeouts == run.table && host == run.host
          && client.sent == Delivered(old(client.sent), old(client.connected), run.responses)
      {
        Strings.NonBlankStep(messages, i);
        if Strings.IsBlank(messages[i]) {
          continue;
        }
        host := AnswerNext(client, h, old(commands.timeouts), old(client.sent), lines, host, messages[i], parse);
        lines := lines + [messages[i]];
      }
      assert messages[..|messages|] == messages;
    }
  }
}
