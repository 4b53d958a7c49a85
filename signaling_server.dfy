/** The signaling server `http_signaling_server.py`: the `users`, `calls` and
    `websocket_clients` tables, the handler of one client connection, the status
    broadcast and the cleanup that runs when the handler raises.

    `Signaling` specifies every handler on a `Server` value. A raise anywhere in
    the handler (a send to a socket whose connection is gone, a `KeyError` on an
    unknown group or caller, a message that is not a JSON object, an abnormal
    close) ends the connection's loop after the cleanup; handlers return whether
    the loop goes on. `SignalingServer.State` holds the module's globals and is
    proved to perform the same steps. */
module Signaling {
  import opened Common
  import opened Dict

  /** `users[group][username]` */
  datatype User = User(ws: SocketId, ip: string, port: string)

  /** `calls[call_id]` */
  datatype Call = Call(callerWs: SocketId, calleeWs: SocketId, callerIp: string, calleeIp: string,
                       callerPort: string, calleePort: string, callerGroup: string, calleeGroup: string)

  /** JSON messages the server sends to clients. */
  datatype Reply =
    | Error(message: string)
    | SetCookie(sessionId: string, ip: string)
    | UserStatus(sales: seq<string>, customers: seq<string>)
    | IncomingCall(callId: string, peerIp: string, peerPort: string, fromUser: string)
    | CallAccepted(peerIp: string, peerPort: string)
    | CallEnded

  datatype Out = Out(to: SocketId, reply: Reply)

  /** What `notify_udp_relay` tells the relay server. */
  datatype Note =
    | Accepted(callId: string, callerIp: string, calleeIp: string, callerGroup: string, calleeGroup: string)
    | Ended(callId: string)
    | LoggedOut(ip: string)

  /** The module's globals, plus the messages sent so far. */
  datatype Server = Server(sales: Dict<string, User>, customers: Dict<string, User>,
                           calls: Dict<string, Call>, clients: Dict<string, SocketId>,
                           relay: Option<SocketId>, sent: seq<Out>, notes: seq<Note>)

  /** What the connection's `async for` loop hands over: a text frame that
      decodes to a JSON object, a text frame that does not, a binary frame, or
      the end of the connection (a clean close ends the loop quietly, an abnormal
      one raises). */
  datatype Inbound = Text(data: Json) | Malformed | Binary | Closed(clean: bool)

  /** The tables after a message, and whether the connection's loop goes on. */
  datatype Handled = Handled(s: Server, alive: bool)

  const MissingRegister := "Missing group, username, or port"
  const MissingCallFields := "Missing call_id, to_user, from_group, or from_user"
  const MissingCallId := "Missing call_id"
  const UserNotFound := "User not found"
  const CallNotFound := "Call not found"

  /** At start-up: empty tables, and the relay connection if it was made. */
  function Initial(relay: Option<SocketId>): Server {
    Server([], [], [], [], relay, [], [])
  }

  /** Every table is a dict. */
  ghost predicate Inv(s: Server) {
    Valid(s.sales) && Valid(s.customers) && Valid(s.calls) && Valid(s.clients)
  }

  /** `users[group]`, which raises for any group but the two. */
  function Group(s: Server, g: string): (r: Option<Dict<string, User>>)
    ensures r.Some? <==> g == "sales" || g == "customers"
  {
    if g == "sales" then Some(s.sales) else if g == "customers" then Some(s.customers) else None
  }

  /** The first user of `d` whose connection is `ws`:
      `next(u for u, d in users[group].items() if d['ws'] == websocket)`. */
  function OwnerOf(d: Dict<string, User>, ws: SocketId): (r: Option<string>)
    ensures r.None? <==> forall i :: 0 <= i < |d| ==> d[i].1.ws != ws
    ensures r.Some? ==> exists i :: 0 <= i < |d| && d[i].0 == r.value && d[i].1.ws == ws
    decreases |d|
  {
    if d == [] then None
    else if d[0].1.ws == ws then Some(d[0].0)
    else OwnerOf(d[1..], ws)
  }

  // ---------------------------------------------------------------------
  // Sends and notifications

  /** A send to a socket that is open but whose send raises. */
  predicate Broken(net: Net, ws: SocketId) {
    IsOpen(net, ws) && !Delivers(net, ws)
  }

  /** `notify_udp_relay`: only while the relay connection is set and open; a
      failed send forgets the connection for good. It never raises. */
  function Notify(s: Server, net: Net, n: Note): (r: Server)
    ensures r.(relay := s.relay, notes := s.notes) == s
    ensures r.notes == s.notes + [n] || r.notes == s.notes
    ensures r.notes == s.notes + [n] <==> s.relay.Some? && Delivers(net, s.relay.value)
    ensures s.relay.Some? && Broken(net, s.relay.value) ==> r.relay == None
    ensures !(s.relay.Some? && Broken(net, s.relay.value)) ==> r.relay == s.relay
  {
    if s.relay.Some? && IsOpen(net, s.relay.value) then
      if Delivers(net, s.relay.value) then s.(notes := s.notes + [n]) else s.(relay := None)
    else s
  }

  /** `user_status` with the current keys of both groups. */
  function Status(s: Server): Reply {
    UserStatus(Keys(s.sales), Keys(s.customers))
  }

  /** The loop of `broadcast_user_status` over the entries `ks` of
      `list(websocket_clients.items())`: an open client is sent the status, and
      a client whose send raises is deleted from `websocket_clients`. */
  function BroadcastTo(s: Server, status: Reply, ks: seq<(string, SocketId)>, net: Net): (r: Server)
    ensures r.(clients := s.clients, sent := s.sent) == s
    ensures |s.sent| <= |r.sent| && r.sent[..|s.sent|] == s.sent
    ensures forall i :: |s.sent| <= i < |r.sent| ==> r.sent[i].reply == status && Delivers(net, r.sent[i].to)
    decreases |ks|
  {
    if ks == [] then s
    else
      var u, w := ks[0].0, ks[0].1;
      var s1 := if !IsOpen(net, w) then s
                else if Delivers(net, w) then s.(sent := s.sent + [Out(w, status)])
                else s.(clients := Del(s.clients, u));
      BroadcastTo(s1, status, ks[1..], net)
  }

  function Broadcast(s: Server, net: Net): Server {
    BroadcastTo(s, Status(s), s.clients, net)
  }

  /** Every entry of `ks` whose send succeeds is sent the status. */
  lemma {:induction false} BroadcastToReaches(s: Server, status: Reply, ks: seq<(string, SocketId)>, net: Net, i: int)
    requires 0 <= i < |ks| && Delivers(net, ks[i].1)
    ensures Out(ks[i].1, status) in BroadcastTo(s, status, ks, net).sent[|s.sent|..]
    decreases |ks|
  {
    var u, w := ks[0].0, ks[0].1;
    var s1 := if !IsOpen(net, w) then s
              else if Delivers(net, w) then s.(sent := s.sent + [Out(w, status)])
              else s.(clients := Del(s.clients, u));
    var r := BroadcastTo(s1, status, ks[1..], net);
    assert BroadcastTo(s, status, ks, net) == r;
    if i == 0 {
      assert r.sent[|s.sent|] == r.sent[..|s1.sent|][|s.sent|] == Out(w, status);
    } else {
      assert ks[1..][i - 1] == ks[i];
      BroadcastToReaches(s1, status, ks[1..], net, i - 1);
      assert r.sent[|s.sent|..] == s1.sent[|s.sent|..] + r.sent[|s1.sent|..];
    }
  }

  /** `broadcast_user_status` reaches every registered client whose send succeeds. */
  lemma BroadcastReaches(s: Server, net: Net, i: int)
    requires 0 <= i < |s.clients| && Delivers(net, s.clients[i].1)
    ensures Out(s.clients[i].1, Status(s)) in Broadcast(s, net).sent[|s.sent|..]
  {
    BroadcastToReaches(s, Status(s), s.clients, net, i);
  }

  /** Some entry of `ks` names `k` and has a broken connection. */
  ghost predicate Drops(ks: seq<(string, SocketId)>, k: string, net: Net) {
    exists i :: 0 <= i < |ks| && ks[i].0 == k && Broken(net, ks[i].1)
  }

  lemma {:induction false} BroadcastToClients(s: Server, status: Reply, ks: seq<(string, SocketId)>, net: Net, k: string)
    ensures Lookup(BroadcastTo(s, status, ks, net).clients, k) == if Drops(ks, k, net) then None else Lookup(s.clients, k)
    decreases |ks|
  {
    if ks != [] {
      var u, w := ks[0].0, ks[0].1;
      var s1 := if !IsOpen(net, w) then s
                else if Delivers(net, w) then s.(sent := s.sent + [Out(w, status)])
                else s.(clients := Del(s.clients, u));
      BroadcastToClients(s1, status, ks[1..], net, k);
      if u != k {
        DelOther(s.clients, u, k);
      }
      if Drops(ks, k, net) && !Drops(ks[1..], k, net) {
        assert ks[0].0 == k && Broken(net, w);
      }
      if Drops(ks[1..], k, net) {
        var i :| 0 <= i < |ks[1..]| && ks[1..][i].0 == k && Broken(net, ks[1..][i].1);
        assert ks[i + 1] == ks[1..][i];
      }
    }
  }

  /** The broadcast removes from `websocket_clients` exactly the clients whose
      send raised, and changes no other table. */
  lemma BroadcastClients(s: Server, net: Net, k: string)
    requires Valid(s.clients)
    ensures var r := Broadcast(s, net);
      && r.sales == s.sales && r.customers == s.customers && r.calls == s.calls
      && Lookup(r.clients, k) == (if Lookup(s.clients, k).Some? && Broken(net, Lookup(s.clients, k).value) then None
                               else Lookup(s.clients, k))
  {
    BroadcastToClients(s, Status(s), s.clients, net, k);
    if Drops(s.clients, k, net) {
      var i :| 0 <= i < |s.clients| && s.clients[i].0 == k && Broken(net, s.clients[i].1);
      LookupAt(s.clients, i);
    }
  }

  lemma {:induction false} BroadcastToValid(s: Server, status: Reply, ks: seq<(string, SocketId)>, net: Net)
    requires Inv(s)
    ensures Inv(BroadcastTo(s, status, ks, net))
    decreases |ks|
  {
    if ks != [] {
      DelValid(s.clients, ks[0].0);
      var u, w := ks[0].0, ks[0].1;
      var s1 := if !IsOpen(net, w) then s
                else if Delivers(net, w) then s.(sent := s.sent + [Out(w, status)])
                else s.(clients := Del(s.clients, u));
      BroadcastToValid(s1, status, ks[1..], net);
    }
  }

  // ---------------------------------------------------------------------
  // Logout and cleanup

  /** Removing `u`, whose entry is already gone from its group: drop it from
      `websocket_clients` if there, broadcast, and tell the relay. */
  function Unregister(s: Server, u: string, ip: string, net: Net): Server {
    var s1 := s.(clients := if Has(s.clients, u) then Del(s.clients, u) else s.clients);
    Notify(Broadcast(s1, net), net, LoggedOut(ip))
  }

  /** The `for group in users` loop of `logout` and of the cleanup: the first
      group (sales, then customers) holding an entry for this connection loses
      its first such entry. */
  function RemoveUserOf(s: Server, ws: SocketId, ip: string, net: Net): Server {
    match OwnerOf(s.sales, ws)
    case Some(u) => Unregister(s.(sales := Del(s.sales, u)), u, ip, net)
    case None =>
      match OwnerOf(s.customers, ws)
      case Some(u) => Unregister(s.(customers := Del(s.customers, u)), u, ip, net)
      case None => s
  }

  /** The user removed is gone from its group and from `websocket_clients`;
      the other group and the call table are untouched. */
  lemma RemoveUserOfRemoves(s: Server, ws: SocketId, ip: string, net: Net)
    ensures var r := RemoveUserOf(s, ws, ip, net);
      && r.calls == s.calls
      && (OwnerOf(s.sales, ws).Some? ==>
            var u := OwnerOf(s.sales, ws).value;
            !Has(r.sales, u) && !Has(r.clients, u) && r.customers == s.customers)
      && (OwnerOf(s.sales, ws).None? && OwnerOf(s.customers, ws).Some? ==>
            var u := OwnerOf(s.customers, ws).value;
            !Has(r.customers, u) && !Has(r.clients, u) && r.sales == s.sales)
      && (OwnerOf(s.sales, ws).None? && OwnerOf(s.customers, ws).None? ==> r == s)
  {
    var o := OwnerOf(s.sales, ws);
    if o.Some? {
      var s1 := s.(sales := Del(s.sales, o.value));
      var s2 := s1.(clients := if Has(s1.clients, o.value) then Del(s1.clients, o.value) else s1.clients);
      BroadcastToClients(s2, Status(s2), s2.clients, net, o.value);
    } else if OwnerOf(s.customers, ws).Some? {
      var u := OwnerOf(s.customers, ws).value;
      var s1 := s.(customers := Del(s.customers, u));
      var s2 := s1.(clients := if Has(s1.clients, u) then Del(s1.clients, u) else s1.clients);
      BroadcastToClients(s2, Status(s2), s2.clients, net, u);
    }
  }

  lemma RemoveUserOfValid(s: Server, ws: SocketId, ip: string, net: Net)
    requires Inv(s)
    ensures Inv(RemoveUserOf(s, ws, ip, net))
  {
    var o := OwnerOf(s.sales, ws);
    var oc := OwnerOf(s.customers, ws);
    if o.Some? {
      DelValid(s.sales, o.value);
      DelValid(s.clients, o.value);
      var s1 := s.(sales := Del(s.sales, o.value));
      var s2 := s1.(clients := if Has(s1.clients, o.value) then Del(s1.clients, o.value) else s1.clients);
      BroadcastToValid(s2, Status(s2), s2.clients, net);
    } else if oc.Some? {
      DelValid(s.customers, oc.value);
      DelValid(s.clients, oc.value);
      var s1 := s.(customers := Del(s.customers, oc.value));
      var s2 := s1.(clients := if Has(s1.clients, oc.value) then Del(s1.clients, oc.value) else s1.clients);
      BroadcastToValid(s2, Status(s2), s2.clients, net);
    }
  }

  /** The call has this connection as caller or callee. */
  predicate Involves(c: Option<Call>, ws: SocketId) {
    c.Some? && (c.value.callerWs == ws || c.value.calleeWs == ws)
  }

  /** The loop `for call_id in list(calls.keys())` of the cleanup: every call of
      this connection is deleted and the relay told it ended. */
  function DropCalls(s: Server, ks: seq<string>, ws: SocketId, net: Net): (r: Server)
    ensures r.(calls := s.calls, relay := s.relay, notes := s.notes) == s
    decreases |ks|
  {
    if ks == [] then s
    else
      var s1 := if Involves(Lookup(s.calls, ks[0]), ws) then Notify(s.(calls := Del(s.calls, ks[0])), net, Ended(ks[0])) else s;
      DropCalls(s1, ks[1..], ws, net)
  }

  lemma {:induction false} DropCallsLookup(s: Server, ks: seq<string>, ws: SocketId, net: Net, k: string)
    ensures Lookup(DropCalls(s, ks, ws, net).calls, k)
         == if k in ks && Involves(Lookup(s.calls, k), ws) then None else Lookup(s.calls, k)
    decreases |ks|
  {
    if ks != [] {
      var s1 := if Involves(Lookup(s.calls, ks[0]), ws) then Notify(s.(calls := Del(s.calls, ks[0])), net, Ended(ks[0])) else s;
      DropCallsLookup(s1, ks[1..], ws, net, k);
      if ks[0] != k {
        DelOther(s.calls, ks[0], k);
      }
    }
  }

  lemma {:induction false} DropCallsValid(s: Server, ks: seq<string>, ws: SocketId, net: Net)
    requires Inv(s)
    ensures Inv(DropCalls(s, ks, ws, net))
    decreases |ks|
  {
    if ks != [] {
      DelValid(s.calls, ks[0]);
      var s1 := if Involves(Lookup(s.calls, ks[0]), ws) then Notify(s.(calls := Del(s.calls, ks[0])), net, Ended(ks[0])) else s;
      DropCallsValid(s1, ks[1..], ws, net);
    }
  }

  /** The `except` branch of `handle_websocket`. */
  function Cleanup(s: Server, ws: SocketId, ip: string, net: Net): Server {
    var s1 := RemoveUserOf(s, ws, ip, net);
    DropCalls(s1, Keys(s1.calls), ws, net)
  }

  /** After the cleanup no call has the connection as caller or callee, and
      every other call is still there. */
  lemma CleanupDropsCalls(s: Server, ws: SocketId, ip: string, net: Net, k: string)
    ensures Lookup(Cleanup(s, ws, ip, net).calls, k) == if Involves(Lookup(s.calls, k), ws) then None else Lookup(s.calls, k)
  {
    var s1 := RemoveUserOf(s, ws, ip, net);
    RemoveUserOfRemoves(s, ws, ip, net);
    DropCallsLookup(s1, Keys(s1.calls), ws, net, k);
    if Lookup(s.calls, k).Some? {
      var i :| 0 <= i < |s.calls| && s.calls[i] == (k, Lookup(s.calls, k).value);
      assert Keys(s1.calls)[i] == k;
    }
  }

  lemma CleanupValid(s: Server, ws: SocketId, ip: string, net: Net)
    requires Inv(s)
    ensures Inv(Cleanup(s, ws, ip, net))
  {
    RemoveUserOfValid(s, ws, ip, net);
    var s1 := RemoveUserOf(s, ws, ip, net);
    DropCallsValid(s1, Keys(s1.calls), ws, net);
  }

  /** A raise inside the handler of connection `ws`. */
  function Fail(s: Server, ws: SocketId, ip: string, net: Net): Handled {
    Handled(Cleanup(s, ws, ip, net), false)
  }

  /** `await to.send(reply)` inside the handler of `ws`: a send that raises
      ends the handler through the cleanup. */
  function Say(s: Server, net: Net, ws: SocketId, ip: string, to: SocketId, reply: Reply): (r: Handled)
    ensures Delivers(net, to) ==> r == Handled(s.(sent := s.sent + [Out(to, reply)]), true)
    ensures !Delivers(net, to) ==> r == Fail(s, ws, ip, net)
  {
    if Delivers(net, to) then Handled(s.(sent := s.sent + [Out(to, reply)]), true) else Fail(s, ws, ip, net)
  }

  lemma SayValid(s: Server, net: Net, ws: SocketId, ip: string, to: SocketId, reply: Reply)
    requires Inv(s)
    ensures Inv(Say(s, net, ws, ip, to, reply).s)
  {
    CleanupValid(s, ws, ip, net);
  }

  // ---------------------------------------------------------------------
  // The events

  function Register(s: Server, ws: SocketId, ip: string, data: Json, net: Net): Handled {
    var g, u, p := Get(data, "group"), Get(data, "username"), Get(data, "port");
    if !(Truthy(g) && Truthy(u) && Truthy(p)) then Say(s, net, ws, ip, ws, Error(MissingRegister))
    else if Group(s, g.value).None? then Fail(s, ws, ip, net)
    else
      var rec := User(ws, ip, p.value);
      var s1 := if g.value == "sales" then s.(sales := Put(s.sales, u.value, rec))
                else s.(customers := Put(s.customers, u.value, rec));
      var s2 := s1.(clients := Put(s1.clients, u.value, ws));
      var h := Say(s2, net, ws, ip, ws, SetCookie(g.value + "_" + u.value, ip));
      if h.alive then Handled(Broadcast(h.s, net), true) else h
  }

  function CallUser(s: Server, ws: SocketId, ip: string, data: Json, net: Net): Handled {
    var callId, toUser, fromGroup := Get(data, "call_id"), Get(data, "to_user"), Get(data, "from_group");
    var fromUser := GetOr(data, "from_user", "unknown");
    var toGroup := Opposite(fromGroup);
    if !(Truthy(callId) && Truthy(toUser) && Truthy(fromGroup) && fromUser != "") then
      Say(s, net, ws, ip, ws, Error(MissingCallFields))
    else if !Has(Group(s, toGroup).value, toUser.value) then Say(s, net, ws, ip, ws, Error(UserNotFound))
    else
      var callee := Lookup(Group(s, toGroup).value, toUser.value).value;
      var from := Group(s, fromGroup.value);
      if from.None? || !Has(from.value, fromUser) then Fail(s, ws, ip, net)
      else
        var caller := Lookup(from.value, fromUser).value;
        var c := Call(ws, callee.ws, caller.ip, callee.ip, caller.port, callee.port, fromGroup.value, toGroup);
        Say(s.(calls := Put(s.calls, callId.value, c)), net, ws, ip, callee.ws,
            IncomingCall(callId.value, caller.ip, caller.port, fromUser))
  }

  function AcceptCall(s: Server, ws: SocketId, ip: string, data: Json, net: Net): Handled {
    var callId := Get(data, "call_id");
    if !Truthy(callId) then Say(s, net, ws, ip, ws, Error(MissingCallId))
    else if !Has(s.calls, callId.value) then Say(s, net, ws, ip, ws, Error(CallNotFound))
    else
      var c := Lookup(s.calls, callId.value).value;
      var h := Say(s, net, ws, ip, c.callerWs, CallAccepted(c.calleeIp, c.calleePort));
      if !h.alive then h
      else Handled(Notify(h.s, net, Accepted(callId.value, c.callerIp, c.calleeIp, c.callerGroup, c.calleeGroup)), true)
  }

  /** `if ws and ws.state == State.OPEN: await ws.send(...)` */
  function SayIfOpen(s: Server, net: Net, ws: SocketId, ip: string, to: SocketId, reply: Reply): Handled {
    if IsOpen(net, to) then Say(s, net, ws, ip, to, reply) else Handled(s, true)
  }

  function HangUp(s: Server, ws: SocketId, ip: string, data: Json, net: Net): Handled {
    var callId := Get(data, "call_id");
    if !Truthy(callId) then Say(s, net, ws, ip, ws, Error(MissingCallId))
    else if !Has(s.calls, callId.value) then Handled(s, true)
    else
      var c := Lookup(s.calls, callId.value).value;
      var h1 := SayIfOpen(s.(calls := Del(s.calls, callId.value)), net, ws, ip, c.callerWs, CallEnded);
      if !h1.alive then h1
      else
        var h2 := SayIfOpen(h1.s, net, ws, ip, c.calleeWs, CallEnded);
        if !h2.alive then h2 else Handled(Notify(h2.s, net, Ended(callId.value)), true)
  }

  function Logout(s: Server, ws: SocketId, ip: string, net: Net): Handled {
    Handled(RemoveUserOf(s, ws, ip, net), true)
  }

  /** One turn of the `async for` loop of connection `ws` from address `ip`. */
  function Handle(s: Server, ws: SocketId, ip: string, m: Inbound, net: Net): Handled {
    match m
    case Malformed => Fail(s, ws, ip, net)
    case Binary => Handled(s, true)
    case Closed(clean) => if clean then Handled(s, false) else Fail(s, ws, ip, net)
    case Text(data) =>
      var ev := Get(data, "event");
      if ev == Some("register") then Register(s, ws, ip, data, net)
      else if ev == Some("call_user") then CallUser(s, ws, ip, data, net)
      else if ev == Some("accept_call") then AcceptCall(s, ws, ip, data, net)
      else if ev == Some("hang_up") then HangUp(s, ws, ip, data, net)
      else if ev == Some("logout") then Logout(s, ws, ip, net)
      else Handled(s, true)
  }

  /** The connection's `async for` loop over the frames it receives, each with
      the state of the network when it is handled, until the loop ends. */
  function Serve(s: Server, ws: SocketId, ip: string, ms: seq<(Inbound, Net)>): (r: Server)
    decreases |ms|
  {
    if ms == [] then s
    else
      var h := Handle(s, ws, ip, ms[0].0, ms[0].1);
      if h.alive then Serve(h.s, ws, ip, ms[1..]) else h.s
  }

  // ---------------------------------------------------------------------
  // Properties of the handlers

  /** `register` missing a field answers `error` and changes no table. */
  lemma RegisterRejectsMissing(s: Server, ws: SocketId, ip: string, data: Json, net: Net)
    requires Delivers(net, ws)
    requires !(Truthy(Get(data, "group")) && Truthy(Get(data, "username")) && Truthy(Get(data, "port")))
    ensures Register(s, ws, ip, data, net) == Handled(s.(sent := s.sent + [Out(ws, Error(MissingRegister))]), true)
  {
  }

  /** A complete `register` for one of the two groups stores the user's
      connection, address and port under its name, and maps the name to the
      connection in `websocket_clients`, answering with the session cookie. */
  lemma RegisterStores(s: Server, ws: SocketId, ip: string, data: Json, g: string, u: string, p: string, net: Net)
    requires Inv(s) && Delivers(net, ws)
    requires Get(data, "group") == Some(g) && Get(data, "username") == Some(u) && Get(data, "port") == Some(p)
    requires (g == "sales" || g == "customers") && u != "" && p != ""
    ensures var r := Register(s, ws, ip, data, net);
      && r.alive
      && Lookup(Group(r.s, g).value, u) == Some(User(ws, ip, p))
      && Lookup(r.s.clients, u) == Some(ws)
      && r.s.sent[|s.sent|] == Out(ws, SetCookie(g + "_" + u, ip))
      && r.s.calls == s.calls
  {
    var rec := User(ws, ip, p);
    var s1 := if g == "sales" then s.(sales := Put(s.sales, u, rec)) else s.(customers := Put(s.customers, u, rec));
    var s2 := s1.(clients := Put(s1.clients, u, ws));
    var s3 := s2.(sent := s2.sent + [Out(ws, SetCookie(g + "_" + u, ip))]);
    assert Register(s, ws, ip, data, net) == Handled(Broadcast(s3, net), true);
    var b := Broadcast(s3, net);
    assert b.sent[..|s3.sent|] == s3.sent;
    assert b.sent[|s.sent|] == b.sent[..|s3.sent|][|s.sent|] == s3.sent[|s.sent|];
    PutValid(s1.clients, u, ws);
    BroadcastToClients(s3, Status(s3), s3.clients, net, u);
    if Drops(s3.clients, u, net) {
      var j :| 0 <= j < |s3.clients| && s3.clients[j].0 == u && Broken(net, s3.clients[j].1);
      LookupAt(s3.clients, j);
    }
  }

  /** A `call_user` missing a field answers `Missing call_id, ...`; a complete
      one naming a user not registered in the other group answers `User not
      found`. Either way no table changes and the loop goes on, unless that
      answer's send raises, which ends the connection through the cleanup. */
  lemma CallUserRejects(s: Server, ws: SocketId, ip: string, data: Json, net: Net)
    ensures var callId, toUser, fromGroup := Get(data, "call_id"), Get(data, "to_user"), Get(data, "from_group");
      var complete := Truthy(callId) && Truthy(toUser) && Truthy(fromGroup) && GetOr(data, "from_user", "unknown") != "";
      && (!complete ==> CallUser(s, ws, ip, data, net) == Say(s, net, ws, ip, ws, Error(MissingCallFields)))
      && (complete && !Has(Group(s, Opposite(fromGroup)).value, toUser.value) ==>
            CallUser(s, ws, ip, data, net) == Say(s, net, ws, ip, ws, Error(UserNotFound)))
    ensures Delivers(net, ws) && !(Truthy(Get(data, "call_id")) && Truthy(Get(data, "to_user"))
                                   && Truthy(Get(data, "from_group")) && GetOr(data, "from_user", "unknown") != "") ==>
      CallUser(s, ws, ip, data, net) == Handled(s.(sent := s.sent + [Out(ws, Error(MissingCallFields))]), true)
    ensures Delivers(net, ws) && Truthy(Get(data, "call_id")) && Truthy(Get(data, "to_user"))
            && Truthy(Get(data, "from_group")) && GetOr(data, "from_user", "unknown") != ""
            && !Has(Group(s, Opposite(Get(data, "from_group"))).value, data["to_user"]) ==>
      CallUser(s, ws, ip, data, net) == Handled(s.(sent := s.sent + [Out(ws, Error(UserNotFound))]), true)
    ensures !Delivers(net, ws) && !(Truthy(Get(data, "call_id")) && Truthy(Get(data, "to_user"))
                                    && Truthy(Get(data, "from_group")) && GetOr(data, "from_user", "unknown") != "") ==>
      CallUser(s, ws, ip, data, net) == Fail(s, ws, ip, net)
  {
  }

  /** A complete `call_user` to a registered user of the other group, from a
      caller registered in its group, stores the call under its id and sends
      `incoming_call` with that id to the callee and no one else. */
  lemma CallUserStores(s: Server, ws: SocketId, ip: string, data: Json, callId: string, toUser: string,
                       fromGroup: string, fromUser: string, net: Net)
    requires Get(data, "call_id") == Some(callId) && Get(data, "to_user") == Some(toUser)
    requires Get(data, "from_group") == Some(fromGroup) && GetOr(data, "from_user", "unknown") == fromUser
    requires callId != "" && toUser != "" && fromUser != ""
    requires fromGroup == "sales" || fromGroup == "customers"
    requires Has(Group(s, Opposite(Some(fromGroup))).value, toUser) && Has(Group(s, fromGroup).value, fromUser)
    requires Delivers(net, Lookup(Group(s, Opposite(Some(fromGroup))).value, toUser).value.ws)
    ensures var r := CallUser(s, ws, ip, data, net);
      var callee := Lookup(Group(s, Opposite(Some(fromGroup))).value, toUser).value;
      var caller := Lookup(Group(s, fromGroup).value, fromUser).value;
      && r.alive
      && Lookup(r.s.calls, callId) == Some(Call(ws, callee.ws, caller.ip, callee.ip, caller.port, callee.port,
                                                fromGroup, Opposite(Some(fromGroup))))
      && r.s.sent == s.sent + [Out(callee.ws, IncomingCall(callId, caller.ip, caller.port, fromUser))]
      && r.s.sales == s.sales && r.s.customers == s.customers
  {
  }

  /** `accept_call` for an unknown id answers `Call not found`; for a known one
      it sends `call_accepted` with the callee's address to the caller, tells the
      relay, and the call stays in the table. */
  lemma AcceptCallResults(s: Server, ws: SocketId, ip: string, data: Json, callId: string, net: Net)
    requires Get(data, "call_id") == Some(callId) && callId != "" && Delivers(net, ws)
    ensures var r := AcceptCall(s, ws, ip, data, net);
      && (!Has(s.calls, callId) ==> r == Handled(s.(sent := s.sent + [Out(ws, Error(CallNotFound))]), true))
      && (Has(s.calls, callId) && Delivers(net, Lookup(s.calls, callId).value.callerWs) ==>
            var c := Lookup(s.calls, callId).value;
            && r.alive && r.s.calls == s.calls
            && r.s.sent == s.sent + [Out(c.callerWs, CallAccepted(c.calleeIp, c.calleePort))]
            && (s.relay.Some? && Delivers(net, s.relay.value) ==>
                  r.s.notes == s.notes + [Accepted(callId, c.callerIp, c.calleeIp, c.callerGroup, c.calleeGroup)]))
  {
  }

  /** The `call_ended` notices of a hang-up: one to each party whose
      connection is open, caller first. */
  function EndNotices(c: Call, net: Net): seq<Out> {
    (if IsOpen(net, c.callerWs) then [Out(c.callerWs, CallEnded)] else [])
    + (if IsOpen(net, c.calleeWs) then [Out(c.calleeWs, CallEnded)] else [])
  }

  /** `hang_up` for an unknown id changes nothing; for a known one it
      deletes the call and sends `call_ended` to each open party (when the
      sends succeed). */
  lemma HangUpResults(s: Server, ws: SocketId, ip: string, data: Json, callId: string, net: Net)
    requires Get(data, "call_id") == Some(callId) && callId != ""
    ensures var r := HangUp(s, ws, ip, data, net);
      && (!Has(s.calls, callId) ==> r == Handled(s, true))
      && (Has(s.calls, callId) && !Broken(net, Lookup(s.calls, callId).value.callerWs)
                               && !Broken(net, Lookup(s.calls, callId).value.calleeWs) ==>
            && r.alive && !Has(r.s.calls, callId)
            && r.s.sent == s.sent + EndNotices(Lookup(s.calls, callId).value, net))
  {
  }

  lemma RegisterValid(s: Server, ws: SocketId, ip: string, data: Json, net: Net)
    requires Inv(s)
    ensures Inv(Register(s, ws, ip, data, net).s)
  {
    var g, u, p := Get(data, "group"), Get(data, "username"), Get(data, "port");
    CleanupValid(s, ws, ip, net);
    if Truthy(g) && Truthy(u) && Truthy(p) && Group(s, g.value).Some? {
      var rec := User(ws, ip, p.value);
      PutValid(s.sales, u.value, rec);
      PutValid(s.customers, u.value, rec);
      var s1 := if g.value == "sales" then s.(sales := Put(s.sales, u.value, rec))
                else s.(customers := Put(s.customers, u.value, rec));
      PutValid(s1.clients, u.value, ws);
      var s2 := s1.(clients := Put(s1.clients, u.value, ws));
      SayValid(s2, net, ws, ip, ws, SetCookie(g.value + "_" + u.value, ip));
      var h := Say(s2, net, ws, ip, ws, SetCookie(g.value + "_" + u.value, ip));
      BroadcastToValid(h.s, Status(h.s), h.s.clients, net);
    }
  }

  lemma CallUserValid(s: Server, ws: SocketId, ip: string, data: Json, net: Net)
    requires Inv(s)
    ensures Inv(CallUser(s, ws, ip, data, net).s)
  {
    var callId, toUser, fromGroup := Get(data, "call_id"), Get(data, "to_user"), Get(data, "from_group");
    var fromUser := GetOr(data, "from_user", "unknown");
    var toGroup := Opposite(fromGroup);
    SayValid(s, net, ws, ip, ws, Error(MissingCallFields));
    SayValid(s, net, ws, ip, ws, Error(UserNotFound));
    CleanupValid(s, ws, ip, net);
    if Truthy(callId) && Truthy(toUser) && Truthy(fromGroup) && fromUser != ""
       && Has(Group(s, toGroup).value, toUser.value) {
      var callee := Lookup(Group(s, toGroup).value, toUser.value).value;
      var from := Group(s, fromGroup.value);
      if from.Some? && Has(from.value, fromUser) {
        var caller := Lookup(from.value, fromUser).value;
        var c := Call(ws, callee.ws, caller.ip, callee.ip, caller.port, callee.port, fromGroup.value, toGroup);
        PutValid(s.calls, callId.value, c);
        SayValid(s.(calls := Put(s.calls, callId.value, c)), net, ws, ip, callee.ws,
                 IncomingCall(callId.value, caller.ip, caller.port, fromUser));
      }
    }
  }

  lemma AcceptCallValid(s: Server, ws: SocketId, ip: string, data: Json, net: Net)
    requires Inv(s)
    ensures Inv(AcceptCall(s, ws, ip, data, net).s)
  {
    SayValid(s, net, ws, ip, ws, Error(MissingCallId));
    SayValid(s, net, ws, ip, ws, Error(CallNotFound));
    var callId := Get(data, "call_id");
    if Truthy(callId) && Has(s.calls, callId.value) {
      var c := Lookup(s.calls, callId.value).value;
      SayValid(s, net, ws, ip, c.callerWs, CallAccepted(c.calleeIp, c.calleePort));
    }
  }

  lemma SayIfOpenValid(s: Server, net: Net, ws: SocketId, ip: string, to: SocketId, reply: Reply)
    requires Inv(s)
    ensures Inv(SayIfOpen(s, net, ws, ip, to, reply).s)
  {
    SayValid(s, net, ws, ip, to, reply);
  }

  lemma HangUpValid(s: Server, ws: SocketId, ip: string, data: Json, net: Net)
    requires Inv(s)
    ensures Inv(HangUp(s, ws, ip, data, net).s)
  {
    SayValid(s, net, ws, ip, ws, Error(MissingCallId));
    var callId := Get(data, "call_id");
    if Truthy(callId) && Has(s.calls, callId.value) {
      DelValid(s.calls, callId.value);
      var s1 := s.(calls := Del(s.calls, callId.value));
      var c := Lookup(s.calls, callId.value).value;
      SayIfOpenValid(s1, net, ws, ip, c.callerWs, CallEnded);
      var h1 := SayIfOpen(s1, net, ws, ip, c.callerWs, CallEnded);
      SayIfOpenValid(h1.s, net, ws, ip, c.calleeWs, CallEnded);
    }
  }

  /** Every handler keeps every table a dict. */
  lemma HandleKeepsInv(s: Server, ws: SocketId, ip: string, m: Inbound, net: Net)
    requires Inv(s)
    ensures Inv(Handle(s, ws, ip, m, net).s)
  {
    match m
    case Malformed => CleanupValid(s, ws, ip, net);
    case Binary =>
    case Closed(_) => CleanupValid(s, ws, ip, net);
    case Text(data) =>
      var ev := Get(data, "event");
      if ev == Some("register") {
        RegisterValid(s, ws, ip, data, net);
      } else if ev == Some("call_user") {
        CallUserValid(s, ws, ip, data, net);
      } else if ev == Some("accept_call") {
        AcceptCallValid(s, ws, ip, data, net);
      } else if ev == Some("hang_up") {
        HangUpValid(s, ws, ip, data, net);
      } else if ev == Some("logout") {
        RemoveUserOfValid(s, ws, ip, net);
      }
  }

  /** However a connection's frames and the network go, the tables stay dicts. */
  lemma {:induction false} ServeKeepsInv(s: Server, ws: SocketId, ip: string, ms: seq<(Inbound, Net)>)
    requires Inv(s)
    ensures Inv(Serve(s, ws, ip, ms))
    decreases |ms|
  {
    if ms != [] {
      HandleKeepsInv(s, ws, ip, ms[0].0, ms[0].1);
      var h := Handle(s, ws, ip, ms[0].0, ms[0].1);
      if h.alive {
        ServeKeepsInv(h.s, ws, ip, ms[1..]);
      }
    }
  }
}

/** The globals of `http_signaling_server.py`, updated in place by the handler
    of each connection. */
module SignalingServer {
  import opened Common
  import opened Dict
  import opened Signaling

  class State {
    var sales: Dict<string, User>
    var customers: Dict<string, User>
    var calls: Dict<string, Call>
    var clients: Dict<string, SocketId>
    var relay: Option<SocketId>
    var sent: seq<Out>
    var notes: seq<Note>

    function Snapshot(): Server
      reads this
    {
      Server(sales, customers, calls, clients, relay, sent, notes)
    }

    constructor (relayConnection: Option<SocketId>)
      ensures Snapshot() == Initial(relayConnection)
    {
      sales, customers, calls, clients := [], [], [], [];
      relay, sent, notes := relayConnection, [], [];
    }

    method NotifyRelay(net: Net, n: Note)
      modifies this
      ensures Snapshot() == Notify(old(Snapshot()), net, n)
    {
      if relay.Some? && IsOpen(net, relay.value) {
        if Delivers(net, relay.value) {
          notes := notes + [n];
        } else {
          relay := None;
        }
      }
    }

    method BroadcastUserStatus(net: Net)
      modifies this
      ensures Snapshot() == Broadcast(old(Snapshot()), net)
    {
      var status := UserStatus(Keys(sales), Keys(customers));
      var items := clients;
      var i := 0;
      while i < |items|
        invariant 0 <= i <= |items|
        invariant BroadcastTo(Snapshot(), status, items[i..], net) == Broadcast(old(Snapshot()), net)
      {
        ghost var before := Snapshot();
        var u, w := items[i].0, items[i].1;
        if IsOpen(net, w) {
          if Delivers(net, w) {
            sent := sent + [Out(w, status)];
          } else {
            clients := Del(clients, u);
          }
        }
        assert items[i..][0] == items[i] && items[i..][1..] == items[i + 1..];
        assert BroadcastTo(before, status, items[i..], net) == BroadcastTo(Snapshot(), status, items[i + 1..], net);
        i := i + 1;
      }
    }

    method Unregister(u: string, ip: string, net: Net)
      modifies this
      ensures Snapshot() == Signaling.Unregister(old(Snapshot()), u, ip, net)
    {
      if Has(clients, u) {
        clients := Del(clients, u);
      }
      BroadcastUserStatus(net);
      NotifyRelay(net, LoggedOut(ip));
    }

    /** The `for group in users` loop of `logout` and of the cleanup. */
    method RemoveUserOf(ws: SocketId, ip: string, net: Net)
      modifies this
      ensures Snapshot() == Signaling.RemoveUserOf(old(Snapshot()), ws, ip, net)
    {
      var owner := OwnerOf(sales, ws);
      if owner.Some? {
        sales := Del(sales, owner.value);
        Unregister(owner.value, ip, net);
        return;
      }
      owner := OwnerOf(customers, ws);
      if owner.Some? {
        customers := Del(customers, owner.value);
        Unregister(owner.value, ip, net);
      }
    }

    method DropCallsOf(ws: SocketId, net: Net)
      modifies this
      ensures Snapshot() == DropCalls(old(Snapshot()), Keys(old(calls)), ws, net)
    {
      var ids := Keys(calls);
      var i := 0;
      while i < |ids|
        invariant 0 <= i <= |ids|
        invariant DropCalls(Snapshot(), ids[i..], ws, net) == DropCalls(old(Snapshot()), ids, ws, net)
      {
        ghost var before := Snapshot();
        var callId := ids[i];
        if Involves(Lookup(calls, callId), ws) {
          calls := Del(calls, callId);
          NotifyRelay(net, Ended(callId));
        }
        assert ids[i..][0] == ids[i] && ids[i..][1..] == ids[i + 1..];
        assert DropCalls(before, ids[i..], ws, net) == DropCalls(Snapshot(), ids[i + 1..], ws, net);
        i := i + 1;
      }
    }

    /** The `except` branch of `handle_websocket`. */
    method Cleanup(ws: SocketId, ip: string, net: Net)
      modifies this
      ensures Snapshot() == Signaling.Cleanup(old(Snapshot()), ws, ip, net)
    {
      RemoveUserOf(ws, ip, net);
      DropCallsOf(ws, net);
    }

    method Say(ws: SocketId, ip: string, to: SocketId, reply: Reply, net: Net) returns (alive: bool)
      modifies this
      ensures Handled(Snapshot(), alive) == Signaling.Say(old(Snapshot()), net, ws, ip, to, reply)
    {
      if Delivers(net, to) {
        sent := sent + [Out(to, reply)];
        alive := true;
      } else {
        Cleanup(ws, ip, net);
        alive := false;
      }
    }

    method SayIfOpen(ws: SocketId, ip: string, to: SocketId, reply: Reply, net: Net) returns (alive: bool)
      modifies this
      ensures Handled(Snapshot(), alive) == Signaling.SayIfOpen(old(Snapshot()), net, ws, ip, to, reply)
    {
      alive := true;
      if IsOpen(net, to) {
        alive := Say(ws, ip, to, reply, net);
      }
    }

    method Register(ws: SocketId, ip: string, data: Json, net: Net) returns (alive: bool)
      modifies this
      ensures Handled(Snapshot(), alive) == Signaling.Register(old(Snapshot()), ws, ip, data, net)
    {
      var group, username, port := Get(data, "group"), Get(data, "username"), Get(data, "port");
      if !(Truthy(group) && Truthy(username) && Truthy(port)) {
        alive := Say(ws, ip, ws, Error(MissingRegister), net);
        return;
      }
      var rec := User(ws, ip, port.value);
      if group.value == "sales" {
        sales := Put(sales, username.value, rec);
      } else if group.value == "customers" {
        customers := Put(customers, username.value, rec);
      } else {
        Cleanup(ws, ip, net);  // KeyError on users[group]
        return false;
      }
      clients := Put(clients, username.value, ws);
      alive := Say(ws, ip, ws, SetCookie(group.value + "_" + username.value, ip), net);
      if alive {
        BroadcastUserStatus(net);
      }
    }

    method CallUser(ws: SocketId, ip: string, data: Json, net: Net) returns (alive: bool)
      modifies this
      ensures Handled(Snapshot(), alive) == Signaling.CallUser(old(Snapshot()), ws, ip, data, net)
    {
      var callId, toUser, fromGroup := Get(data, "call_id"), Get(data, "to_user"), Get(data, "from_group");
      var fromUser := GetOr(data, "from_user", "unknown");
      var toGroup := Opposite(fromGroup);
      if !(Truthy(callId) && Truthy(toUser) && Truthy(fromGroup) && fromUser != "") {
        alive := Say(ws, ip, ws, Error(MissingCallFields), net);
        return;
      }
      var targets := if toGroup == "sales" then sales else customers;
      if !Has(targets, toUser.value) {
        alive := Say(ws, ip, ws, Error(UserNotFound), net);
        return;
      }
      var callee := Lookup(targets, toUser.value).value;
      var from := Group(Snapshot(), fromGroup.value);
      if from.None? || !Has(from.value, fromUser) {
        Cleanup(ws, ip, net);  // KeyError on users[from_group][from_user]
        return false;
      }
      var caller := Lookup(from.value, fromUser).value;
      calls := Put(calls, callId.value, Call(ws, callee.ws, caller.ip, callee.ip, caller.port, callee.port,
                                             fromGroup.value, toGroup));
      alive := Say(ws, ip, callee.ws, IncomingCall(callId.value, caller.ip, caller.port, fromUser), net);
    }

    method AcceptCall(ws: SocketId, ip: string, data: Json, net: Net) returns (alive: bool)
      modifies this
      ensures Handled(Snapshot(), alive) == Signaling.AcceptCall(old(Snapshot()), ws, ip, data, net)
    {
      var callId := Get(data, "call_id");
      if !Truthy(callId) {
        alive := Say(ws, ip, ws, Error(MissingCallId), net);
        return;
      }
      if !Has(calls, callId.value) {
        alive := Say(ws, ip, ws, Error(CallNotFound), net);
        return;
      }
      var c := Lookup(calls, callId.value).value;
      alive := Say(ws, ip, c.callerWs, CallAccepted(c.calleeIp, c.calleePort), net);
      if alive {
        NotifyRelay(net, Accepted(callId.value, c.callerIp, c.calleeIp, c.callerGroup, c.calleeGroup));
      }
    }

    method HangUp(ws: SocketId, ip: string, data: Json, net: Net) returns (alive: bool)
      modifies this
      ensures Handled(Snapshot(), alive) == Signaling.HangUp(old(Snapshot()), ws, ip, data, net)
    {
      var callId := Get(data, "call_id");
      if !Truthy(callId) {
        alive := Say(ws, ip, ws, Error(MissingCallId), net);
        return;
      }
      alive := true;
      if Has(calls, callId.value) {
        var c := Lookup(calls, callId.value).value;
        calls := Del(calls, callId.value);
        alive := SayIfOpen(ws, ip, c.callerWs, CallEnded, net);
        if !alive {
          return;
        }
        alive := SayIfOpen(ws, ip, c.calleeWs, CallEnded, net);
        if !alive {
          return;
        }
        NotifyRelay(net, Ended(callId.value));
      }
    }

    method Handle(ws: SocketId, ip: string, m: Inbound, net: Net) returns (alive: bool)
      modifies this
      ensures Handled(Snapshot(), alive) == Signaling.Handle(old(Snapshot()), ws, ip, m, net)
    {
      match m {
        case Malformed =>
          Cleanup(ws, ip, net);
          alive := false;
        case Binary =>
          alive := true;  // non-JSON frames are ignored
        case Closed(clean) =>
          alive := false;
          if !clean {
            Cleanup(ws, ip, net);
          }
        case Text(data) =>
          var event := Get(data, "event");
          if event == Some("register") {
            alive := Register(ws, ip, data, net);
          } else if event == Some("call_user") {
            alive := CallUser(ws, ip, data, net);
          } else if event == Some("accept_call") {
            alive := AcceptCall(ws, ip, data, net);
          } else if event == Some("hang_up") {
            alive := HangUp(ws, ip, data, net);
          } else if event == Some("logout") {
            RemoveUserOf(ws, ip, net);
            alive := true;
          } else {
            alive := true;
          }
      }
    }

    /** `handle_websocket`: the loop over the connection's frames. */
    method HandleWebsocket(ws: SocketId, ip: string, ms: seq<(Inbound, Net)>)
      modifies this
      ensures Snapshot() == Serve(old(Snapshot()), ws, ip, ms)
    {
      var i := 0;
      var alive := true;
      while i < |ms| && alive
        invariant 0 <= i <= |ms|
        invariant alive ==> Serve(Snapshot(), ws, ip, ms[i..]) == Serve(old(Snapshot()), ws, ip, ms)
        invariant !alive ==> Snapshot() == Serve(old(Snapshot()), ws, ip, ms)
      {
        assert ms[i..][0] == ms[i] && ms[i..][1..] == ms[i + 1..];
        alive := Handle(ws, ip, ms[i].0, ms[i].1);
        i := i + 1;
      }
    }
  }
}
