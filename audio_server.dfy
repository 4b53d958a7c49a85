/** The all-in-one audio server `audio_server.py`: the `users` and `calls`
    tables, the handler of one client connection (control events, binary audio
    relayed to the peer, a mock transcription for the sales side) and the
    cleanup on `ConnectionClosed`.

    Two kinds of raise end a connection's loop. `ConnectionClosed` (an abnormal
    close, or a send to a connection that is gone where the code does not catch
    it) runs the cleanup; any other exception (a missing JSON key, an unknown
    group, a frame that is not a JSON object) is only logged. */
module AudioCalls {
  import opened Common
  import opened Dict

  /** `calls[call_id]` */
  datatype Call = Call(callerWs: SocketId, calleeWs: SocketId, callerGroup: string, calleeGroup: string)

  /** What the server sends: JSON messages, and relayed audio as binary frames. */
  datatype Msg =
    | Error(message: string)
    | SetCookie(sessionId: string)
    | UserStatus(sales: seq<string>, customers: seq<string>)
    | IncomingCall(fromGroup: string, fromUser: string, callId: string)
    | CallAccepted
    | CallEnded
    | Audio(data: Chunk)
    | Transcription(group: string, text: string)

  datatype Out = Out(to: SocketId, msg: Msg)

  /** `users['sales']`, `users['customers']` (username to connection) and `calls`. */
  datatype Hub = Hub(sales: Dict<string, SocketId>, customers: Dict<string, SocketId>,
                     calls: Dict<string, Call>, sent: seq<Out>)

  datatype Inbound = Text(data: Json) | Malformed | Binary(chunk: Chunk) | Closed(clean: bool)

  datatype Handled = Handled(s: Hub, alive: bool)

  const UsernameTaken := "Username already taken"
  const CallIdInUse := "Call ID already in use"
  const UserNotFound := "User not found"

  const Initial := Hub([], [], [], [])

  ghost predicate Inv(s: Hub) {
    Valid(s.sales) && Valid(s.customers) && Valid(s.calls)
  }

  function Group(s: Hub, g: string): (r: Option<Dict<string, SocketId>>)
    ensures r.Some? <==> g == "sales" || g == "customers"
  {
    if g == "sales" then Some(s.sales) else if g == "customers" then Some(s.customers) else None
  }

  /** `ws == websocket` for a user entry. */
  function Holds(ws: SocketId): (string, SocketId) -> bool {
    (u: string, w: SocketId) => w == ws
  }

  /** `call['callee_ws'] == websocket` */
  function CalleeIs(ws: SocketId): (string, Call) -> bool {
    (id: string, c: Call) => c.calleeWs == ws
  }

  /** `websocket in call.values()`: the connection is the caller or the callee
      (the other values are group names, never a connection). */
  function Involving(ws: SocketId): (string, Call) -> bool {
    (id: string, c: Call) => ws == c.callerWs || ws == c.calleeWs
  }

  /** The other party: the callee when `ws` is the caller, otherwise the caller. */
  function PeerOf(c: Call, ws: SocketId): (r: SocketId)
    ensures ws == c.callerWs ==> r == c.calleeWs
    ensures ws != c.callerWs ==> r == c.callerWs
  {
    if ws == c.callerWs then c.calleeWs else c.callerWs
  }

  /** A send whose failure is caught and logged. */
  function Send(s: Hub, net: Net, to: SocketId, m: Msg): (r: Hub)
    ensures r.(sent := s.sent) == s
    ensures r.sent == s.sent + [Out(to, m)] || r.sent == s.sent
    ensures r.sent == s.sent + [Out(to, m)] <==> Delivers(net, to)
  {
    if Delivers(net, to) then s.(sent := s.sent + [Out(to, m)]) else s
  }

  /** One of the inner loops of `broadcast_user_status`: every connection of a
      group is sent the status; failures are logged. */
  function BroadcastTo(s: Hub, status: Msg, wss: seq<SocketId>, net: Net): (r: Hub)
    ensures r.(sent := s.sent) == s
    ensures |s.sent| <= |r.sent| && r.sent[..|s.sent|] == s.sent
    ensures forall i :: |s.sent| <= i < |r.sent| ==> r.sent[i].msg == status
    decreases |wss|
  {
    if wss == [] then s else BroadcastTo(Send(s, net, wss[0], status), status, wss[1..], net)
  }

  /** `broadcast_user_status`: the current names of both groups to every
      registered connection, sales first. */
  function Broadcast(s: Hub, net: Net): (r: Hub)
    ensures r.(sent := s.sent) == s
    ensures |s.sent| <= |r.sent| && r.sent[..|s.sent|] == s.sent
    ensures forall i :: |s.sent| <= i < |r.sent| ==> r.sent[i].msg == UserStatus(Keys(s.sales), Keys(s.customers))
  {
    var status := UserStatus(Keys(s.sales), Keys(s.customers));
    BroadcastTo(BroadcastTo(s, status, Values(s.sales), net), status, Values(s.customers), net)
  }

  /** Every connection of `wss` whose send succeeds is sent the status. */
  lemma {:induction false} BroadcastToReaches(s: Hub, status: Msg, wss: seq<SocketId>, net: Net, i: int)
    requires 0 <= i < |wss| && Delivers(net, wss[i])
    ensures Out(wss[i], status) in BroadcastTo(s, status, wss, net).sent[|s.sent|..]
    decreases |wss|
  {
    var s1 := Send(s, net, wss[0], status);
    var r := BroadcastTo(s1, status, wss[1..], net);
    assert BroadcastTo(s, status, wss, net) == r;
    if i == 0 {
      assert r.sent[|s.sent|] == r.sent[..|s1.sent|][|s.sent|] == Out(wss[0], status);
    } else {
      assert wss[1..][i - 1] == wss[i];
      BroadcastToReaches(s1, status, wss[1..], net, i - 1);
      assert r.sent[|s.sent|..] == s1.sent[|s.sent|..] + r.sent[|s1.sent|..];
    }
  }

  /** `broadcast_user_status` reaches every registered connection of either
      group whose send succeeds. */
  lemma BroadcastReaches(s: Hub, net: Net, ws: SocketId)
    requires Delivers(net, ws) && (ws in Values(s.sales) || ws in Values(s.customers))
    ensures Out(ws, UserStatus(Keys(s.sales), Keys(s.customers))) in Broadcast(s, net).sent[|s.sent|..]
  {
    var status := UserStatus(Keys(s.sales), Keys(s.customers));
    var s1 := BroadcastTo(s, status, Values(s.sales), net);
    var r := BroadcastTo(s1, status, Values(s.customers), net);
    assert Broadcast(s, net) == r;
    assert r.sent[|s.sent|..] == s1.sent[|s.sent|..] + r.sent[|s1.sent|..];
    if ws in Values(s.sales) {
      var i :| 0 <= i < |Values(s.sales)| && Values(s.sales)[i] == ws;
      BroadcastToReaches(s, status, Values(s.sales), net, i);
      assert r.sent[..|s1.sent|] == s1.sent;
      assert s1.sent[|s.sent|..] == r.sent[|s.sent|..|s1.sent|];
    } else {
      var i :| 0 <= i < |Values(s.customers)| && Values(s.customers)[i] == ws;
      assert s1.customers == s.customers;
      BroadcastToReaches(s1, status, Values(s.customers), net, i);
    }
  }

  /** The `for group in users` loop of `logout` and of the cleanup: the first
      group holding the connection loses the first user bound to it, and the
      status is broadcast. */
  function RemoveUser(s: Hub, ws: SocketId, net: Net): Hub {
    match FirstKey(s.sales, Holds(ws))
    case Some(u) => Broadcast(s.(sales := Del(s.sales, u)), net)
    case None =>
      match FirstKey(s.customers, Holds(ws))
      case Some(u) => Broadcast(s.(customers := Del(s.customers, u)), net)
      case None => s
  }

  /** The loop `for call_id in list(calls.keys())` of the cleanup: each call of
      the connection is deleted and its other party told `call_ended`. */
  function EndCallsOf(s: Hub, ids: seq<string>, ws: SocketId, net: Net): (r: Hub)
    ensures r.sales == s.sales && r.customers == s.customers
    ensures |s.sent| <= |r.sent| && r.sent[..|s.sent|] == s.sent
    ensures forall i :: |s.sent| <= i < |r.sent| ==> r.sent[i].msg == CallEnded
    decreases |ids|
  {
    if ids == [] then s else EndCallsOf(EndOne(s, ids[0], ws, net), ids[1..], ws, net)
  }

  /** Call `k` exists and has the connection as caller or callee. */
  ghost predicate EndsCall(s: Hub, ws: SocketId, k: string) {
    Lookup(s.calls, k).Some? && Involving(ws)(k, Lookup(s.calls, k).value)
  }

  /** `call_ended` to the other party of call `k` as it stands in `s`. */
  function EndedNotice(s: Hub, ws: SocketId, k: string): Out
    requires Lookup(s.calls, k).Some?
  {
    Out(PeerOf(Lookup(s.calls, k).value, ws), CallEnded)
  }

  /** One turn of that loop: a call of the connection is deleted and its other
      party is sent `call_ended` (a failure is logged); any other id is
      passed over. */
  function EndOne(s: Hub, k: string, ws: SocketId, net: Net): (r: Hub)
    ensures !EndsCall(s, ws, k) ==> r == s
    ensures EndsCall(s, ws, k) ==>
      && r.sales == s.sales && r.customers == s.customers
      && r.calls == Del(s.calls, k) && !Has(r.calls, k)
      && r.sent == s.sent + (if Delivers(net, EndedNotice(s, ws, k).to) then [EndedNotice(s, ws, k)] else [])
  {
    var c := Lookup(s.calls, k);
    if c.Some? && Involving(ws)(k, c.value)
    then Send(s.(calls := Del(s.calls, k)), net, PeerOf(c.value, ws), CallEnded)
    else s
  }

  /** The `except websockets.ConnectionClosed` branch. */
  function Cleanup(s: Hub, ws: SocketId, net: Net): Hub {
    var s1 := RemoveUser(s, ws, net);
    EndCallsOf(s1, Keys(s1.calls), ws, net)
  }

  /** `ConnectionClosed` raised inside the loop. */
  function Raise(s: Hub, ws: SocketId, net: Net): Handled {
    Handled(Cleanup(s, ws, net), false)
  }

  /** Any other exception: logged, the loop ends, the tables stay as they are. */
  function Abort(s: Hub): Handled {
    Handled(s, false)
  }

  /** An uncaught send inside the loop of `ws`. */
  function Say(s: Hub, net: Net, ws: SocketId, to: SocketId, m: Msg): (r: Handled)
    ensures Delivers(net, to) ==> r == Handled(s.(sent := s.sent + [Out(to, m)]), true)
    ensures !Delivers(net, to) ==> r == Raise(s, ws, net)
  {
    if Delivers(net, to) then Handled(s.(sent := s.sent + [Out(to, m)]), true) else Raise(s, ws, net)
  }

  function Register(s: Hub, ws: SocketId, data: Json, net: Net): Handled {
    var g, u := Get(data, "group"), Get(data, "username");
    if g.None? || u.None? || Group(s, g.value).None? then Abort(s)
    else if Has(Group(s, g.value).value, u.value) then Say(s, net, ws, ws, Error(UsernameTaken))
    else
      var s1 := if g.value == "sales" then s.(sales := Put(s.sales, u.value, ws))
                else s.(customers := Put(s.customers, u.value, ws));
      var h := Say(s1, net, ws, ws, SetCookie(g.value + "_" + u.value));
      if h.alive then Handled(Broadcast(h.s, net), true) else h
  }

  function CallUser(s: Hub, ws: SocketId, data: Json, net: Net): Handled {
    var callId, toUser := Get(data, "call_id"), Get(data, "to_user");
    var fromGroup, fromUser := Get(data, "from_group"), Get(data, "from_user");
    if callId.None? || toUser.None? || fromGroup.None? || fromUser.None? then Abort(s)
    else
      var toGroup := Opposite(fromGroup);
      var targets := Group(s, toGroup).value;
      if !Has(targets, toUser.value) then Say(s, net, ws, ws, Error(UserNotFound))
      else if Has(s.calls, callId.value) then Say(s, net, ws, ws, Error(CallIdInUse))
      else
        var callee := Lookup(targets, toUser.value).value;
        var s1 := s.(calls := Put(s.calls, callId.value, Call(ws, callee, fromGroup.value, toGroup)));
        Say(s1, net, ws, callee, IncomingCall(fromGroup.value, fromUser.value, callId.value))
  }

  function AcceptCall(s: Hub, ws: SocketId, net: Net): Handled {
    var id := FirstKey(s.calls, CalleeIs(ws));
    if Truthy(id) then Say(s, net, ws, Lookup(s.calls, id.value).value.callerWs, CallAccepted)
    else Handled(s, true)
  }

  function HangUp(s: Hub, ws: SocketId, net: Net): Handled {
    var id := FirstKey(s.calls, Involving(ws));
    if Truthy(id) then
      var c := Lookup(s.calls, id.value).value;
      Handled(Send(s.(calls := Del(s.calls, id.value)), net, PeerOf(c, ws), CallEnded), true)
    else Handled(s, true)
  }

  /** `recognize_audio`: the mock text to the sales participant, if there is
      one and the call still exists. */
  function Recognize(s: Hub, net: Net, callId: string, group: string, salesWs: Option<SocketId>): Hub {
    if Has(s.calls, callId) && salesWs.Some? then Send(s, net, salesWs.value, Transcription(group, MockText(group)))
    else s
  }

  /** A binary frame: relayed to the other party of the first call that has
      the sender, and transcribed when the sender is that call's sales side. */
  function Relay(s: Hub, ws: SocketId, chunk: Chunk, net: Net): Hub {
    var id := FirstKey(s.calls, Involving(ws));
    if !Truthy(id) then s
    else
      var c := Lookup(s.calls, id.value).value;
      var s1 := Send(s, net, PeerOf(c, ws), Audio(chunk));
      var salesWs := if c.callerGroup == "sales" then Some(c.callerWs)
                     else if c.calleeGroup == "sales" then Some(c.calleeWs) else None;
      if c.callerGroup == "sales" && ws == c.callerWs then Recognize(s1, net, id.value, "sales", salesWs)
      else if c.calleeGroup == "sales" && ws == c.calleeWs then Recognize(s1, net, id.value, "customers", salesWs)
      else s1
  }

  /** One turn of the connection's `async for` loop. */
  function Handle(s: Hub, ws: SocketId, m: Inbound, net: Net): Handled {
    match m
    case Malformed => Abort(s)
    case Binary(chunk) => Handled(Relay(s, ws, chunk, net), true)
    case Closed(clean) => if clean then Handled(s, false) else Raise(s, ws, net)
    case Text(data) =>
      var ev := Get(data, "event");
      if ev == Some("register") then Register(s, ws, data, net)
      else if ev == Some("call_user") then CallUser(s, ws, data, net)
      else if ev == Some("accept_call") then AcceptCall(s, ws, net)
      else if ev == Some("hang_up") then HangUp(s, ws, net)
      else if ev == Some("logout") then Handled(RemoveUser(s, ws, net), true)
      else Handled(s, true)
  }

  function Serve(s: Hub, ws: SocketId, ms: seq<(Inbound, Net)>): Hub
    decreases |ms|
  {
    if ms == [] then s
    else
      var h := Handle(s, ws, ms[0].0, ms[0].1);
      if h.alive then Serve(h.s, ws, ms[1..]) else h.s
  }

  // ---------------------------------------------------------------------
  // Properties

  /** A name already registered in the group is refused and not overwritten. */
  lemma RegisterRefusesTaken(s: Hub, ws: SocketId, data: Json, g: string, u: string, net: Net)
    requires Get(data, "group") == Some(g) && Get(data, "username") == Some(u)
    requires Group(s, g).Some? && Has(Group(s, g).value, u) && Delivers(net, ws)
    ensures Register(s, ws, data, net) == Handled(s.(sent := s.sent + [Out(ws, Error(UsernameTaken))]), true)
  {
  }

  /** A new name is bound to the connection and answered with its cookie;
      no call changes. */
  lemma RegisterStores(s: Hub, ws: SocketId, data: Json, g: string, u: string, net: Net)
    requires Get(data, "group") == Some(g) && Get(data, "username") == Some(u)
    requires Group(s, g).Some? && !Has(Group(s, g).value, u) && Delivers(net, ws)
    ensures var r := Register(s, ws, data, net);
      && r.alive && Lookup(Group(r.s, g).value, u) == Some(ws)
      && r.s.sent[|s.sent|] == Out(ws, SetCookie(g + "_" + u))
      && r.s.calls == s.calls
  {
    var s1 := if g == "sales" then s.(sales := Put(s.sales, u, ws)) else s.(customers := Put(s.customers, u, ws));
    var s2 := s1.(sent := s1.sent + [Out(ws, SetCookie(g + "_" + u))]);
    assert Register(s, ws, data, net) == Handled(Broadcast(s2, net), true);
    var b := Broadcast(s2, net);
    assert b.sent[..|s2.sent|] == s2.sent;
    assert b.sent[|s.sent|] == b.sent[..|s2.sent|][|s.sent|];
  }

  /** `call_user` to a name not registered in the other group answers `User
      not found`; to a registered one with an id already in use, `Call ID
      already in use`; either way the call table is unchanged. */
  lemma CallUserRejects(s: Hub, ws: SocketId, data: Json, callId: string, toUser: string,
                        fromGroup: string, fromUser: string, net: Net)
    requires Get(data, "call_id") == Some(callId) && Get(data, "to_user") == Some(toUser)
    requires Get(data, "from_group") == Some(fromGroup) && Get(data, "from_user") == Some(fromUser)
    requires Delivers(net, ws)
    requires !Has(Group(s, Opposite(Some(fromGroup))).value, toUser) || Has(s.calls, callId)
    ensures var r := CallUser(s, ws, data, net);
      && r.alive && r.s.calls == s.calls
      && r.s.sent == s.sent + [Out(ws, Error(if !Has(Group(s, Opposite(Some(fromGroup))).value, toUser)
                                            then UserNotFound else CallIdInUse))]
  {
  }

  /** A call to a registered user with a fresh id is stored under that id and
      announced to the callee only. */
  lemma CallUserStores(s: Hub, ws: SocketId, data: Json, callId: string, toUser: string,
                       fromGroup: string, fromUser: string, net: Net)
    requires Get(data, "call_id") == Some(callId) && Get(data, "to_user") == Some(toUser)
    requires Get(data, "from_group") == Some(fromGroup) && Get(data, "from_user") == Some(fromUser)
    requires Has(Group(s, Opposite(Some(fromGroup))).value, toUser) && !Has(s.calls, callId)
    requires Delivers(net, Lookup(Group(s, Opposite(Some(fromGroup))).value, toUser).value)
    ensures var r := CallUser(s, ws, data, net);
      var callee := Lookup(Group(s, Opposite(Some(fromGroup))).value, toUser).value;
      && r.alive
      && Lookup(r.s.calls, callId) == Some(Call(ws, callee, fromGroup, Opposite(Some(fromGroup))))
      && r.s.sent == s.sent + [Out(callee, IncomingCall(fromGroup, fromUser, callId))]
  {
  }

  /** `accept_call` notifies the caller of the first call whose callee is this
      connection; with no such call (or one whose id is empty) nothing happens. */
  lemma AcceptCallNotifiesCaller(s: Hub, ws: SocketId, net: Net)
    ensures var id := FirstKey(s.calls, CalleeIs(ws));
      var r := AcceptCall(s, ws, net);
      && (!Truthy(id) ==> r == Handled(s, true))
      && (Truthy(id) ==>
            exists i :: 0 <= i < |s.calls| && s.calls[i].0 == id.value && s.calls[i].1.calleeWs == ws
                        && (Delivers(net, Lookup(s.calls, id.value).value.callerWs) ==>
                              r == Handled(s.(sent := s.sent + [Out(Lookup(s.calls, id.value).value.callerWs, CallAccepted)]), true)))
  {
  }

  /** `hang_up` deletes the first call containing the connection and sends
      `call_ended` to the other party only; the other calls stay. */
  lemma HangUpEndsFirstCall(s: Hub, ws: SocketId, net: Net, k: string)
    requires Valid(s.calls) && Truthy(FirstKey(s.calls, Involving(ws)))
    ensures var id := FirstKey(s.calls, Involving(ws)).value;
      var c := Lookup(s.calls, id).value;
      var r := HangUp(s, ws, net);
      && (ws == c.callerWs || ws == c.calleeWs)
      && r.alive && !Has(r.s.calls, id)
      && (k != id ==> Lookup(r.s.calls, k) == Lookup(s.calls, k))
      && r.s.sent == s.sent + (if Delivers(net, PeerOf(c, ws)) then [Out(PeerOf(c, ws), CallEnded)] else [])
  {
    var id := FirstKey(s.calls, Involving(ws)).value;
    FirstKeyLookup(s.calls, Involving(ws));
    if k != id {
      DelOther(s.calls, id, k);
    }
  }

  /** A binary frame goes to the sender's peer in its first call, and a
      transcription is produced only for frames from that call's sales side. */
  lemma RelayRoutes(s: Hub, ws: SocketId, chunk: Chunk, net: Net)
    ensures var id := FirstKey(s.calls, Involving(ws));
      var r := Relay(s, ws, chunk, net);
      && (!Truthy(id) ==> r == s)
      && (Truthy(id) ==>
            var c := Lookup(s.calls, id.value).value;
            var fromSales := (c.callerGroup == "sales" && ws == c.callerWs) || (c.calleeGroup == "sales" && ws == c.calleeWs);
            && r.calls == s.calls
            && (Delivers(net, PeerOf(c, ws)) ==> r.sent[|s.sent|] == Out(PeerOf(c, ws), Audio(chunk)))
            && (forall i :: |s.sent| <= i < |r.sent| && r.sent[i].msg.Transcription? ==> fromSales)
            && (!fromSales ==> r.sent == s.sent + (if Delivers(net, PeerOf(c, ws)) then [Out(PeerOf(c, ws), Audio(chunk))] else [])))
  {
  }

  lemma {:induction false} EndCallsOfLookup(s: Hub, ids: seq<string>, ws: SocketId, net: Net, k: string)
    ensures Lookup(EndCallsOf(s, ids, ws, net).calls, k)
         == if k in ids && Lookup(s.calls, k).Some? && Involving(ws)(k, Lookup(s.calls, k).value) then None
            else Lookup(s.calls, k)
    decreases |ids|
  {
    if ids != [] {
      EndCallsOfLookup(EndOne(s, ids[0], ws, net), ids[1..], ws, net, k);
      if ids[0] != k {
        DelOther(s.calls, ids[0], k);
      }
    }
  }

  lemma RemoveUserKeepsCalls(s: Hub, ws: SocketId, net: Net)
    ensures RemoveUser(s, ws, net).calls == s.calls
  {
  }

  /** `k` is among the ids the loop visits and is a call of the connection. */
  ghost predicate Ending(s: Hub, ids: seq<string>, ws: SocketId, k: string) {
    k in ids && EndsCall(s, ws, k)
  }

  /** The calls still to be ended after the first turn are those that were
      to be ended, less the first id, and their notices are unchanged. */
  lemma EndingShifts(s: Hub, ids: seq<string>, ws: SocketId, net: Net, k: string)
    requires ids != []
    ensures var s1 := EndOne(s, ids[0], ws, net);
      && (Ending(s1, ids[1..], ws, k) ==> Ending(s, ids, ws, k) && EndedNotice(s1, ws, k) == EndedNotice(s, ws, k))
      && (Ending(s, ids, ws, k) && k != ids[0] ==> Ending(s1, ids[1..], ws, k))
  {
    if k != ids[0] && EndsCall(s, ws, ids[0]) {
      DelOther(s.calls, ids[0], k);
    }
  }

  /** Everything the call loop sends is `call_ended` to the other party of one
      of the visited calls of the connection: here, the frame at index `i`. */
  lemma {:induction false} EndCallsOfSendsOnly(s: Hub, ids: seq<string>, ws: SocketId, net: Net, i: int)
    requires |s.sent| <= i < |EndCallsOf(s, ids, ws, net).sent|
    ensures exists k :: Ending(s, ids, ws, k) && EndCallsOf(s, ids, ws, net).sent[i] == EndedNotice(s, ws, k)
    decreases |ids|
  {
    assert ids != [];
    var s1 := EndOne(s, ids[0], ws, net);
    var r := EndCallsOf(s1, ids[1..], ws, net);
    assert EndCallsOf(s, ids, ws, net) == r;
    if i < |s1.sent| {
      assert r.sent[i] == r.sent[..|s1.sent|][i] == s1.sent[i];
      assert Ending(s, ids, ws, ids[0]) && r.sent[i] == EndedNotice(s, ws, ids[0]);
    } else {
      EndCallsOfSendsOnly(s1, ids[1..], ws, net, i);
      var k :| Ending(s1, ids[1..], ws, k) && r.sent[i] == EndedNotice(s1, ws, k);
      EndingShifts(s, ids, ws, net, k);
      assert Ending(s, ids, ws, k) && r.sent[i] == EndedNotice(s, ws, k);
    }
  }

  /** The other party of every visited call of the connection whose socket
      delivers is sent `call_ended`. */
  lemma {:induction false} EndCallsOfTells(s: Hub, ids: seq<string>, ws: SocketId, net: Net)
    ensures var r := EndCallsOf(s, ids, ws, net);
      forall k :: Ending(s, ids, ws, k) && Delivers(net, EndedNotice(s, ws, k).to) ==> EndedNotice(s, ws, k) in r.sent[|s.sent|..]
    decreases |ids|
  {
    if ids != [] {
      var s1 := EndOne(s, ids[0], ws, net);
      EndCallsOfTells(s1, ids[1..], ws, net);
      var r := EndCallsOf(s1, ids[1..], ws, net);
      forall k | Ending(s, ids, ws, k) && Delivers(net, EndedNotice(s, ws, k).to)
        ensures EndedNotice(s, ws, k) in r.sent[|s.sent|..]
      {
        if k == ids[0] {
          assert r.sent[|s.sent|] == r.sent[..|s1.sent|][|s.sent|] == EndedNotice(s, ws, k);
          assert r.sent[|s.sent|..][0] == r.sent[|s.sent|];
        } else {
          EndingShifts(s, ids, ws, net, k);
          var n := EndedNotice(s, ws, k);
          assert n in r.sent[|s1.sent|..];
          var j :| 0 <= j < |r.sent[|s1.sent|..]| && r.sent[|s1.sent|..][j] == n;
          assert r.sent[|s.sent|..][j + |s1.sent| - |s.sent|] == n;
        }
      }
    }
  }

  /** `logout`, and the first loop of the cleanup: the first sales name bound to
      the connection is removed, failing that the first customers name; the
      other names and the calls stay, and what is sent is the status of the
      new tables. With no name bound to the connection nothing changes. */
  lemma RemoveUserRemoves(s: Hub, ws: SocketId, net: Net, k: string)
    requires Inv(s)
    ensures var r := RemoveUser(s, ws, net);
      && r.calls == s.calls
      && (forall i :: |s.sent| <= i < |r.sent| ==> r.sent[i].msg == UserStatus(Keys(r.sales), Keys(r.customers)))
      && (FirstKey(s.sales, Holds(ws)).Some? ==>
            var u := FirstKey(s.sales, Holds(ws)).value;
            && Lookup(s.sales, u) == Some(ws) && !Has(r.sales, u) && r.customers == s.customers
            && (k != u ==> Lookup(r.sales, k) == Lookup(s.sales, k)))
      && (FirstKey(s.sales, Holds(ws)).None? && FirstKey(s.customers, Holds(ws)).Some? ==>
            var u := FirstKey(s.customers, Holds(ws)).value;
            && Lookup(s.customers, u) == Some(ws) && !Has(r.customers, u) && r.sales == s.sales
            && (k != u ==> Lookup(r.customers, k) == Lookup(s.customers, k)))
      && (FirstKey(s.sales, Holds(ws)).None? && FirstKey(s.customers, Holds(ws)).None? ==> r == s)
  {
    var o := FirstKey(s.sales, Holds(ws));
    if o.Some? {
      FirstKeyLookup(s.sales, Holds(ws));
      if k != o.value {
        DelOther(s.sales, o.value, k);
      }
    } else {
      var oc := FirstKey(s.customers, Holds(ws));
      if oc.Some? {
        FirstKeyLookup(s.customers, Holds(ws));
        if k != oc.value {
          DelOther(s.customers, oc.value, k);
        }
      }
    }
  }

  /** On `ConnectionClosed` every call of the connection is deleted and the
      others stay; everything the call loop sends is `call_ended` to the other
      party of a deleted call, and each such party whose socket delivers is
      told. */
  lemma CleanupEndsCalls(s: Hub, ws: SocketId, net: Net, k: string)
    ensures var r := Cleanup(s, ws, net);
      Lookup(r.calls, k) == (if EndsCall(s, ws, k) then None else Lookup(s.calls, k))
    ensures var b, r := RemoveUser(s, ws, net).sent, Cleanup(s, ws, net);
      forall i :: |b| <= i < |r.sent| ==> exists k :: EndsCall(s, ws, k) && r.sent[i] == EndedNotice(s, ws, k)
    ensures var b, r := RemoveUser(s, ws, net).sent, Cleanup(s, ws, net);
      forall k :: EndsCall(s, ws, k) && Delivers(net, EndedNotice(s, ws, k).to) ==> EndedNotice(s, ws, k) in r.sent[|b|..]
  {
    var s1 := RemoveUser(s, ws, net);
    var ids := Keys(s1.calls);
    EndCallsOfLookup(s1, ids, ws, net, k);
    EndCallsOfTells(s1, ids, ws, net);
    CleanupEndsAll(s, ws, net);
    var r := EndCallsOf(s1, ids, ws, net);
    forall i | |s1.sent| <= i < |r.sent| ensures exists k :: EndsCall(s, ws, k) && r.sent[i] == EndedNotice(s, ws, k) {
      EndCallsOfSendsOnly(s1, ids, ws, net, i);
      var k :| Ending(s1, ids, ws, k) && r.sent[i] == EndedNotice(s1, ws, k);
      assert EndsCall(s, ws, k) && r.sent[i] == EndedNotice(s, ws, k);
    }
  }

  /** The calls the cleanup loop ends are exactly the connection's calls, with
      the same notices: the logout before it does not touch the calls. */
  lemma CleanupEndsAll(s: Hub, ws: SocketId, net: Net)
    ensures var s1 := RemoveUser(s, ws, net);
      forall k :: Ending(s1, Keys(s1.calls), ws, k) <==> EndsCall(s, ws, k)
    ensures var s1 := RemoveUser(s, ws, net);
      forall k :: EndsCall(s, ws, k) ==> EndedNotice(s1, ws, k) == EndedNotice(s, ws, k)
  {
    var s1 := RemoveUser(s, ws, net);
    assert s1.calls == s.calls;
    var ids := Keys(s1.calls);
    forall k' | EndsCall(s, ws, k') ensures Ending(s1, ids, ws, k') {
      var i :| 0 <= i < |s.calls| && s.calls[i] == (k', Lookup(s.calls, k').value);
      assert ids[i] == k';
    }
  }

  // The tables stay dicts.

  lemma {:induction false} EndCallsOfValid(s: Hub, ids: seq<string>, ws: SocketId, net: Net)
    requires Inv(s)
    ensures Inv(EndCallsOf(s, ids, ws, net))
    decreases |ids|
  {
    if ids != [] {
      DelValid(s.calls, ids[0]);
      EndCallsOfValid(EndOne(s, ids[0], ws, net), ids[1..], ws, net);
    }
  }

  lemma RemoveUserValid(s: Hub, ws: SocketId, net: Net)
    requires Inv(s)
    ensures Inv(RemoveUser(s, ws, net))
  {
    var o := FirstKey(s.sales, Holds(ws));
    if o.Some? {
      DelValid(s.sales, o.value);
    } else {
      var oc := FirstKey(s.customers, Holds(ws));
      if oc.Some? {
        DelValid(s.customers, oc.value);
      }
    }
  }

  lemma CleanupValid(s: Hub, ws: SocketId, net: Net)
    requires Inv(s)
    ensures Inv(Cleanup(s, ws, net))
  {
    RemoveUserValid(s, ws, net);
    var s1 := RemoveUser(s, ws, net);
    EndCallsOfValid(s1, Keys(s1.calls), ws, net);
  }

  lemma SayValid(s: Hub, net: Net, ws: SocketId, to: SocketId, m: Msg)
    requires Inv(s)
    ensures Inv(Say(s, net, ws, to, m).s)
  {
    CleanupValid(s, ws, net);
  }

  lemma RegisterValid(s: Hub, ws: SocketId, data: Json, net: Net)
    requires Inv(s)
    ensures Inv(Register(s, ws, data, net).s)
  {
    var g, u := Get(data, "group"), Get(data, "username");
    SayValid(s, net, ws, ws, Error(UsernameTaken));
    if g.Some? && u.Some? && Group(s, g.value).Some? && !Has(Group(s, g.value).value, u.value) {
      PutValid(s.sales, u.value, ws);
      PutValid(s.customers, u.value, ws);
      var s1 := if g.value == "sales" then s.(sales := Put(s.sales, u.value, ws))
                else s.(customers := Put(s.customers, u.value, ws));
      SayValid(s1, net, ws, ws, SetCookie(g.value + "_" + u.value));
    }
  }

  lemma CallUserValid(s: Hub, ws: SocketId, data: Json, net: Net)
    requires Inv(s)
    ensures Inv(CallUser(s, ws, data, net).s)
  {
    var callId, toUser := Get(data, "call_id"), Get(data, "to_user");
    var fromGroup, fromUser := Get(data, "from_group"), Get(data, "from_user");
    SayValid(s, net, ws, ws, Error(UserNotFound));
    SayValid(s, net, ws, ws, Error(CallIdInUse));
    if callId.Some? && toUser.Some? && fromGroup.Some? && fromUser.Some? {
      var toGroup := Opposite(fromGroup);
      var targets := Group(s, toGroup).value;
      if Has(targets, toUser.value) && !Has(s.calls, callId.value) {
        var callee := Lookup(targets, toUser.value).value;
        var c := Call(ws, callee, fromGroup.value, toGroup);
        PutValid(s.calls, callId.value, c);
        SayValid(s.(calls := Put(s.calls, callId.value, c)), net, ws, callee,
                 IncomingCall(fromGroup.value, fromUser.value, callId.value));
      }
    }
  }

  lemma HandleKeepsInv(s: Hub, ws: SocketId, m: Inbound, net: Net)
    requires Inv(s)
    ensures Inv(Handle(s, ws, m, net).s)
  {
    match m
    case Malformed =>
    case Binary(_) =>
    case Closed(_) => CleanupValid(s, ws, net);
    case Text(data) =>
      var ev := Get(data, "event");
      if ev == Some("register") {
        RegisterValid(s, ws, data, net);
      } else if ev == Some("call_user") {
        CallUserValid(s, ws, data, net);
      } else if ev == Some("accept_call") {
        var id := FirstKey(s.calls, CalleeIs(ws));
        if Truthy(id) {
          SayValid(s, net, ws, Lookup(s.calls, id.value).value.callerWs, CallAccepted);
        }
      } else if ev == Some("hang_up") {
        var id := FirstKey(s.calls, Involving(ws));
        if id.Some? {
          DelValid(s.calls, id.value);
        }
      } else if ev == Some("logout") {
        RemoveUserValid(s, ws, net);
      }
  }

  lemma {:induction false} ServeKeepsInv(s: Hub, ws: SocketId, ms: seq<(Inbound, Net)>)
    requires Inv(s)
    ensures Inv(Serve(s, ws, ms))
    decreases |ms|
  {
    if ms != [] {
      HandleKeepsInv(s, ws, ms[0].0, ms[0].1);
      var h := Handle(s, ws, ms[0].0, ms[0].1);
      if h.alive {
        ServeKeepsInv(h.s, ws, ms[1..]);
      }
    }
  }
}

/** The globals of `audio_server.py`, updated in place. */
module AudioServer {
  import opened Common
  import opened Dict
  import opened AudioCalls

  class State {
    var sales: Dict<string, SocketId>
    var customers: Dict<string, SocketId>
    var calls: Dict<string, Call>
    var sent: seq<Out>

    function Snapshot(): Hub
      reads this
    {
      Hub(sales, customers, calls, sent)
    }

    constructor ()
      ensures Snapshot() == Initial
    {
      sales, customers, calls, sent := [], [], [], [];
    }

    /** A send whose failure is caught and logged. */
    method SendCaught(to: SocketId, m: Msg, net: Net)
      modifies this
      ensures Snapshot() == Send(old(Snapshot()), net, to, m)
    {
      if Delivers(net, to) {
        sent := sent + [Out(to, m)];
      }
    }

    method SendToAll(status: Msg, wss: seq<SocketId>, net: Net)
      modifies this
      ensures Snapshot() == BroadcastTo(old(Snapshot()), status, wss, net)
    {
      var i := 0;
      while i < |wss|
        invariant 0 <= i <= |wss|
        invariant BroadcastTo(Snapshot(), status, wss[i..], net) == BroadcastTo(old(Snapshot()), status, wss, net)
      {
        assert wss[i..][0] == wss[i] && wss[i..][1..] == wss[i + 1..];
        SendCaught(wss[i], status, net);
        i := i + 1;
      }
    }

    method BroadcastUserStatus(net: Net)
      modifies this
      ensures Snapshot() == Broadcast(old(Snapshot()), net)
    {
      var status := UserStatus(Keys(sales), Keys(customers));
      SendToAll(status, Values(sales), net);
      SendToAll(status, Values(customers), net);
    }

    method RemoveUser(ws: SocketId, net: Net)
      modifies this
      ensures Snapshot() == AudioCalls.RemoveUser(old(Snapshot()), ws, net)
    {
      var owner := FirstKey(sales, Holds(ws));
      if owner.Some? {
        sales := Del(sales, owner.value);
        BroadcastUserStatus(net);
        return;
      }
      owner := FirstKey(customers, Holds(ws));
      if owner.Some? {
        customers := Del(customers, owner.value);
        BroadcastUserStatus(net);
      }
    }

    method EndCallsOf(ws: SocketId, net: Net)
      modifies this
      ensures Snapshot() == AudioCalls.EndCallsOf(old(Snapshot()), Keys(old(calls)), ws, net)
    {
      var ids := Keys(calls);
      var i := 0;
      while i < |ids|
        invariant 0 <= i <= |ids|
        invariant AudioCalls.EndCallsOf(Snapshot(), ids[i..], ws, net) == AudioCalls.EndCallsOf(old(Snapshot()), ids, ws, net)
      {
        ghost var pre := Snapshot();
        assert ids[i..][0] == ids[i] && ids[i..][1..] == ids[i + 1..];
        var c := Lookup(calls, ids[i]);
        ghost var next := if c.Some? && Involving(ws)(ids[i], c.value)
                          then Send(pre.(calls := Del(pre.calls, ids[i])), net, PeerOf(c.value, ws), CallEnded)
                          else pre;
        assert AudioCalls.EndCallsOf(pre, ids[i..], ws, net) == AudioCalls.EndCallsOf(next, ids[i + 1..], ws, net);
        if c.Some? && Involving(ws)(ids[i], c.value) {
          calls := Del(calls, ids[i]);
          SendCaught(PeerOf(c.value, ws), CallEnded, net);
        }
        assert Snapshot() == next;
        i := i + 1;
      }
    }

    method Cleanup(ws: SocketId, net: Net)
      modifies this
      ensures Snapshot() == AudioCalls.Cleanup(old(Snapshot()), ws, net)
    {
      RemoveUser(ws, net);
      EndCallsOf(ws, net);
    }

    method Say(ws: SocketId, to: SocketId, m: Msg, net: Net) returns (alive: bool)
      modifies this
      ensures Handled(Snapshot(), alive) == AudioCalls.Say(old(Snapshot()), net, ws, to, m)
    {
      if Delivers(net, to) {
        sent := sent + [Out(to, m)];
        alive := true;
      } else {
        Cleanup(ws, net);  // ConnectionClosed
        alive := false;
      }
    }

    method Register(ws: SocketId, data: Json, net: Net) returns (alive: bool)
      modifies this
      ensures Handled(Snapshot(), alive) == AudioCalls.Register(old(Snapshot()), ws, data, net)
    {
      var group, username := Get(data, "group"), Get(data, "username");
      if group.None? || username.None? || Group(Snapshot(), group.value).None? {
        return false;  // KeyError
      }
      if Has(Group(Snapshot(), group.value).value, username.value) {
        alive := Say(ws, ws, Error(UsernameTaken), net);
        return;
      }
      if group.value == "sales" {
        sales := Put(sales, username.value, ws);
      } else {
        customers := Put(customers, username.value, ws);
      }
      alive := Say(ws, ws, SetCookie(group.value + "_" + username.value), net);
      if alive {
        BroadcastUserStatus(net);
      }
    }

    method CallUser(ws: SocketId, data: Json, net: Net) returns (alive: bool)
      modifies this
      ensures Handled(Snapshot(), alive) == AudioCalls.CallUser(old(Snapshot()), ws, data, net)
    {
      var callId, toUser := Get(data, "call_id"), Get(data, "to_user");
      var fromGroup, fromUser := Get(data, "from_group"), Get(data, "from_user");
      if callId.None? || toUser.None? || fromGroup.None? || fromUser.None? {
        return false;  // KeyError
      }
      var toGroup := Opposite(fromGroup);
      var targets := if toGroup == "sales" then sales else customers;
      if !Has(targets, toUser.value) {
        alive := Say(ws, ws, Error(UserNotFound), net);
        return;
      }
      if Has(calls, callId.value) {
        alive := Say(ws, ws, Error(CallIdInUse), net);
        return;
      }
      var callee := Lookup(targets, toUser.value).value;
      calls := Put(calls, callId.value, Call(ws, callee, fromGroup.value, toGroup));
      alive := Say(ws, callee, IncomingCall(fromGroup.value, fromUser.value, callId.value), net);
    }

    method AcceptCall(ws: SocketId, net: Net) returns (alive: bool)
      modifies this
      ensures Handled(Snapshot(), alive) == AudioCalls.AcceptCall(old(Snapshot()), ws, net)
    {
      var callId := FirstKey(calls, CalleeIs(ws));
      alive := true;
      if Truthy(callId) {
        alive := Say(ws, Lookup(calls, callId.value).value.callerWs, CallAccepted, net);
      }
    }

    method HangUp(ws: SocketId, net: Net) returns (alive: bool)
      modifies this
      ensures Handled(Snapshot(), alive) == AudioCalls.HangUp(old(Snapshot()), ws, net)
    {
      var callId := FirstKey(calls, Involving(ws));
      alive := true;
      if Truthy(callId) {
        var peer := PeerOf(Lookup(calls, callId.value).value, ws);
        calls := Del(calls, callId.value);
        SendCaught(peer, CallEnded, net);
      }
    }

    method RelayAudio(ws: SocketId, chunk: Chunk, net: Net)
      modifies this
      ensures Snapshot() == Relay(old(Snapshot()), ws, chunk, net)
    {
      var callId := FirstKey(calls, Involving(ws));
      if !Truthy(callId) {
        return;
      }
      var c := Lookup(calls, callId.value).value;
      SendCaught(PeerOf(c, ws), Audio(chunk), net);
      var salesWs := if c.callerGroup == "sales" then Some(c.callerWs)
                     else if c.calleeGroup == "sales" then Some(c.calleeWs) else None;
      var group := "";
      if c.callerGroup == "sales" && ws == c.callerWs {
        group := "sales";
      } else if c.calleeGroup == "sales" && ws == c.calleeWs {
        group := "customers";
      } else {
        return;
      }
      // recognize_audio
      if Has(calls, callId.value) && salesWs.Some? {
        SendCaught(salesWs.value, Transcription(group, MockText(group)), net);
      }
    }

    method Handle(ws: SocketId, m: Inbound, net: Net) returns (alive: bool)
      modifies this
      ensures Handled(Snapshot(), alive) == AudioCalls.Handle(old(Snapshot()), ws, m, net)
    {
      match m {
        case Malformed =>
          alive := false;
        case Binary(chunk) =>
          RelayAudio(ws, chunk, net);
          alive := true;
        case Closed(clean) =>
          alive := false;
          if !clean {
            Cleanup(ws, net);
          }
        case Text(data) =>
          var event := Get(data, "event");
          if event == Some("register") {
            alive := Register(ws, data, net);
          } else if event == Some("call_user") {
            alive := CallUser(ws, data, net);
          } else if event == Some("accept_call") {
            alive := AcceptCall(ws, net);
          } else if event == Some("hang_up") {
            alive := HangUp(ws, net);
          } else if event == Some("logout") {
            RemoveUser(ws, net);
            alive := true;
          } else {
            alive := true;
          }
      }
    }

    /** `handle_client`: the loop over the connection's frames. */
    method HandleClient(ws: SocketId, ms: seq<(Inbound, Net)>)
      modifies this
      ensures Snapshot() == Serve(old(Snapshot()), ws, ms)
    {
      var i := 0;
      var alive := true;
      while i < |ms| && alive
        invariant 0 <= i <= |ms|
        invariant alive ==> Serve(Snapshot(), ws, ms[i..]) == Serve(old(Snapshot()), ws, ms)
        invariant !alive ==> Snapshot() == Serve(old(Snapshot()), ws, ms)
      {
        assert ms[i..][0] == ms[i] && ms[i..][1..] == ms[i + 1..];
        alive := Handle(ws, ms[i].0, ms[i].1);
        i := i + 1;
      }
    }
  }
}
