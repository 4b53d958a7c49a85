/** The media relay `udp_relay_server.py`: registered connections are relayed
    each other's audio within a call, relayed audio is queued for a mock
    transcription, and a background task sends the mock transcript to the
    call's sales participants. */
module UdpForwarding {
  import opened Common
  import opened Dict
  import opened RelayCalls

  /** What the relay sends: relayed audio, or a `transcription` event. */
  datatype Packet = Audio(bytes: Chunk) | Transcription(callId: string, group: string, text: string)

  datatype Out = Out(to: SocketId, packet: Packet)

  /** An entry of `audio_queue`: `(call_id, group, audio_data)`. */
  datatype Pending = Pending(callId: string, group: string, bytes: Chunk)

  /** `udp_clients`, `calls`, `audio_queue` and the frames sent. */
  datatype Relay = Relay(clients: map<string, SocketId>, calls: Dict<string, Call>, queue: seq<Pending>, sent: seq<Out>)

  datatype Inbound = Text(data: Json) | Malformed | Binary(bytes: Chunk) | Closed

  /** A handler's new state, the connection's `username` variable, and whether
      the `async for` loop goes on. */
  datatype Handled = Handled(s: Relay, username: Option<string>, alive: bool)

  const Initial := Relay(map[], [], [], [])

  ghost predicate Inv(s: Relay) {
    Valid(s.calls)
  }

  /** `register`: `group` and `username` are required; the name is bound to
      this connection. */
  function Register(s: Relay, ws: SocketId, username: Option<string>, data: Json): Handled {
    if "group" !in data || "username" !in data then Handled(s, username, false)
    else Handled(s.(clients := s.clients[data["username"] := ws]), Some(data["username"]), true)
  }

  function CallAccepted(s: Relay, username: Option<string>, data: Json): Handled {
    match Accept(s.calls, data)
    case None => Handled(s, username, false)
    case Some(calls) => Handled(s.(calls := calls), username, true)
  }

  /** `call_ended` deletes a call whose id is non-empty and present. */
  function CallEnded(s: Relay, data: Json): Relay {
    var id := Get(data, "call_id");
    if Truthy(id) && Has(s.calls, id.value) then s.(calls := Del(s.calls, id.value)) else s
  }

  /** `logout` forgets a non-empty registered name. */
  function Logout(s: Relay, data: Json): Relay {
    var name := Get(data, "username");
    if Truthy(name) && name.value in s.clients then s.(clients := s.clients - {name.value}) else s
  }

  /** A binary frame from a registered connection goes to its peer in the
      first call it takes part in, if the peer's socket is open; only what is
      relayed is queued for transcription, tagged with the sender's group. A
      send that raises ends the connection loop. */
  function Forward(s: Relay, username: Option<string>, bytes: Chunk, net: Net): Handled {
    if !Truthy(username) then Handled(s, username, true)
    else
      var id := FirstKey(s.calls, Participant(username.value));
      if !Truthy(id) then Handled(s, username, true)
      else
        var c := Lookup(s.calls, id.value).value;
        var peer := PeerOf(c, username.value);
        if peer !in s.clients || !IsOpen(net, s.clients[peer]) then Handled(s, username, true)
        else if !Delivers(net, s.clients[peer]) then Handled(s, username, false)
        else
          Handled(s.(sent := s.sent + [Out(s.clients[peer], Audio(bytes))],
                     queue := s.queue + [Pending(id.value, SenderGroup(c, username.value), bytes)]),
                  username, true)
  }

  function Handle(s: Relay, ws: SocketId, username: Option<string>, m: Inbound, net: Net): Handled {
    match m
    case Malformed => Handled(s, username, false)
    case Closed => Handled(s, username, false)
    case Binary(bytes) => Forward(s, username, bytes, net)
    case Text(data) =>
      var event := Get(data, "event");
      if event == Some("register") then Register(s, ws, username, data)
      else if event == Some("call_accepted") then CallAccepted(s, username, data)
      else if event == Some("call_ended") then Handled(CallEnded(s, data), username, true)
      else if event == Some("logout") then Handled(Logout(s, data), username, true)
      else Handled(s, username, true)
  }

  /** The `finally` clause: the connection's registered name is forgotten. */
  function Finally(s: Relay, username: Option<string>): Relay {
    if Truthy(username) && username.value in s.clients then s.(clients := s.clients - {username.value}) else s
  }

  function Serve(s: Relay, ws: SocketId, username: Option<string>, ms: seq<(Inbound, Net)>): Relay
    decreases |ms|
  {
    if ms == [] then s
    else
      var h := Handle(s, ws, username, ms[0].0, ms[0].1);
      if h.alive then Serve(h.s, ws, h.username, ms[1..]) else Finally(h.s, h.username)
  }

  /** Where the `async for` loop stops: the state, the connection's username
      and whether the loop is still running once the messages run out. */
  function Loop(s: Relay, ws: SocketId, username: Option<string>, ms: seq<(Inbound, Net)>): Handled
    decreases |ms|
  {
    if ms == [] then Handled(s, username, true)
    else
      var h := Handle(s, ws, username, ms[0].0, ms[0].1);
      if h.alive then Loop(h.s, ws, h.username, ms[1..]) else h
  }

  // ---------------------------------------------------------------------
  // The transcription task

  /** The send loop of `transcribe_audio`: each user with an open registered
      socket is sent the event; a send that raises is caught and skipped. */
  function Notify(sent: seq<Out>, clients: map<string, SocketId>, users: seq<string>, net: Net, p: Packet): seq<Out>
    decreases |users|
  {
    if users == [] then sent
    else if users[0] in clients && IsOpen(net, clients[users[0]]) && Delivers(net, clients[users[0]]) then
      Notify(sent + [Out(clients[users[0]], p)], clients, users[1..], net, p)
    else Notify(sent, clients, users[1..], net, p)
  }

  /** One entry of the queue: if its call still exists, the mock transcript
      goes to the call's sales participants. */
  function Transcribe(s: Relay, p: Pending, net: Net): Relay {
    if !Has(s.calls, p.callId) then s
    else
      var c := Lookup(s.calls, p.callId).value;
      s.(sent := Notify(s.sent, s.clients, SalesOf(c), net, Transcription(p.callId, p.group, MockText(p.group))))
  }

  /** The task over everything queued, oldest first. */
  function TranscribeAll(s: Relay, net: Net): (r: Relay)
    ensures r.queue == [] && r.calls == s.calls && r.clients == s.clients
    decreases |s.queue|
  {
    if s.queue == [] then s
    else TranscribeAll(Transcribe(s.(queue := s.queue[1..]), s.queue[0], net), net)
  }

  // ---------------------------------------------------------------------
  // Properties

  /** `call_accepted` stores the call; with a field missing the loop ends and
      nothing changes. */
  lemma CallAcceptedStores(s: Relay, username: Option<string>, data: Json)
    ensures var r := CallAccepted(s, username, data);
      && (r.alive <==> "call_id" in data && "from_user" in data && "to_user" in data
                       && "caller_group" in data && "callee_group" in data)
      && (!r.alive ==> r.s == s)
      && (r.alive ==> Lookup(r.s.calls, data["call_id"])
                      == Some(Call(data["from_user"], data["to_user"], data["caller_group"], data["callee_group"])))
  {
  }

  /** `call_ended` deletes exactly a present, non-empty id; `logout` removes
      exactly a present, non-empty name. */
  lemma EndAndLogoutRemoveOnlyPresent(s: Relay, data: Json)
    requires Inv(s)
    ensures var r := CallEnded(s, data);
      && (Truthy(Get(data, "call_id")) && Has(s.calls, data["call_id"]) ==>
            !Has(r.calls, data["call_id"]) && forall k :: k != data["call_id"] ==> Lookup(r.calls, k) == Lookup(s.calls, k))
      && (!(Truthy(Get(data, "call_id")) && Has(s.calls, data["call_id"])) ==> r == s)
    ensures var r := Logout(s, data);
      && (Truthy(Get(data, "username")) && data["username"] in s.clients ==>
            r.clients == s.clients - {data["username"]} && r.calls == s.calls)
      && (!(Truthy(Get(data, "username")) && data["username"] in s.clients) ==> r == s)
  {
    var id := Get(data, "call_id");
    if Truthy(id) && Has(s.calls, id.value) {
      forall k | k != id.value ensures Lookup(Del(s.calls, id.value), k) == Lookup(s.calls, k) {
        DelKeeps(s.calls, id.value, k);
      }
    }
  }

  /** Audio from an unregistered connection is dropped. */
  lemma UnregisteredDropped(s: Relay, bytes: Chunk, net: Net)
    ensures Forward(s, None, bytes, net) == Handled(s, None, true)
    ensures Forward(s, Some(""), bytes, net) == Handled(s, Some(""), true)
  {
  }

  /** Routing of a frame: it goes to the peer (the callee for the caller, the
      caller for the callee) of the first call the sender is in, only if the
      peer's socket is open, and exactly the relayed frames are queued, with
      the sender's group. */
  lemma ForwardRoutes(s: Relay, u: string, bytes: Chunk, net: Net)
    requires Inv(s) && u != ""
    ensures var id := FirstKey(s.calls, Participant(u));
      var r := Forward(s, Some(u), bytes, net);
      && (!Truthy(id) ==> r == Handled(s, Some(u), true))
      && (Truthy(id) ==>
            var c := Lookup(s.calls, id.value).value;
            var peer := if u == c.caller then c.callee else c.caller;
            && (u == c.caller || u == c.callee)
            && (peer !in s.clients || !IsOpen(net, s.clients[peer]) ==> r == Handled(s, Some(u), true))
            && (peer in s.clients && IsOpen(net, s.clients[peer]) && !Delivers(net, s.clients[peer]) ==>
                  r == Handled(s, Some(u), false))
            && (peer in s.clients && Delivers(net, s.clients[peer]) ==>
                  r == Handled(s.(sent := s.sent + [Out(s.clients[peer], Audio(bytes))],
                                  queue := s.queue + [Pending(id.value, if u == c.caller then c.callerGroup else c.calleeGroup, bytes)]),
                               Some(u), true)))
  {
    var id := FirstKey(s.calls, Participant(u));
    if Truthy(id) {
      FirstKeyLookup(s.calls, Participant(u));
    }
  }

  /** Something is queued for transcription only together with the relayed frame. */
  lemma QueuedOnlyWhenRelayed(s: Relay, username: Option<string>, bytes: Chunk, net: Net)
    ensures var r := Forward(s, username, bytes, net).s;
      && (r.queue != s.queue ==> |r.sent| == |s.sent| + 1 && r.sent[|s.sent|].packet == Audio(bytes))
      && (r.queue == s.queue ==> r.sent == s.sent)
  {
  }

  /** Every event the send loop emits goes to the open socket of a registered
      user among `users` and carries the packet; when every such socket
      delivers, each of them is reached. */
  lemma {:induction false} NotifyOnlyTo(sent: seq<Out>, clients: map<string, SocketId>, users: seq<string>, net: Net, p: Packet)
    ensures var r := Notify(sent, clients, users, net, p);
      |sent| <= |r| && r[..|sent|] == sent
    ensures var r := Notify(sent, clients, users, net, p);
      forall i :: |sent| <= i < |r| ==> r[i].packet == p && IsOpen(net, r[i].to) && RegisteredAmong(users, clients, r[i].to)
    ensures (forall u :: u in users && u in clients && IsOpen(net, clients[u]) ==> Delivers(net, clients[u])) ==>
      forall u :: u in users && u in clients && IsOpen(net, clients[u]) ==>
        Reached(Notify(sent, clients, users, net, p), |sent|, clients[u])
    decreases |users|
  {
    if users != [] {
      var u := users[0];
      assert forall v :: v in users <==> v == u || v in users[1..];
      var here := if u in clients && IsOpen(net, clients[u]) && Delivers(net, clients[u]) then [Out(clients[u], p)] else [];
      if here == [] {
        assert sent + here == sent;
      }
      NotifyOnlyTo(sent + here, clients, users[1..], net, p);
      var r := Notify(sent, clients, users, net, p);
      assert r == Notify(sent + here, clients, users[1..], net, p);
      assert r[..|sent + here|] == sent + here;
      assert r[..|sent|] == (sent + here)[..|sent|];
      forall i | |sent| <= i < |r| ensures r[i].packet == p && IsOpen(net, r[i].to) && RegisteredAmong(users, clients, r[i].to) {
        if i < |sent + here| {
          assert r[i] == (sent + here)[i] == Out(clients[u], p);
        } else {
          assert |sent + here| <= i;
          assert RegisteredAmong(users[1..], clients, r[i].to);
          var v :| v in users[1..] && v in clients && clients[v] == r[i].to;
        }
      }
      if forall v :: v in users && v in clients && IsOpen(net, clients[v]) ==> Delivers(net, clients[v]) {
        forall v | v in users && v in clients && IsOpen(net, clients[v]) ensures Reached(r, |sent|, clients[v]) {
          if v == u {
            assert r[|sent|] == (sent + here)[|sent|] == Out(clients[u], p);
          } else {
            var i :| |sent + here| <= i < |r| && r[i].to == clients[v];
          }
        }
      }
    }
  }

  /** Some frame from index `from` on is addressed to `to`. */
  ghost predicate Reached(r: seq<Out>, from: nat, to: SocketId) {
    exists i :: from <= i < |r| && r[i].to == to
  }

  /** `to` is the socket a user among `users` registered with. */
  ghost predicate RegisteredAmong(users: seq<string>, clients: map<string, SocketId>, to: SocketId) {
    exists u :: u in users && u in clients && clients[u] == to
  }

  /** A queued frame whose call has ended produces nothing; otherwise the mock
      transcript goes only to the call's sales participants. */
  lemma TranscribeOnlySales(s: Relay, p: Pending, net: Net)
    requires Inv(s)
    ensures var r := Transcribe(s, p, net);
      && (!Has(s.calls, p.callId) ==> r == s)
      && |s.sent| <= |r.sent| && r.sent[..|s.sent|] == s.sent
      && (forall i :: |s.sent| <= i < |r.sent| ==>
            && Has(s.calls, p.callId)
            && r.sent[i].packet == Transcription(p.callId, p.group, MockText(p.group))
            && RegisteredAmong(SalesOf(Lookup(s.calls, p.callId).value), s.clients, r.sent[i].to))
  {
    if Has(s.calls, p.callId) {
      var c := Lookup(s.calls, p.callId).value;
      NotifyOnlyTo(s.sent, s.clients, SalesOf(c), net, Transcription(p.callId, p.group, MockText(p.group)));
    }
  }

  /** `Serve` is the loop followed by its `finally` clause; a connection that
      closes ends the loop, and once the loop has ended the name the
      connection registered is no longer in `udp_clients`. */
  lemma {:induction false} ServeForgetsName(s: Relay, ws: SocketId, username: Option<string>, ms: seq<(Inbound, Net)>)
    ensures var o := Loop(s, ws, username, ms);
      Serve(s, ws, username, ms) == if o.alive then o.s else Finally(o.s, o.username)
    ensures ms != [] && ms[|ms| - 1].0.Closed? ==> !Loop(s, ws, username, ms).alive
    ensures var o := Loop(s, ws, username, ms);
      !o.alive && Truthy(o.username) ==> o.username.value !in Serve(s, ws, username, ms).clients
    decreases |ms|
  {
    if ms != [] {
      var h := Handle(s, ws, username, ms[0].0, ms[0].1);
      if h.alive {
        ServeForgetsName(h.s, ws, h.username, ms[1..]);
        if ms[|ms| - 1].0.Closed? {
          assert |ms| != 1;
          assert ms[1..][|ms[1..]| - 1] == ms[|ms| - 1];
        }
      }
    }
  }

  lemma HandleKeepsInv(s: Relay, ws: SocketId, username: Option<string>, m: Inbound, net: Net)
    requires Inv(s)
    ensures Inv(Handle(s, ws, username, m, net).s)
  {
    match m
    case Malformed =>
    case Closed =>
    case Binary(bytes) =>
    case Text(data) =>
      var event := Get(data, "event");
      if event == Some("call_accepted") && Accept(s.calls, data).Some? {
        AcceptKeeps(s.calls, data, "");
      } else if event == Some("call_ended") {
        var id := Get(data, "call_id");
        if Truthy(id) && Has(s.calls, id.value) {
          DelKeeps(s.calls, id.value, "");
        }
      }
  }

  lemma {:induction false} ServeKeepsInv(s: Relay, ws: SocketId, username: Option<string>, ms: seq<(Inbound, Net)>)
    requires Inv(s)
    ensures Inv(Serve(s, ws, username, ms))
    decreases |ms|
  {
    if ms != [] {
      HandleKeepsInv(s, ws, username, ms[0].0, ms[0].1);
      var h := Handle(s, ws, username, ms[0].0, ms[0].1);
      if h.alive {
        ServeKeepsInv(h.s, ws, h.username, ms[1..]);
      }
    }
  }
}

/** The relay's globals `udp_clients`, `calls` and `audio_queue`, updated in
    place by the connection handler and the transcription task. */
module UdpRelayServer {
  import opened Common
  import opened Dict
  import opened RelayCalls
  import opened UdpForwarding

  class State {
    var clients: map<string, SocketId>
    var calls: Dict<string, Call>
    var queue: seq<Pending>
    var sent: seq<Out>

    function Snapshot(): Relay
      reads this
    {
      Relay(clients, calls, queue, sent)
    }

    constructor ()
      ensures Snapshot() == Initial
    {
      clients, calls, queue, sent := map[], [], [], [];
    }

    method Register(ws: SocketId, username: Option<string>, data: Json) returns (name: Option<string>, alive: bool)
      modifies this
      ensures Handled(Snapshot(), name, alive) == UdpForwarding.Register(old(Snapshot()), ws, username, data)
    {
      if "group" !in data || "username" !in data {
        return username, false;  // KeyError
      }
      name := Some(data["username"]);
      clients := clients[name.value := ws];
      alive := true;
    }

    method Forward(username: Option<string>, bytes: Chunk, net: Net) returns (alive: bool)
      modifies this
      ensures Handled(Snapshot(), username, alive) == UdpForwarding.Forward(old(Snapshot()), username, bytes, net)
    {
      alive := true;
      if !Truthy(username) {
        return;  // not registered
      }
      var callId := FirstKey(calls, Participant(username.value));
      if !Truthy(callId) {
        return;  // no call
      }
      var call := Lookup(calls, callId.value).value;
      var peer := PeerOf(call, username.value);
      if peer !in clients || !IsOpen(net, clients[peer]) {
        return;  // no active peer socket
      }
      if !Delivers(net, clients[peer]) {
        return false;  // the send raised
      }
      sent := sent + [Out(clients[peer], Audio(bytes))];
      queue := queue + [Pending(callId.value, SenderGroup(call, username.value), bytes)];
    }

    method Handle(ws: SocketId, username: Option<string>, m: Inbound, net: Net) returns (name: Option<string>, alive: bool)
      modifies this
      ensures Handled(Snapshot(), name, alive) == UdpForwarding.Handle(old(Snapshot()), ws, username, m, net)
    {
      name, alive := username, true;
      match m {
        case Malformed => alive := false;
        case Closed => alive := false;
        case Binary(bytes) => alive := Forward(username, bytes, net);
        case Text(data) =>
          var event := Get(data, "event");
          if event == Some("register") {
            name, alive := Register(ws, username, data);
          } else if event == Some("call_accepted") {
            var accepted := Accept(calls, data);
            if accepted.None? {
              alive := false;  // KeyError
            } else {
              calls := accepted.value;
            }
          } else if event == Some("call_ended") {
            var callId := Get(data, "call_id");
            if Truthy(callId) && Has(calls, callId.value) {
              calls := Del(calls, callId.value);
            }
          } else if event == Some("logout") {
            var leaving := Get(data, "username");
            if Truthy(leaving) && leaving.value in clients {
              clients := clients - {leaving.value};
            }
          }
      }
    }

    /** `udp_relay`: the connection loop, then its `finally` clause. */
    method UdpRelay(ws: SocketId, ms: seq<(Inbound, Net)>)
      modifies this
      ensures Snapshot() == Serve(old(Snapshot()), ws, None, ms)
    {
      var username: Option<string> := None;
      var i := 0;
      var alive := true;
      while i < |ms| && alive
        invariant 0 <= i <= |ms|
        invariant alive ==> Serve(Snapshot(), ws, username, ms[i..]) == Serve(old(Snapshot()), ws, None, ms)
        invariant !alive ==> Finally(Snapshot(), username) == Serve(old(Snapshot()), ws, None, ms)
      {
        assert ms[i..][0] == ms[i] && ms[i..][1..] == ms[i + 1..];
        username, alive := Handle(ws, username, ms[i].0, ms[i].1);
        i := i + 1;
      }
      if !alive && Truthy(username) && username.value in clients {
        clients := clients - {username.value};
      }
    }

    /** The send loop of `transcribe_audio`. */
    method Notify(users: seq<string>, net: Net, p: Packet)
      modifies this
      ensures sent == UdpForwarding.Notify(old(sent), clients, users, net, p)
      ensures clients == old(clients) && calls == old(calls) && queue == old(queue)
    {
      var i := 0;
      while i < |users|
        invariant 0 <= i <= |users|
        invariant clients == old(clients) && calls == old(calls) && queue == old(queue)
        invariant UdpForwarding.Notify(sent, clients, users[i..], net, p) == UdpForwarding.Notify(old(sent), clients, users, net, p)
      {
        assert users[i..][0] == users[i] && users[i..][1..] == users[i + 1..];
        if users[i] in clients && IsOpen(net, clients[users[i]]) {
          if Delivers(net, clients[users[i]]) {
            sent := sent + [Out(clients[users[i]], p)];
          }  // otherwise the send raised and was caught
        }
        i := i + 1;
      }
    }

    /** `transcribe_audio` over everything queued. */
    method TranscribeAudio(net: Net)
      modifies this
      ensures Snapshot() == TranscribeAll(old(Snapshot()), net)
    {
      while queue != []
        invariant TranscribeAll(Snapshot(), net) == TranscribeAll(old(Snapshot()), net)
        decreases |queue|
      {
        var p := queue[0];
        queue := queue[1..];
        if Has(calls, p.callId) {
          var call := Lookup(calls, p.callId).value;
          Notify(SalesOf(call), net, Transcription(p.callId, p.group, MockText(p.group)));
        }
      }
    }
  }
}
