/** The WebM/Opus relay `relay_server.py`: registered connections are relayed
    each other's audio within a call; audio that cannot be relayed is kept in
    the connection's `audio_buffer`, at most `BufferCap` entries, and the
    rest dropped. */
module OpusRelay {
  import opened Common
  import opened Dict
  import opened RelayCalls

  /** A relayed frame. */
  datatype Out = Out(to: SocketId, bytes: Chunk)

  /** `audio_clients` (name to the socket in its `{'ws': ...}`), `calls`, and
      the frames sent. */
  datatype Tables = Tables(clients: map<string, SocketId>, calls: Dict<string, Call>, sent: seq<Out>)

  /** A connection's own variables: `username` and `audio_buffer`. */
  datatype Conn = Conn(username: Option<string>, buffer: seq<Chunk>)

  datatype Inbound = Text(data: Json) | Malformed | Binary(bytes: Chunk) | Closed

  datatype Handled = Handled(s: Tables, c: Conn, alive: bool)

  const BufferCap := 50

  const Initial := Tables(map[], [], [])

  const Fresh := Conn(None, [])

  ghost predicate Inv(s: Tables) {
    Valid(s.calls)
  }

  /** `register`: `group` and `username` are required; the name is bound to
      this connection. */
  function Register(s: Tables, ws: SocketId, c: Conn, data: Json): Handled {
    if "group" !in data || "username" !in data then Handled(s, c, false)
    else Handled(s.(clients := s.clients[data["username"] := ws]), c.(username := Some(data["username"])), true)
  }

  function CallAccepted(s: Tables, c: Conn, data: Json): Handled {
    match Accept(s.calls, data)
    case None => Handled(s, c, false)
    case Some(calls) => Handled(s.(calls := calls), c, true)
  }

  /** `call_ended` deletes a present id, the empty one included. */
  function CallEnded(s: Tables, data: Json): Tables {
    var id := Get(data, "call_id");
    if id.Some? && Has(s.calls, id.value) then s.(calls := Del(s.calls, id.value)) else s
  }

  /** A frame kept for later while there is room, dropped otherwise. */
  function Hold(buffer: seq<Chunk>, bytes: Chunk): (r: seq<Chunk>)
    ensures |buffer| < BufferCap ==> r == buffer + [bytes]
    ensures |buffer| >= BufferCap ==> r == buffer
  {
    if |buffer| < BufferCap then buffer + [bytes] else buffer
  }

  /** A binary frame from a registered connection goes to its peer in the
      first call it takes part in, if the peer's socket is open (a send that
      raises ends the loop); otherwise it is held. From an unregistered
      connection it is discarded. */
  function Forward(s: Tables, c: Conn, bytes: Chunk, net: Net): Handled {
    if !Truthy(c.username) then Handled(s, c, true)
    else
      var u := c.username.value;
      var id := FirstKey(s.calls, Participant(u));
      if !Truthy(id) then Handled(s, c.(buffer := Hold(c.buffer, bytes)), true)
      else
        var peer := PeerOf(Lookup(s.calls, id.value).value, u);
        if peer !in s.clients || !IsOpen(net, s.clients[peer]) then Handled(s, c.(buffer := Hold(c.buffer, bytes)), true)
        else if !Delivers(net, s.clients[peer]) then Handled(s, c, false)
        else Handled(s.(sent := s.sent + [Out(s.clients[peer], bytes)]), c, true)
  }

  function Handle(s: Tables, ws: SocketId, c: Conn, m: Inbound, net: Net): Handled {
    match m
    case Malformed => Handled(s, c, false)
    case Closed => Handled(s, c, false)
    case Binary(bytes) => Forward(s, c, bytes, net)
    case Text(data) =>
      var event := Get(data, "event");
      if event == Some("register") then Register(s, ws, c, data)
      else if event == Some("call_accepted") then CallAccepted(s, c, data)
      else if event == Some("call_ended") then Handled(CallEnded(s, data), c, true)
      else Handled(s, c, true)
  }

  /** The `finally` clause: the connection's registered name is forgotten. */
  function Finally(s: Tables, c: Conn): Tables {
    if Truthy(c.username) && c.username.value in s.clients then s.(clients := s.clients - {c.username.value}) else s
  }

  /** The connection handler: the state and the connection's variables after
      the frames it receives, the `finally` clause run if the loop ended. */
  function Serve(s: Tables, ws: SocketId, c: Conn, ms: seq<(Inbound, Net)>): (r: Handled)
    decreases |ms|
  {
    if ms == [] then Handled(s, c, true)
    else
      var h := Handle(s, ws, c, ms[0].0, ms[0].1);
      if h.alive then Serve(h.s, ws, h.c, ms[1..]) else Handled(Finally(h.s, h.c), h.c, false)
  }

  // ---------------------------------------------------------------------
  // Properties

  /** The held frames of a connection never exceed the cap: a frame is held
      only while there is room, and once the buffer is full every further
      unrelayable frame is dropped. */
  lemma {:induction false} BufferBounded(s: Tables, ws: SocketId, c: Conn, ms: seq<(Inbound, Net)>)
    requires |c.buffer| <= BufferCap
    ensures |c.buffer| <= |Serve(s, ws, c, ms).c.buffer| <= BufferCap
    ensures Serve(s, ws, c, ms).c.buffer[..|c.buffer|] == c.buffer
    decreases |ms|
  {
    if ms != [] {
      var h := Handle(s, ws, c, ms[0].0, ms[0].1);
      assert |c.buffer| <= |h.c.buffer| <= BufferCap && h.c.buffer[..|c.buffer|] == c.buffer;
      if h.alive {
        BufferBounded(h.s, ws, h.c, ms[1..]);
        var b := Serve(h.s, ws, h.c, ms[1..]).c.buffer;
        assert b[..|c.buffer|] == b[..|h.c.buffer|][..|c.buffer|];
      }
    }
  }

  /** Audio from an unregistered connection is discarded, not held. */
  lemma UnregisteredDiscarded(s: Tables, bytes: Chunk, net: Net, buffer: seq<Chunk>)
    ensures Forward(s, Conn(None, buffer), bytes, net) == Handled(s, Conn(None, buffer), true)
  {
  }

  /** Routing of a frame from a registered sender: to the peer of the first
      call it is in (the callee for the caller, the caller for the callee)
      when the peer's socket is open; held when there is no call or the peer
      is not open. */
  lemma ForwardRoutes(s: Tables, c: Conn, bytes: Chunk, net: Net)
    requires Inv(s) && Truthy(c.username)
    ensures var u := c.username.value;
      var id := FirstKey(s.calls, Participant(u));
      var r := Forward(s, c, bytes, net);
      && (!Truthy(id) ==> r == Handled(s, c.(buffer := Hold(c.buffer, bytes)), true))
      && (Truthy(id) ==>
            var call := Lookup(s.calls, id.value).value;
            var peer := if u == call.caller then call.callee else call.caller;
            && (u == call.caller || u == call.callee)
            && (peer !in s.clients || !IsOpen(net, s.clients[peer]) ==>
                  r == Handled(s, c.(buffer := Hold(c.buffer, bytes)), true))
            && (peer in s.clients && IsOpen(net, s.clients[peer]) && !Delivers(net, s.clients[peer]) ==>
                  r == Handled(s, c, false))
            && (peer in s.clients && Delivers(net, s.clients[peer]) ==>
                  r == Handled(s.(sent := s.sent + [Out(s.clients[peer], bytes)]), c, true)))
  {
    var id := FirstKey(s.calls, Participant(c.username.value));
    if Truthy(id) {
      FirstKeyLookup(s.calls, Participant(c.username.value));
    }
  }

  /** `call_ended` deletes exactly a present id; an absent id changes nothing. */
  lemma CallEndedRemovesOnlyPresent(s: Tables, data: Json)
    requires Inv(s)
    ensures var r := CallEnded(s, data);
      && (Get(data, "call_id").Some? && Has(s.calls, data["call_id"]) ==>
            !Has(r.calls, data["call_id"]) && forall k :: k != data["call_id"] ==> Lookup(r.calls, k) == Lookup(s.calls, k))
      && (!(Get(data, "call_id").Some? && Has(s.calls, data["call_id"])) ==> r == s)
  {
    var id := Get(data, "call_id");
    if id.Some? && Has(s.calls, id.value) {
      forall k | k != id.value ensures Lookup(Del(s.calls, id.value), k) == Lookup(s.calls, k) {
        DelKeeps(s.calls, id.value, k);
      }
    }
  }

  /** Once the connection loop ends, its registered name is gone. */
  lemma ServeForgetsName(s: Tables, ws: SocketId, c: Conn, ms: seq<(Inbound, Net)>)
    ensures var r := Serve(s, ws, c, ms);
      !r.alive && Truthy(r.c.username) ==> r.c.username.value !in r.s.clients
    decreases |ms|
  {
    if ms != [] {
      var h := Handle(s, ws, c, ms[0].0, ms[0].1);
      if h.alive {
        ServeForgetsName(h.s, ws, h.c, ms[1..]);
      }
    }
  }

  lemma HandleKeepsInv(s: Tables, ws: SocketId, c: Conn, m: Inbound, net: Net)
    requires Inv(s)
    ensures Inv(Handle(s, ws, c, m, net).s)
  {
    match m
    case Malformed =>
    case Closed =>
    case Binary(bytes) =>
    case Text(data) =>
      var event := Get(data, "event");
      if event == Some("call_accepted") && Accept(s.calls, data).Some? {
        AcceptKeeps(s.calls, data, "");
      } else if event == Some("call_ended") {
        var id := Get(data, "call_id");
        if id.Some? && Has(s.calls, id.value) {
          DelKeeps(s.calls, id.value, "");
        }
      }
  }

  lemma {:induction false} ServeKeepsInv(s: Tables, ws: SocketId, c: Conn, ms: seq<(Inbound, Net)>)
    requires Inv(s)
    ensures Inv(Serve(s, ws, c, ms).s)
    decreases |ms|
  {
    if ms != [] {
      HandleKeepsInv(s, ws, c, ms[0].0, ms[0].1);
      var h := Handle(s, ws, c, ms[0].0, ms[0].1);
      if h.alive {
        ServeKeepsInv(h.s, ws, h.c, ms[1..]);
      }
    }
  }
}

/** The relay's globals `audio_clients` and `calls`, updated in place by the
    connection handler, which keeps its `audio_buffer` as a local list. */
module RelayServer {
  import opened Common
  import opened Dict
  import opened RelayCalls
  import opened OpusRelay

  class State {
    var clients: map<string, SocketId>
    var calls: Dict<string, Call>
    var sent: seq<Out>

    function Snapshot(): Tables
      reads this
    {
      Tables(clients, calls, sent)
    }

    constructor ()
      ensures Snapshot() == Initial
    {
      clients, calls, sent := map[], [], [];
    }

    method Forward(c: Conn, bytes: Chunk, net: Net) returns (c': Conn, alive: bool)
      modifies this
      ensures Handled(Snapshot(), c', alive) == OpusRelay.Forward(old(Snapshot()), c, bytes, net)
    {
      c', alive := c, true;
      if !Truthy(c.username) {
        return;  // not registered: discarded
      }
      var callId := FirstKey(calls, Participant(c.username.value));
      if Truthy(callId) {
        var peer := PeerOf(Lookup(calls, callId.value).value, c.username.value);
        if peer in clients && IsOpen(net, clients[peer]) {
          if !Delivers(net, clients[peer]) {
            return c, false;  // the send raised
          }
          sent := sent + [Out(clients[peer], bytes)];
          return;
        }
      }
      var audioBuffer := c.buffer;
      if |audioBuffer| < BufferCap {
        audioBuffer := audioBuffer + [bytes];
      }  // otherwise: buffer overflow, the frame is dropped
      c' := c.(buffer := audioBuffer);
    }

    method Handle(ws: SocketId, c: Conn, m: Inbound, net: Net) returns (c': Conn, alive: bool)
      modifies this
      ensures Handled(Snapshot(), c', alive) == OpusRelay.Handle(old(Snapshot()), ws, c, m, net)
    {
      c', alive := c, true;
      match m {
        case Malformed => alive := false;
        case Closed => alive := false;
        case Binary(bytes) => c', alive := Forward(c, bytes, net);
        case Text(data) =>
          var event := Get(data, "event");
          if event == Some("register") {
            if "group" !in data || "username" !in data {
              alive := false;  // KeyError
            } else {
              clients := clients[data["username"] := ws];
              c' := c.(username := Some(data["username"]));
            }
          } else if event == Some("call_accepted") {
            var accepted := Accept(calls, data);
            if accepted.None? {
              alive := false;  // KeyError
            } else {
              calls := accepted.value;
            }
          } else if event == Some("call_ended") {
            var callId := Get(data, "call_id");
            if callId.Some? && Has(calls, callId.value) {
              calls := Del(calls, callId.value);
            }
          }
      }
    }

    /** `relay`: the connection loop, then its `finally` clause. */
    method Relay(ws: SocketId, ms: seq<(Inbound, Net)>) returns (c: Conn)
      modifies this
      ensures Handled(Snapshot(), c, Serve(old(Snapshot()), ws, Fresh, ms).alive) == Serve(old(Snapshot()), ws, Fresh, ms)
    {
      c := Fresh;
      var i := 0;
      var alive := true;
      while i < |ms| && alive
        invariant 0 <= i <= |ms|
        invariant alive ==> Serve(Snapshot(), ws, c, ms[i..]) == Serve(old(Snapshot()), ws, Fresh, ms)
        invariant !alive ==> Handled(Finally(Snapshot(), c), c, false) == Serve(old(Snapshot()), ws, Fresh, ms)
      {
        assert ms[i..][0] == ms[i] && ms[i..][1..] == ms[i + 1..];
        c, alive := Handle(ws, c, ms[i].0, ms[i].1);
        i := i + 1;
      }
      if !alive && Truthy(c.username) && c.username.value in clients {
        clients := clients - {c.username.value};
      }
    }
  }
}
