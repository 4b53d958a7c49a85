/** The older browser client `audio.js`: the same call control as
    `static/audio.js` without the transcription socket, a polling drain loop for
    inbound audio, and transcription text accumulated into two text boxes.

    As for the newer client, the handlers are step functions on a `Legacy`
    value, and the class `LegacySession` in the second module holds the state in
    fields and is proved to perform those steps. */
module LegacyClient {
  import opened Common
  import opened ClientWire
  import opened MediaSink

  /** `currentCall` of this client: no language and no transcript lists. */
  datatype LegacyCall = LegacyCall(
    group: Option<string>, username: Option<string>, callId: Option<string>, peer: Option<Peer>)

  /** The login form: the group selector and the username box (both always read
      as strings). */
  datatype LegacyForm = LegacyForm(group: string, username: string)

  /** A JSON text frame on the relay socket. Only `transcription` events are
      acted on. */
  datatype RelayNote =
    | TranscriptionNote(callId: Option<string>, group: Option<string>, text: string)
    | OtherNote

  datatype Legacy = Legacy(
    call: LegacyCall,
    salesText: string,
    customerText: string,
    signalingHandlers: bool,
    relay: Channel,
    capturing: bool,
    audioChunks: seq<Chunk>,
    isProcessing: bool,
    mediaOpen: bool,
    sink: Option<Sink>,
    signalOut: seq<Msg>,
    relayOut: seq<Frame>)

  /** The state handlers keep: the MediaSource only reads `open` once its
      SourceBuffer exists. */
  ghost predicate Valid(s: Legacy) {
    s.mediaOpen ==> s.sink.Some?
  }

  /** Right after `initAudio`: the first MediaSource has not opened yet. */
  const Initial := Legacy(LegacyCall(None, None, None, None), "", "", true, Channel(false, true), false,
                          [], false, false, None, [], [])

  // ---------------------------------------------------------------------
  // Identity and call control

  /** `register(group, username)`: null or empty arguments fall back to the form;
      with either still empty it only alerts. Otherwise the identity goes to the
      signaling server, and to the relay when its socket is open. */
  function Register(s: Legacy, group: Option<string>, username: Option<string>, form: LegacyForm): (r: Legacy)
    ensures var g, u := Pick(group, Some(form.group)), Pick(username, Some(form.username));
      if !Truthy(g) || !Truthy(u) then r == s
      else
        && r.call == s.call.(group := g, username := u)
        && r.signalOut == s.signalOut + [Msg.Register(g.value, u.value, None)]
        && r.relayOut == s.relayOut + (if s.relay.open then [Text(Msg.Register(g.value, u.value, None))] else [])
        && r == s.(call := r.call, signalOut := r.signalOut, relayOut := r.relayOut)
  {
    var g := Pick(group, Some(form.group));
    var u := Pick(username, Some(form.username));
    if !Truthy(g) || !Truthy(u) then s
    else
      var m := Msg.Register(g.value, u.value, None);
      s.(signalOut := s.signalOut + [m],
         relayOut := if s.relay.open then s.relayOut + [Text(m)] else s.relayOut,
         call := s.call.(group := g, username := u))
  }

  /** `callUser(to_user)` at time `now`: refused while a call id is set; otherwise
      the id is made from the time and the username, the peer is in the opposite
      group, and the `call_user` message carries that id. */
  function CallUser(s: Legacy, toUser: string, now: nat): (r: Legacy)
    ensures Truthy(s.call.callId) ==> r == s
    ensures !Truthy(s.call.callId) ==>
      && r.call == s.call.(callId := Some(CallIdFor(now, s.call.username)),
                           peer := Some(Peer(Some(Opposite(s.call.group)), Some(toUser))))
      && r.signalOut == s.signalOut + [Msg.CallUser(s.call.group, s.call.username, toUser, r.call.callId.value)]
      && r == s.(call := r.call, signalOut := r.signalOut)
  {
    if Truthy(s.call.callId) then s
    else
      var id := CallIdFor(now, s.call.username);
      s.(call := s.call.(callId := Some(id), peer := Some(Peer(Some(Opposite(s.call.group)), Some(toUser)))),
         signalOut := s.signalOut + [Msg.CallUser(s.call.group, s.call.username, toUser, id)])
  }

  /** `acceptCall()`: throws before sending when there is no peer. */
  function AcceptCall(s: Legacy): (r: Legacy)
    ensures s.call.peer.None? ==> r == s
    ensures s.call.peer.Some? ==>
      r == s.(signalOut := s.signalOut + [Msg.AcceptCall(s.call.callId, s.call.peer.value.group,
                                                        s.call.peer.value.user, s.call.username)])
  {
    match s.call.peer
    case None => s
    case Some(p) => s.(signalOut := s.signalOut + [Msg.AcceptCall(s.call.callId, p.group, p.user, s.call.username)])
  }

  /** `endCall()`: stops capture, empties the queue, starts a new MediaSource (not
      open until its `sourceopen`), clears the transcription boxes on the sales
      side, and forgets call id and peer. The drain flag is left alone. */
  function EndCall(s: Legacy): (r: Legacy)
    ensures r.audioChunks == [] && !r.mediaOpen && !r.capturing
    ensures r.call == s.call.(callId := None, peer := None)
    ensures s.call.group == Some("sales") ==> r.salesText == "" && r.customerText == ""
    ensures s.call.group != Some("sales") ==> r.salesText == s.salesText && r.customerText == s.customerText
    ensures r.isProcessing == s.isProcessing && r.signalOut == s.signalOut && r.relayOut == s.relayOut
    ensures r.sink == s.sink && r.relay == s.relay
  {
    var sales := s.call.group == Some("sales");
    s.(capturing := false,
       audioChunks := [],
       mediaOpen := false,
       salesText := if sales then "" else s.salesText,
       customerText := if sales then "" else s.customerText,
       call := s.call.(callId := None, peer := None))
  }

  function RejectCall(s: Legacy): (r: Legacy)
    ensures s.call.peer.None? ==> r == s
    ensures s.call.peer.Some? ==>
      r == EndCall(s.(signalOut := s.signalOut + [CallRejected(s.call.peer.value.group, s.call.peer.value.user, s.call.username)]))
  {
    match s.call.peer
    case None => s
    case Some(p) => EndCall(s.(signalOut := s.signalOut + [CallRejected(p.group, p.user, s.call.username)]))
  }

  /** `hangUp()`: sends `hang_up` and ends the call only when a call id is set. */
  function HangUp(s: Legacy): (r: Legacy)
    ensures !Truthy(r.call.callId)
    ensures Truthy(s.call.callId) ==> r == EndCall(s.(signalOut := s.signalOut + [Msg.HangUp(s.call.callId.value)]))
    ensures !Truthy(s.call.callId) ==> r == s
  {
    if Truthy(s.call.callId) then EndCall(s.(signalOut := s.signalOut + [Msg.HangUp(s.call.callId.value)]))
    else s
  }

  function Logout(s: Legacy): (r: Legacy)
    ensures r == s.(signalOut := s.signalOut + [Msg.Logout(s.call.username)])
  {
    s.(signalOut := s.signalOut + [Msg.Logout(s.call.username)])
  }

  /** `incoming_call`: no busy check, the offer replaces any call in progress. */
  function IncomingCall(s: Legacy, fromUser: Option<string>, callId: Option<string>): (r: Legacy)
    ensures !s.signalingHandlers ==> r == s
    ensures s.signalingHandlers ==> r == s.(call := s.call.(peer := Some(Peer(None, fromUser)), callId := callId))
  {
    if !s.signalingHandlers then s
    else s.(call := s.call.(peer := Some(Peer(None, fromUser)), callId := callId))
  }

  function CallAccepted(s: Legacy, fromUser: Option<string>): (r: Legacy)
    ensures !s.signalingHandlers ==> r == s
    ensures s.signalingHandlers ==> r == s.(call := s.call.(peer := Some(Peer(None, fromUser))))
  {
    if !s.signalingHandlers then s
    else s.(call := s.call.(peer := Some(Peer(None, fromUser))))
  }

  function CallEndedNotice(s: Legacy): (r: Legacy)
    ensures !s.signalingHandlers ==> r == s
    ensures s.signalingHandlers ==> r == EndCall(s)
  {
    if !s.signalingHandlers then s else EndCall(s)
  }

  /** The start-up signaling socket closed and its replacement opened:
      re-register when a username is known. */
  function SignalingReconnected(s: Legacy, form: LegacyForm): (r: Legacy)
    ensures !s.signalingHandlers ==> r == s
    ensures s.signalingHandlers && !Truthy(s.call.username) ==> r == s.(signalingHandlers := false)
    ensures s.signalingHandlers && Truthy(s.call.username) ==>
      r == Register(s.(signalingHandlers := false), s.call.group, s.call.username, form)
  {
    if !s.signalingHandlers then s
    else
      var s' := s.(signalingHandlers := false);
      if Truthy(s.call.username) then Register(s', s.call.group, s.call.username, form) else s'
  }

  /** `udpSocket.onopen` of the start-up socket: register once the identity is known. */
  function RelayOpened(s: Legacy): (r: Legacy)
    ensures r.relay == s.relay.(open := true)
    ensures r.relayOut == s.relayOut + (
      if s.relay.handlers && Truthy(s.call.group) && Truthy(s.call.username)
      then [Text(Msg.Register(s.call.group.value, s.call.username.value, None))] else [])
    ensures r == s.(relay := r.relay, relayOut := r.relayOut)
  {
    var reg := if s.relay.handlers && Truthy(s.call.group) && Truthy(s.call.username)
               then [Text(Msg.Register(s.call.group.value, s.call.username.value, None))] else [];
    s.(relay := s.relay.(open := true), relayOut := s.relayOut + reg)
  }

  /** `sourceopen` of the current MediaSource: a fresh SourceBuffer. */
  function SourceOpened(s: Legacy): (r: Legacy)
    ensures r == s.(mediaOpen := true, sink := Some(Fresh))
  {
    s.(mediaOpen := true, sink := Some(Fresh))
  }

  function CaptureGranted(s: Legacy): (r: Legacy)
    ensures r == s.(capturing := true)
  {
    s.(capturing := true)
  }

  /** `mediaRecorder.ondataavailable`: a non-empty segment goes to an open relay
      socket. The handler only runs while a recorder is running, which
      `capturing` stands for; the recorder itself is not modelled. */
  function RecorderData(s: Legacy, data: Chunk): (r: Legacy)
    ensures r.relayOut == s.relayOut + (if s.capturing && |data| > 0 && s.relay.open then [Binary(data)] else [])
    ensures r == s.(relayOut := r.relayOut)
  {
    if s.capturing && |data| > 0 && s.relay.open then s.(relayOut := s.relayOut + [Binary(data)]) else s
  }

  // ---------------------------------------------------------------------
  // Transcription text: newline-joined and trimmed

  /** The characters `String.prototype.trim` removes: the white space of
      section 12.2 of ECMA-262 (TAB, VT, FF, SP, NBSP, ZWNBSP and every character
      of the Unicode category Zs) and the line terminators of section 12.3 (LF,
      CR, LS, PS). */
  predicate IsJsSpace(c: char) {
    || c == '\t' || c == '\U{B}' || c == '\U{C}' || c == ' ' || c == '\U{A0}' || c == '\U{FEFF}'
    || c == '\U{1680}' || ('\U{2000}' <= c <= '\U{200A}') || c == '\U{202F}' || c == '\U{205F}'
    || c == '\U{3000}'
    || c == '\n' || c == '\r' || c == '\U{2028}' || c == '\U{2029}'
  }

  predicate IsTrimmed(s: string) {
    s == [] || (!IsJsSpace(s[0]) && !IsJsSpace(s[|s| - 1]))
  }

  /** `r` is `s` with its leading and trailing white space cut off: a slice of `s`
      with only white space outside it and none at either of its ends. */
  ghost predicate TrimOf(s: string, r: string) {
    && IsTrimmed(r)
    && exists i :: 0 <= i <= |s| - |r| && Cut(s, r, i)
  }

  /** `r` sits in `s` at `i`, with only white space before and after it. */
  ghost predicate Cut(s: string, r: string, i: int)
    requires 0 <= i <= |s| - |r|
  {
    && r == s[i..i + |r|]
    && (forall k :: 0 <= k < i ==> IsJsSpace(s[k]))
    && (forall k :: i + |r| <= k < |s| ==> IsJsSpace(s[k]))
  }

  function TrimStart(s: string): (r: string)
    ensures r == [] || !IsJsSpace(r[0])
    decreases |s|
  {
    if s != [] && IsJsSpace(s[0]) then TrimStart(s[1..]) else s
  }

  function TrimEnd(s: string): (r: string)
    ensures r == [] || !IsJsSpace(r[|r| - 1])
    decreases |s|
  {
    if s != [] && IsJsSpace(s[|s| - 1]) then TrimEnd(s[..|s| - 1]) else s
  }

  /** `s.trim()` */
  function Trim(s: string): (r: string)
    ensures TrimOf(s, r)
  {
    var t := TrimStart(s);
    var r := TrimEnd(t);
    TrimStartCuts(s);
    TrimEndCuts(t);
    var i := |s| - |t|;
    assert Cut(s, r, i) by {
      assert r == s[i..i + |r|];
      forall k | i + |r| <= k < |s| ensures IsJsSpace(s[k]) {
        assert s[k] == t[k - i];
      }
    }
    r
  }

  /** `TrimStart` cuts only white space, and only at the front. */
  lemma {:induction false} TrimStartCuts(s: string)
    ensures var r := TrimStart(s);
      && |r| <= |s| && r == s[|s| - |r|..]
      && forall k :: 0 <= k < |s| - |r| ==> IsJsSpace(s[k])
    decreases |s|
  {
    if s != [] && IsJsSpace(s[0]) {
      TrimStartCuts(s[1..]);
      var r := TrimStart(s);
      forall k | 1 <= k < |s| - |r| ensures IsJsSpace(s[k]) {
        assert s[k] == s[1..][k - 1];
      }
    }
  }

  /** `TrimEnd` cuts only white space, and only at the back. */
  lemma {:induction false} TrimEndCuts(s: string)
    ensures var r := TrimEnd(s);
      && |r| <= |s| && r == s[..|r|]
      && forall k :: |r| <= k < |s| ==> IsJsSpace(s[k])
    decreases |s|
  {
    if s != [] && IsJsSpace(s[|s| - 1]) {
      TrimEndCuts(s[..|s| - 1]);
      var r := TrimEnd(s);
      forall k | |r| <= k < |s| - 1 ensures IsJsSpace(s[k]) {
        assert s[k] == s[..|s| - 1][k];
      }
    }
  }

  /** There is only one way to cut the white space off both ends, so `TrimOf`
      defines `trim()`. */
  lemma TrimOfUnique(s: string, r1: string, r2: string)
    requires TrimOf(s, r1) && TrimOf(s, r2)
    ensures r1 == r2
  {
    var i1 :| 0 <= i1 <= |s| - |r1| && Cut(s, r1, i1);
    var i2 :| 0 <= i2 <= |s| - |r2| && Cut(s, r2, i2);
    // a non-empty cut starts and ends on the first and last characters that
    // are not white space, so the other cut cannot be empty and starts and ends there too
    if r1 != [] {
      assert s[i1] == r1[0] && s[i1 + |r1| - 1] == r1[|r1| - 1];
    }
    if r2 != [] {
      assert s[i2] == r2[0] && s[i2 + |r2| - 1] == r2[|r2| - 1];
    }
  }

  /** `${currentText}\n${data.text}`.trim() */
  function AppendLine(current: string, text: string): (r: string)
    ensures TrimOf(current + "\n" + text, r)
  {
    Trim(current + "\n" + text)
  }

  lemma TrimStartKeeps(s: string)
    requires s == [] || !IsJsSpace(s[0])
    ensures TrimStart(s) == s
  {
  }

  lemma TrimEndKeeps(s: string)
    requires s == [] || !IsJsSpace(s[|s| - 1])
    ensures TrimEnd(s) == s
  {
  }

  /** Appending a trimmed, non-empty line to trimmed text puts one newline between
      them (and none when the text was empty). */
  lemma AppendLineJoins(current: string, text: string)
    requires IsTrimmed(current) && IsTrimmed(text) && text != ""
    ensures AppendLine(current, text) == if current == "" then text else current + "\n" + text
  {
    var s := current + "\n" + text;
    if current == "" {
      assert s[0] == '\n' && s[1..] == text;
      TrimStartKeeps(text);
      assert TrimStart(s) == text;
      TrimEndKeeps(text);
    } else {
      assert s[0] == current[0];
      TrimStartKeeps(s);
      assert s[|s| - 1] == text[|text| - 1];
      TrimEndKeeps(s);
    }
  }

  /** The texts joined by newlines. */
  function Lines(xs: seq<string>): string
    decreases |xs|
  {
    if xs == [] then "" else if |xs| == 1 then xs[0] else xs[0] + "\n" + Lines(xs[1..])
  }

  /** A run of `AppendLine`s. */
  function Accumulate(current: string, texts: seq<string>): string
    decreases |texts|
  {
    if texts == [] then current else Accumulate(AppendLine(current, texts[0]), texts[1..])
  }

  lemma {:induction false} AccumulateFrom(current: string, texts: seq<string>)
    requires current != "" && IsTrimmed(current)
    requires forall i :: 0 <= i < |texts| ==> texts[i] != "" && IsTrimmed(texts[i])
    ensures Accumulate(current, texts) == if texts == [] then current else current + "\n" + Lines(texts)
    decreases |texts|
  {
    if texts != [] {
      var t := texts[0];
      var next := current + "\n" + t;
      assert t != "" && IsTrimmed(t);
      AppendLineJoins(current, t);
      assert Accumulate(current, texts) == Accumulate(next, texts[1..]);
      assert IsTrimmed(next) by {
        assert next[0] == current[0];
        assert next[|next| - 1] == t[|t| - 1];
      }
      assert forall i :: 0 <= i < |texts[1..]| ==> texts[1..][i] != "" && IsTrimmed(texts[1..][i]) by {
        forall i | 0 <= i < |texts[1..]| ensures texts[1..][i] != "" && IsTrimmed(texts[1..][i]) {
          assert texts[1..][i] == texts[i + 1];
        }
      }
      AccumulateFrom(next, texts[1..]);
      if |texts| > 1 {
        assert Lines(texts) == t + "\n" + Lines(texts[1..]);
        assert next + "\n" + Lines(texts[1..]) == current + "\n" + (t + "\n" + Lines(texts[1..]));
      }
    }
  }

  /** Starting from an empty box, the accumulated text of trimmed, non-empty
      transcripts is exactly those transcripts joined by newlines. */
  lemma AccumulateIsLines(texts: seq<string>)
    requires forall i :: 0 <= i < |texts| ==> texts[i] != "" && IsTrimmed(texts[i])
    ensures Accumulate("", texts) == Lines(texts)
  {
    if texts != [] {
      AppendLineJoins("", texts[0]);
      AccumulateFrom(texts[0], texts[1..]);
    }
  }

  /** A transcription note on the relay socket is shown only on the sales side and
      only for the current call id. */
  predicate Concerns(s: Legacy, callId: Option<string>) {
    s.call.group == Some("sales") && callId.Some? && s.call.callId == callId
  }

  /** `udpSocket.onmessage` with a text frame. */
  function RelayText(s: Legacy, note: RelayNote): (r: Legacy)
    ensures !s.relay.handlers || note.OtherNote? || !Concerns(s, note.callId) ==> r == s
    ensures s.relay.handlers && note.TranscriptionNote? && Concerns(s, note.callId) ==>
      if note.group == Some("sales")
      then r == s.(salesText := AppendLine(s.salesText, note.text))
      else r == s.(customerText := AppendLine(s.customerText, note.text))
  {
    if !s.relay.handlers then s
    else match note
      case OtherNote => s
      case TranscriptionNote(id, group, text) =>
        if !Concerns(s, id) then s
        else if group == Some("sales") then s.(salesText := AppendLine(s.salesText, text))
        else s.(customerText := AppendLine(s.customerText, text))
  }

  // ---------------------------------------------------------------------
  // The polling drain of `processAudioQueue`

  /** What the environment does during one drain: per pass, whether the append
      raises, whether the sink finishes its update during the 5 ms sleep, and
      which chunks arrive meanwhile. */
  datatype Schedule = Schedule(fails: seq<bool>, ends: seq<bool>, arrivals: seq<seq<Chunk>>)

  /** The queue and the sink during a drain, with a record of what arrived, what
      was taken from the queue and what the sink accepted. */
  datatype Pipe = Pipe(queue: seq<Chunk>, sink: Sink, arrived: seq<Chunk>, taken: seq<Chunk>, kept: seq<Chunk>)

  /** The first half of pass `i`: the head is taken only when the sink is idle,
      and appended unless the append raises. */
  function TakeHead(p: Pipe, i: nat, sc: Schedule): (r: Pipe)
    requires |p.queue| > 0
  {
    if p.sink.updating then p
    else if At(sc.fails, i) then p.(queue := p.queue[1..], taken := p.taken + [p.queue[0]])
    else p.(queue := p.queue[1..], taken := p.taken + [p.queue[0]], kept := p.kept + [p.queue[0]],
            sink := p.sink.(updating := true, appended := p.sink.appended + [p.queue[0]]))
  }

  /** Pass `i` of the loop: take the head only when the sink is idle; then sleep,
      during which the sink may finish and chunks may arrive. */
  function Pass(p: Pipe, i: nat, sc: Schedule): (r: Pipe)
    requires |p.queue| > 0
  {
    Sleep(TakeHead(p, i, sc), i, sc)
  }

  /** The second half of pass `i`, the 5 ms sleep: the sink may finish its
      update, and the chunks of arrival `i` are queued. */
  function Sleep(t: Pipe, i: nat, sc: Schedule): (r: Pipe) {
    var more := Arrival(sc.arrivals, i);
    t.(sink := if Finished(sc.ends, i) then t.sink.(updating := false) else t.sink,
       queue := t.queue + more, arrived := t.arrived + more)
  }

  /** `while (mediaSource.readyState === 'open' && audioChunks.length > 0)`, from pass `i`. */
  function Drain(open: bool, p: Pipe, i: nat, sc: Schedule): (r: Pipe)
    ensures open ==> r.queue == []
    ensures !open ==> r == p
    decreases TotalFrom(sc.arrivals, i) + |p.queue|, if i < |sc.ends| then |sc.ends| - i else 0,
              if p.sink.updating then 1 else 0
  {
    if !open || p.queue == [] then p
    else
      TotalFromStep(sc.arrivals, i);
      Drain(open, Pass(p, i, sc), i + 1, sc)
  }

  /** Everything queued at the start or arrived since was taken or is still
      queued, in order; the sink holds what it held plus what was kept; the kept
      chunks are the taken ones in order less some, and all of them when no
      append raises. */
  ghost predicate Accounted(q0: seq<Chunk>, s0: Sink, sc: Schedule, p: Pipe) {
    && q0 + p.arrived == p.taken + p.queue
    && p.sink.appended == s0.appended + p.kept
    && p.sink.open == s0.open
    && IsSubseq(p.kept, p.taken)
    && ((forall j :: 0 <= j < |sc.fails| ==> !sc.fails[j]) ==> p.kept == p.taken)
  }

  lemma PassAccounted(q0: seq<Chunk>, s0: Sink, sc: Schedule, p: Pipe, i: nat)
    requires |p.queue| > 0 && Accounted(q0, s0, sc, p)
    ensures Accounted(q0, s0, sc, Pass(p, i, sc))
  {
    var more := Arrival(sc.arrivals, i);
    if !p.sink.updating {
      var x := p.queue[0];
      assert p.queue == [x] + p.queue[1..];
      ConcatAssoc(p.taken, [x], p.queue[1..]);
      if At(sc.fails, i) {
        SubseqExtend(p.kept, p.taken, x);
      } else {
        SubseqSnoc(p.kept, p.taken, x);
        ConcatAssoc(s0.appended, p.kept, [x]);
      }
    }
    var t := Pass(p, i, sc);
    ConcatAssoc(q0, p.arrived, more);
  }

  lemma {:induction false} DrainAccounted(q0: seq<Chunk>, s0: Sink, sc: Schedule, p: Pipe, i: nat)
    requires Accounted(q0, s0, sc, p)
    ensures Accounted(q0, s0, sc, Drain(true, p, i, sc))
    decreases TotalFrom(sc.arrivals, i) + |p.queue|, if i < |sc.ends| then |sc.ends| - i else 0,
              if p.sink.updating then 1 else 0
  {
    if p.queue != [] {
      PassAccounted(q0, s0, sc, p, i);
      TotalFromStep(sc.arrivals, i);
      DrainAccounted(q0, s0, sc, Pass(p, i, sc), i + 1);
    }
  }

  /** The drain started on queue `q` and sink `sink`. */
  function Start(q: seq<Chunk>, sink: Sink): Pipe {
    Pipe(q, sink, [], [], [])
  }

  /** A drain over an open MediaSource ends with the queue empty; the sink has
      received, in order, the chunks that were queued or arrived during the
      drain, less those whose append raised, and every one of them when none
      raised. */
  lemma DrainDelivers(q: seq<Chunk>, sink: Sink, sc: Schedule)
    ensures var r := Drain(true, Start(q, sink), 0, sc);
      && r.queue == []
      && r.sink.appended == sink.appended + r.kept
      && IsSubseq(r.kept, q + r.arrived)
      && ((forall j :: 0 <= j < |sc.fails| ==> !sc.fails[j]) ==> r.kept == q + r.arrived)
  {
    assert Accounted(q, sink, sc, Start(q, sink)) by {
      assert q + [] == [] + q;
      assert sink.appended + [] == sink.appended;
    }
    DrainAccounted(q, sink, sc, Start(q, sink), 0);
    var r := Drain(true, Start(q, sink), 0, sc);
    assert r.taken + [] == r.taken;
    assert q + r.arrived == r.taken;
  }

  /** `processAudioQueue()`: returns at once when a drain runs; otherwise drains
      while the MediaSource is open, and clears the flag when done. */
  function ProcessAudioQueue(s: Legacy, sc: Schedule): (r: Legacy)
    requires Valid(s)
    ensures s.isProcessing ==> r == s
    ensures !r.isProcessing || s.isProcessing
    ensures !s.isProcessing && s.mediaOpen ==> r.audioChunks == [] && r.sink.Some?
    ensures !s.mediaOpen ==> r == s
    ensures r == s.(audioChunks := r.audioChunks, sink := r.sink)
  {
    if s.isProcessing || !s.mediaOpen then s
    else
      var d := Drain(true, Start(s.audioChunks, s.sink.value), 0, sc);
      s.(audioChunks := d.queue, sink := Some(d.sink))
  }

  /** `udpSocket.onmessage` with a Blob: queue it at the back; start a drain unless
      one is running. */
  function RelayBlob(s: Legacy, chunk: Chunk, sc: Schedule): (r: Legacy)
    requires Valid(s)
    ensures !s.relay.handlers ==> r == s
    ensures s.relay.handlers && s.isProcessing ==> r == s.(audioChunks := s.audioChunks + [chunk])
    ensures s.relay.handlers && !s.isProcessing ==> r == ProcessAudioQueue(s.(audioChunks := s.audioChunks + [chunk]), sc)
  {
    if !s.relay.handlers then s
    else
      var s1 := s.(audioChunks := s.audioChunks + [chunk]);
      if !s1.isProcessing then ProcessAudioQueue(s1, sc) else s1
  }

  /** Hanging up twice is hanging up once. */
  lemma HangUpIdempotent(s: Legacy)
    ensures HangUp(HangUp(s)) == HangUp(s)
  {
  }

  // ---------------------------------------------------------------------
  // Runs of handler events

  /** What the page can do next: a user action, a message or a socket, media
      or recorder callback. `GotBlob` carries the schedule of the drain it may
      start. */
  datatype Event =
    | DoRegister(group: Option<string>, username: Option<string>, form: LegacyForm)
    | DoCallUser(toUser: string, now: nat)
    | DoAcceptCall
    | DoRejectCall
    | DoHangUp
    | DoLogout
    | GotIncomingCall(fromUser: Option<string>, callId: Option<string>)
    | GotCallAccepted(fromUser: Option<string>)
    | GotCallEnded
    | SignalingDropped(form: LegacyForm)
    | RelayOpen
    | RelayClose
    | SourceOpen
    | CaptureOk
    | CaptureDenied
    | Recorded(data: Chunk)
    | GotBlob(chunk: Chunk, sc: Schedule)
    | GotText(note: RelayNote)

  function Step(s: Legacy, e: Event): (r: Legacy)
    requires Valid(s)
    ensures Valid(r)
  {
    match e
    case DoRegister(g, u, f) => Register(s, g, u, f)
    case DoCallUser(to, now) => CallUser(s, to, now)
    case DoAcceptCall => AcceptCall(s)
    case DoRejectCall => RejectCall(s)
    case DoHangUp => HangUp(s)
    case DoLogout => Logout(s)
    case GotIncomingCall(from, id) => IncomingCall(s, from, id)
    case GotCallAccepted(from) => CallAccepted(s, from)
    case GotCallEnded => CallEndedNotice(s)
    case SignalingDropped(f) => SignalingReconnected(s, f)
    case RelayOpen => RelayOpened(s)
    case RelayClose => s.(relay := Replacement)
    case SourceOpen => SourceOpened(s)
    case CaptureOk => CaptureGranted(s)
    case CaptureDenied => EndCall(s)
    case Recorded(d) => RecorderData(s, d)
    case GotBlob(c, sc) => RelayBlob(s, c, sc)
    case GotText(note) => RelayText(s, note)
  }

  function Run(s: Legacy, evs: seq<Event>): (r: Legacy)
    requires Valid(s)
    ensures Valid(r)
    decreases |evs|
  {
    if evs == [] then s else Run(Step(s, evs[0]), evs[1..])
  }

  lemma InitialValid()
    ensures Valid(Initial)
  {
  }

  /** The signaling, call-control and socket events. */
  predicate IsControl(e: Event) {
    e.DoCallUser? || e.DoAcceptCall? || e.DoRejectCall? || e.DoHangUp? || e.DoLogout?
    || e.GotIncomingCall? || e.GotCallAccepted? || e.GotCallEnded? || e.SignalingDropped?
  }

  /** Once an identity is recorded, only the user's own `register` changes it:
      a reconnect re-registers the same names, and no other handler touches them. */
  lemma StepKeepsIdentity(s: Legacy, e: Event)
    requires Valid(s) && Truthy(s.call.group) && Truthy(s.call.username) && !e.DoRegister?
    ensures Step(s, e).call.group == s.call.group && Step(s, e).call.username == s.call.username
  {
    if IsControl(e) {
      ControlKeepsIdentity(s, e);
    }
  }

  lemma ControlKeepsIdentity(s: Legacy, e: Event)
    requires Valid(s) && Truthy(s.call.group) && Truthy(s.call.username) && IsControl(e)
    ensures Step(s, e).call.group == s.call.group && Step(s, e).call.username == s.call.username
  {
    if e.SignalingDropped? && s.signalingHandlers {
      assert Pick(s.call.group, Some(e.form.group)) == s.call.group;
      assert Pick(s.call.username, Some(e.form.username)) == s.call.username;
    }
  }

  lemma {:induction false} RunKeepsIdentity(s: Legacy, evs: seq<Event>)
    requires Valid(s) && Truthy(s.call.group) && Truthy(s.call.username)
    requires forall i :: 0 <= i < |evs| ==> !evs[i].DoRegister?
    ensures Run(s, evs).call.group == s.call.group && Run(s, evs).call.username == s.call.username
    decreases |evs|
  {
    if evs != [] {
      StepKeepsIdentity(s, evs[0]);
      assert forall i :: 0 <= i < |evs[1..]| ==> !evs[1..][i].DoRegister? by {
        forall i | 0 <= i < |evs[1..]| ensures !evs[1..][i].DoRegister? {
          assert evs[1..][i] == evs[i + 1];
        }
      }
      RunKeepsIdentity(Step(s, evs[0]), evs[1..]);
    }
  }

  /** `logout` names the user who registered, whatever happened in between
      short of another `register`. */
  lemma LogoutNamesRegistered(s: Legacy, group: Option<string>, username: Option<string>, form: LegacyForm,
                              evs: seq<Event>)
    requires Valid(s)
    requires Truthy(Pick(group, Some(form.group))) && Truthy(Pick(username, Some(form.username)))
    requires forall i :: 0 <= i < |evs| ==> !evs[i].DoRegister?
    ensures var r := Run(Register(s, group, username, form), evs);
      Logout(r).signalOut == r.signalOut + [Msg.Logout(Pick(username, Some(form.username)))]
  {
    RunKeepsIdentity(Register(s, group, username, form), evs);
  }

  /** `register` sends no audio. */
  lemma RegisterSendsNoAudio(s: Legacy, group: Option<string>, username: Option<string>, form: LegacyForm)
    ensures Payloads(Register(s, group, username, form).relayOut) == Payloads(s.relayOut)
  {
    var g, u := Pick(group, Some(form.group)), Pick(username, Some(form.username));
    if Truthy(g) && Truthy(u) && s.relay.open {
      PayloadsText(s.relayOut, Msg.Register(g.value, u.value, None));
    }
  }

  /** No event sends audio before capture is granted, and only the grant starts
      capture. */
  lemma StepWithoutCapture(s: Legacy, e: Event)
    requires Valid(s) && !s.capturing && !e.CaptureOk?
    ensures var r := Step(s, e);
      !r.capturing && Payloads(r.relayOut) == Payloads(s.relayOut)
  {
    if IsControl(e) {
      ControlWithoutCapture(s, e);
    } else {
      match e
      case DoRegister(g, u, f) => RegisterSendsNoAudio(s, g, u, f);
      case RelayOpen =>
        if s.relay.handlers && Truthy(s.call.group) && Truthy(s.call.username) {
          PayloadsText(s.relayOut, Msg.Register(s.call.group.value, s.call.username.value, None));
        } else {
          assert s.relayOut + [] == s.relayOut;
        }
      case _ =>
    }
  }

  lemma ControlWithoutCapture(s: Legacy, e: Event)
    requires Valid(s) && !s.capturing && IsControl(e)
    ensures var r := Step(s, e);
      !r.capturing && Payloads(r.relayOut) == Payloads(s.relayOut)
  {
    if e.SignalingDropped? && s.signalingHandlers && Truthy(s.call.username) {
      RegisterSendsNoAudio(s.(signalingHandlers := false), s.call.group, s.call.username, e.form);
    }
  }

  /** No audio leaves the client before capture is granted: a run with no grant,
      from a state that is not capturing, adds no binary frame to the relay. */
  lemma {:induction false} NoCaptureNoAudio(s: Legacy, evs: seq<Event>)
    requires Valid(s) && !s.capturing
    requires forall i :: 0 <= i < |evs| ==> !evs[i].CaptureOk?
    ensures !Run(s, evs).capturing
    ensures Payloads(Run(s, evs).relayOut) == Payloads(s.relayOut)
    decreases |evs|
  {
    if evs != [] {
      StepWithoutCapture(s, evs[0]);
      assert forall i :: 0 <= i < |evs[1..]| ==> !evs[1..][i].CaptureOk? by {
        forall i | 0 <= i < |evs[1..]| ensures !evs[1..][i].CaptureOk? {
          assert evs[1..][i] == evs[i + 1];
        }
      }
      NoCaptureNoAudio(Step(s, evs[0]), evs[1..]);
    }
  }

  /** A stretch of `ondataavailable` events, one per recorded segment. */
  function Recordings(ds: seq<Chunk>): (r: seq<Event>)
    ensures |r| == |ds| && forall i :: 0 <= i < |ds| ==> r[i] == Recorded(ds[i])
    decreases |ds|
  {
    if ds == [] then [] else [Recorded(ds[0])] + Recordings(ds[1..])
  }

  function RunRecorder(s: Legacy, ds: seq<Chunk>): Legacy
    decreases |ds|
  {
    if ds == [] then s else RunRecorder(RecorderData(s, ds[0]), ds[1..])
  }

  /** A run of recorder events is the run of the corresponding client events. */
  lemma {:induction false} RunRecorderIsRun(s: Legacy, ds: seq<Chunk>)
    requires Valid(s)
    ensures Run(s, Recordings(ds)) == RunRecorder(s, ds)
    decreases |ds|
  {
    if ds != [] {
      assert Recordings(ds)[1..] == Recordings(ds[1..]);
      RunRecorderIsRun(RecorderData(s, ds[0]), ds[1..]);
    }
  }

  /** While capturing with the relay open, the recorder's non-empty segments go
      to the relay in order and nothing else changes; otherwise they are dropped. */
  lemma {:induction false} RecorderSends(s: Legacy, ds: seq<Chunk>)
    ensures RunRecorder(s, ds)
         == s.(relayOut := s.relayOut + if s.capturing && s.relay.open then AudioFrames(NonEmpty(ds)) else [])
    decreases |ds|
  {
    if ds == [] {
      assert s.relayOut + [] == s.relayOut;
    } else {
      var s1 := RecorderData(s, ds[0]);
      RecorderSends(s1, ds[1..]);
      var head := if |ds[0]| > 0 then [ds[0]] else [];
      assert NonEmpty(ds) == head + NonEmpty(ds[1..]);
      assert AudioFrames(head + NonEmpty(ds[1..])) == AudioFrames(head) + AudioFrames(NonEmpty(ds[1..]));
      if s.capturing && s.relay.open {
        assert s1.relayOut == s.relayOut + AudioFrames(head);
        ConcatAssoc(s.relayOut, AudioFrames(head), AudioFrames(NonEmpty(ds[1..])));
      } else {
        assert s1 == s;
        assert s.relayOut + [] == s.relayOut;
      }
    }
  }

  /** Nothing checks that the call is still on when capture is granted: a grant
      arriving after the call ended starts capture, and a recorded segment then
      goes to an open relay with no call in progress. */
  lemma LateGrantStillSends(s: Legacy, d: Chunk)
    requires s.relay.open && |d| > 0
    ensures var r := RecorderData(CaptureGranted(EndCall(s)), d);
      r.call.callId.None? && r.relayOut == s.relayOut + [Binary(d)]
  {
  }

  /** An offer arriving during a call replaces that call's id and peer. */
  lemma IncomingCallOverwritesCall(s: Legacy, from: Option<string>, id: string)
    requires s.signalingHandlers && Truthy(s.call.callId) && s.call.callId != Some(id)
    ensures IncomingCall(s, from, Some(id)).call.callId == Some(id)
    ensures IncomingCall(s, from, Some(id)).call.peer == Some(Peer(None, from))
  {
  }

  /** The callee accepts the very offer it was sent: `accept_call` carries the
      offered id, the caller as `from_user`, no `from_group` (the offer does not
      carry one) and itself as `to_user`. */
  lemma AcceptAnswersOffer(s: Legacy, from: Option<string>, id: Option<string>)
    requires s.signalingHandlers
    ensures AcceptCall(IncomingCall(s, from, id)).signalOut
         == s.signalOut + [Msg.AcceptCall(id, None, from, s.call.username)]
  {
  }

  /** `call_accepted` keeps the call the caller dialed: its id is still the one
      announced, so `hang_up` names that call; only the peer's group is forgotten. */
  lemma AcceptedKeepsDialedCall(s: Legacy, to: string, now: nat, from: Option<string>)
    requires !Truthy(s.call.callId) && s.signalingHandlers
    ensures var a := CallAccepted(CallUser(s, to, now), from);
      && a.call.callId == Some(CallIdFor(now, s.call.username))
      && a.call.peer == Some(Peer(None, from))
      && HangUp(a).signalOut == a.signalOut + [Msg.HangUp(CallIdFor(now, s.call.username))]
  {
  }

  /** At start-up `register` races the relay socket's `onopen`. In either order
      the relay gets exactly one `register`, with the identity of the form. */
  lemma RegisterOpenRace(s: Legacy, group: Option<string>, username: Option<string>, form: LegacyForm)
    requires s.relay == Channel(false, true)
    requires !(Truthy(s.call.group) && Truthy(s.call.username))
    requires Truthy(Pick(group, Some(form.group))) && Truthy(Pick(username, Some(form.username)))
    ensures var m := Text(Msg.Register(Pick(group, Some(form.group)).value, Pick(username, Some(form.username)).value, None));
      && RelayOpened(Register(s, group, username, form)).relayOut == s.relayOut + [m]
      && Register(RelayOpened(s), group, username, form).relayOut == s.relayOut + [m]
  {
  }

  /** Frames that arrive before the MediaSource opens wait in the queue: the
      drain they start stops at once (and clears its flag). */
  lemma BlobWaitsForSource(s: Legacy, c: Chunk, sc: Schedule)
    requires Valid(s) && s.relay.handlers && !s.mediaOpen
    ensures RelayBlob(s, c, sc) == s.(audioChunks := s.audioChunks + [c])
  {
  }

  /** Once `sourceopen` has installed a fresh buffer, the next frame drains the
      whole queue: the buffer first plays the frames that waited, in order, and
      then the new one, and with no failing append it receives exactly those
      and the frames that arrived during the drain. */
  lemma SourceOpenedDrains(s: Legacy, c: Chunk, sc: Schedule)
    requires s.relay.handlers && !s.isProcessing
    ensures var r := RelayBlob(SourceOpened(s), c, sc);
      && r.audioChunks == []
      && r.sink.Some?
      && ((forall j :: 0 <= j < |sc.fails| ==> !sc.fails[j]) ==>
            && |s.audioChunks| + 1 <= |r.sink.value.appended|
            && r.sink.value.appended[..|s.audioChunks| + 1] == s.audioChunks + [c])
  {
    var q := s.audioChunks + [c];
    DrainDelivers(q, Fresh, sc);
    var d := Drain(true, Start(q, Fresh), 0, sc);
    assert RelayBlob(SourceOpened(s), c, sc).sink == Some(d.sink);
    if forall j :: 0 <= j < |sc.fails| ==> !sc.fails[j] {
      assert d.sink.appended == q + d.arrived;
      assert (q + d.arrived)[..|q|] == q;
    }
  }
}

/** `audio.js`'s globals, updated in place by its handlers. */
module LegacySession {
  import opened Common
  import opened ClientWire
  import opened MediaSink
  import opened LegacyClient

  class Session {
    var currentCall: LegacyCall
    var salesText: string
    var customerText: string
    var signalingHandlers: bool
    var relay: Channel
    var capturing: bool
    var audioChunks: seq<Chunk>
    var isProcessing: bool
    var mediaOpen: bool
    var sourceBuffer: SourceBuffer?
    var signalOut: seq<Msg>
    var relayOut: seq<Frame>

    function Snapshot(): Legacy
      reads this, sourceBuffer
    {
      Legacy(currentCall, salesText, customerText, signalingHandlers, relay, capturing,
             audioChunks, isProcessing, mediaOpen,
             if sourceBuffer == null then None else Some(sourceBuffer.Value()),
             signalOut, relayOut)
    }

    constructor ()
      ensures Snapshot() == LegacyClient.Initial
      ensures fresh(this)
    {
      currentCall := LegacyCall(None, None, None, None);
      salesText, customerText := "", "";
      signalingHandlers := true;
      relay := Channel(false, true);
      capturing := false;
      audioChunks, isProcessing := [], false;
      mediaOpen, sourceBuffer := false, null;
      signalOut, relayOut := [], [];
    }

    method Register(group: Option<string>, username: Option<string>, form: LegacyForm)
      modifies this
      ensures Snapshot() == LegacyClient.Register(old(Snapshot()), group, username, form)
    {
      var g := if Truthy(group) then group else Some(form.group);
      var u := if Truthy(username) then username else Some(form.username);
      if !Truthy(g) || !Truthy(u) {
        return;  // alert('Please enter group and username')
      }
      signalOut := signalOut + [Msg.Register(g.value, u.value, None)];
      if relay.open {
        relayOut := relayOut + [Text(Msg.Register(g.value, u.value, None))];
      }
      currentCall := currentCall.(group := g, username := u);
    }

    method CallUser(toUser: string, now: nat)
      modifies this
      ensures Snapshot() == LegacyClient.CallUser(old(Snapshot()), toUser, now)
    {
      if Truthy(currentCall.callId) {
        return;  // alert('Already in a call')
      }
      var id := CallIdFor(now, currentCall.username);
      currentCall := currentCall.(callId := Some(id));
      currentCall := currentCall.(peer := Some(Peer(Some(Opposite(currentCall.group)), Some(toUser))));
      signalOut := signalOut + [Msg.CallUser(currentCall.group, currentCall.username, toUser, id)];
    }

    method AcceptCall()
      modifies this
      ensures Snapshot() == LegacyClient.AcceptCall(old(Snapshot()))
    {
      if currentCall.peer.None? {
        return;  // TypeError reading currentCall.peer.group
      }
      signalOut := signalOut + [Msg.AcceptCall(currentCall.callId, currentCall.peer.value.group,
                                               currentCall.peer.value.user, currentCall.username)];
    }

    method EndCall()
      modifies this
      ensures Snapshot() == LegacyClient.EndCall(old(Snapshot()))
    {
      var sales := currentCall.group == Some("sales");
      capturing := false;
      audioChunks := [];
      mediaOpen := false;  // resetMediaSource(): the new MediaSource is not open yet
      salesText, customerText := if sales then "" else salesText, if sales then "" else customerText;
      currentCall := currentCall.(callId := None, peer := None);
    }

    method RejectCall()
      modifies this
      ensures Snapshot() == LegacyClient.RejectCall(old(Snapshot()))
    {
      if currentCall.peer.None? {
        return;
      }
      signalOut := signalOut + [CallRejected(currentCall.peer.value.group, currentCall.peer.value.user,
                                             currentCall.username)];
      EndCall();
    }

    method HangUp()
      modifies this
      ensures Snapshot() == LegacyClient.HangUp(old(Snapshot()))
    {
      if Truthy(currentCall.callId) {
        signalOut := signalOut + [Msg.HangUp(currentCall.callId.value)];
        EndCall();
      }
    }

    method Logout()
      modifies this
      ensures Snapshot() == LegacyClient.Logout(old(Snapshot()))
    {
      signalOut := signalOut + [Msg.Logout(currentCall.username)];
    }

    method OnIncomingCall(fromUser: Option<string>, callId: Option<string>)
      modifies this
      ensures Snapshot() == IncomingCall(old(Snapshot()), fromUser, callId)
    {
      if signalingHandlers {
        currentCall := currentCall.(peer := Some(Peer(None, fromUser)));
        currentCall := currentCall.(callId := callId);
      }
    }

    method OnCallAccepted(fromUser: Option<string>)
      modifies this
      ensures Snapshot() == CallAccepted(old(Snapshot()), fromUser)
    {
      if signalingHandlers {
        currentCall := currentCall.(peer := Some(Peer(None, fromUser)));
      }
    }

    method OnCallEnded()
      modifies this
      ensures Snapshot() == CallEndedNotice(old(Snapshot()))
    {
      if signalingHandlers {
        EndCall();
      }
    }

    method OnSignalingReconnected(form: LegacyForm)
      modifies this
      ensures Snapshot() == SignalingReconnected(old(Snapshot()), form)
    {
      if signalingHandlers {
        signalingHandlers := false;
        if Truthy(currentCall.username) {
          Register(currentCall.group, currentCall.username, form);
        }
      }
    }

    method OnRelayOpen()
      modifies this
      ensures Snapshot() == RelayOpened(old(Snapshot()))
    {
      if relay.handlers && Truthy(currentCall.group) && Truthy(currentCall.username) {
        relayOut := relayOut + [Text(Msg.Register(currentCall.group.value, currentCall.username.value, None))];
      }
      relay := relay.(open := true);
    }

    method OnRelayClose()
      modifies this
      ensures Snapshot() == old(Snapshot()).(relay := Replacement)
    {
      relay := Replacement;
    }

    method OnSourceOpen()
      modifies this
      ensures Snapshot() == SourceOpened(old(Snapshot()))
    {
      var sb := new SourceBuffer();
      sourceBuffer := sb;
      mediaOpen := true;
    }

    method OnCaptureGranted()
      modifies this
      ensures Snapshot() == CaptureGranted(old(Snapshot()))
    {
      capturing := true;
    }

    method OnRecorderData(data: Chunk)
      modifies this
      ensures Snapshot() == RecorderData(old(Snapshot()), data)
    {
      if capturing && |data| > 0 && relay.open {
        relayOut := relayOut + [Binary(data)];
      }
    }

    method OnRelayText(note: RelayNote)
      modifies this
      ensures Snapshot() == RelayText(old(Snapshot()), note)
    {
      if !relay.handlers || note.OtherNote? {
        return;
      }
      if currentCall.group == Some("sales") && note.callId.Some? && currentCall.callId == note.callId {
        if note.group == Some("sales") {
          salesText := AppendLine(salesText, note.text);
        } else {
          customerText := AppendLine(customerText, note.text);
        }
      }
    }

    /** The first statement of the loop of `processAudioQueue`: when the sink is
        idle the head is shifted and appended (a raising append is logged and
        dropped). Only the queue and the sink change. */
    method AppendIfIdle(i: nat, sc: Schedule, ghost p: Pipe) returns (ghost t: Pipe)
      requires sourceBuffer != null && |audioChunks| > 0
      requires p.queue == audioChunks && p.sink == sourceBuffer.Value()
      modifies this, sourceBuffer
      ensures sourceBuffer == old(sourceBuffer)
      ensures t == TakeHead(p, i, sc)
      ensures audioChunks == t.queue && sourceBuffer.Value() == t.sink
      ensures Snapshot() == old(Snapshot()).(audioChunks := t.queue, sink := Some(t.sink))
    {
      t := p;
      if !sourceBuffer.updating {
        var chunk := audioChunks[0];
        audioChunks := audioChunks[1..];
        t := t.(queue := audioChunks, taken := t.taken + [chunk]);
        var ok := sourceBuffer.AppendBuffer(chunk, At(sc.fails, i));
        if ok {
          t := t.(kept := t.kept + [chunk], sink := sourceBuffer.Value());
        }  // else: 'AppendBuffer error' is logged and the loop goes on
      }
    }

    /** `await new Promise(resolve => setTimeout(resolve, 5))`: during the sleep
        the sink may finish its update and chunks may arrive. Only the queue and
        the sink change. */
    method Sleep(i: nat, sc: Schedule, ghost t: Pipe) returns (ghost r: Pipe)
      requires sourceBuffer != null
      requires t.queue == audioChunks && t.sink == sourceBuffer.Value()
      modifies this, sourceBuffer
      ensures sourceBuffer == old(sourceBuffer)
      ensures r == LegacyClient.Sleep(t, i, sc)
      ensures audioChunks == r.queue && sourceBuffer.Value() == r.sink
      ensures Snapshot() == old(Snapshot()).(audioChunks := r.queue, sink := Some(r.sink))
    {
      if Finished(sc.ends, i) {
        sourceBuffer.UpdateEnd();
      }
      var more := Arrival(sc.arrivals, i);
      audioChunks := audioChunks + more;
      r := t.(queue := audioChunks, sink := sourceBuffer.Value(), arrived := t.arrived + more);
    }

    method ProcessAudioQueue(sc: Schedule)
      requires mediaOpen ==> sourceBuffer != null
      modifies this, sourceBuffer
      ensures sourceBuffer == old(sourceBuffer)
      ensures Snapshot() == LegacyClient.ProcessAudioQueue(old(Snapshot()), sc)
    {
      if isProcessing {
        return;
      }
      isProcessing := true;
      ghost var s0 := old(Snapshot());
      ghost var arrived, taken, kept := [], [], [];
      var i := 0;
      while mediaOpen && |audioChunks| > 0
        invariant sourceBuffer == old(sourceBuffer) && mediaOpen == s0.mediaOpen
        invariant mediaOpen ==> sourceBuffer != null
        invariant mediaOpen ==>
          Drain(true, Pipe(audioChunks, sourceBuffer.Value(), arrived, taken, kept), i, sc)
          == Drain(true, Start(s0.audioChunks, s0.sink.value), 0, sc)
        invariant !mediaOpen ==> audioChunks == s0.audioChunks
        invariant !mediaOpen && sourceBuffer != null ==> sourceBuffer.Value() == old(sourceBuffer.Value())
        invariant isProcessing
        invariant currentCall == s0.call && salesText == s0.salesText && customerText == s0.customerText
        invariant signalingHandlers == s0.signalingHandlers && relay == s0.relay && capturing == s0.capturing
        invariant signalOut == s0.signalOut && relayOut == s0.relayOut
        decreases TotalFrom(sc.arrivals, i) + |audioChunks|, if i < |sc.ends| then |sc.ends| - i else 0,
                  if sourceBuffer != null && sourceBuffer.updating then 1 else 0
      {
        ghost var t := AppendIfIdle(i, sc, Pipe(audioChunks, sourceBuffer.Value(), arrived, taken, kept));
        ghost var r := Sleep(i, sc, t);
        arrived, taken, kept := r.arrived, r.taken, r.kept;
        TotalFromStep(sc.arrivals, i);
        i := i + 1;
      }
      isProcessing := false;
    }

    method OnRelayBlob(chunk: Chunk, sc: Schedule)
      requires mediaOpen ==> sourceBuffer != null
      modifies this, sourceBuffer
      ensures Snapshot() == RelayBlob(old(Snapshot()), chunk, sc)
    {
      if relay.handlers {
        audioChunks := audioChunks + [chunk];
        if !isProcessing {
          ProcessAudioQueue(sc);
        }
      }
    }
  }
}
