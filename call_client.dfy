/** The browser client of `static/audio.js`: the `currentCall` record, the three
    WebSocket channels (signaling, relay, transcription), the inbound audio
    queue drained into the MediaSource sink, and the transcript panel.

    The handlers are specified as step functions on a `Client` value; the class
    `Session` at the end holds the same state in fields, as the script's globals
    do, and each of its methods is proved to perform its step. */
module CallClient {
  import opened Common
  import opened ClientWire
  import opened MediaSink

  /** `currentCall`; `salesTranscript` and `customersTranscript` are
      `currentCall.transcripts.sales` and `.customers`. */
  datatype CurrentCall = CurrentCall(
    group: Option<string>, username: Option<string>, callId: Option<string>,
    peer: Option<Peer>, language: Option<string>,
    salesTranscript: seq<string>, customersTranscript: seq<string>)

  /** The transcription panel: the two partial-text boxes and the insight list. */
  datatype Panel = Panel(salesPartial: string, customerPartial: string, insights: seq<string>)

  datatype Client = Client(
    call: CurrentCall,
    panel: Panel,
    signalingHandlers: bool,
    relay: Channel,
    transcribe: Channel,
    capturing: bool,
    chunkQueue: seq<Chunk>,
    isProcessing: bool,
    awaitingUpdateEnd: bool,
    sink: Option<Sink>,
    signalOut: seq<Msg>,
    relayOut: seq<Frame>,
    transcribeOut: seq<Frame>)

  /** The login form: the checked group radio button (None when none is checked),
      the username box and the language selector. */
  datatype Form = Form(group: Option<string>, username: string, language: string)

  /** A JSON event on the transcription channel. `callId` is None when the
      field is missing. */
  datatype TranscribeEvent =
    | Transcription(callId: Option<string>, group: Option<string>, text: string, isFinal: bool)
    | Insight(callId: Option<string>, text: string)
    | OtherEvent(callId: Option<string>)

  const EmptyPanel := Panel("", "", [])

  /** The state once `initAudio` has finished: nobody registered, no call, the
      sockets still connecting, the sink ready. */
  const Initial := Client(
    CurrentCall(None, None, None, None, None, [], []), EmptyPanel, true,
    Channel(false, true), Channel(false, true), false, [], false, false, Some(Fresh), [], [], [])

  // ---------------------------------------------------------------------
  // Identity and call control

  /** `register(group, username)`. Arguments that are null or empty fall back to
      the form; with no group radio checked, reading it throws and nothing
      happens; with an empty group or username it only alerts. Otherwise the
      identity goes to the signaling server, and to the relay and transcription
      servers when their sockets are open, and is recorded in `currentCall`. */
  function Register(s: Client, group: Option<string>, username: Option<string>, form: Form): (r: Client)
    ensures var g, u := Pick(group, form.group), Pick(username, Some(form.username));
      if !Truthy(g) || !Truthy(u) then r == s
      else
        && r.call == s.call.(group := g, username := u, language := Some(form.language))
        && r.signalOut == s.signalOut + [Msg.Register(g.value, u.value, None)]
        && (r.relayOut != s.relayOut <==> s.relay.open)
        && (s.relay.open ==> r.relayOut == s.relayOut + [Text(Msg.Register(g.value, u.value, Some(form.language)))])
        && (r.transcribeOut != s.transcribeOut <==> s.transcribe.open)
        && (s.transcribe.open ==> r.transcribeOut == s.transcribeOut + [Text(Msg.Register(g.value, u.value, Some(form.language)))])
        && r == s.(call := r.call, signalOut := r.signalOut, relayOut := r.relayOut, transcribeOut := r.transcribeOut)
  {
    var g := Pick(group, form.group);
    var u := Pick(username, Some(form.username));
    if !Truthy(g) || !Truthy(u) then s
    else
      var m := Text(Msg.Register(g.value, u.value, Some(form.language)));
      s.(signalOut := s.signalOut + [Msg.Register(g.value, u.value, None)],
         relayOut := if s.relay.open then s.relayOut + [m] else s.relayOut,
         transcribeOut := if s.transcribe.open then s.transcribeOut + [m] else s.transcribeOut,
         call := s.call.(group := g, username := u, language := Some(form.language)))
  }

  /** `callUser(to_user)` at time `now`. Refused while a call id is set.
      Otherwise it names the call after the time and the local username, takes
      the opposite group for the peer, and announces the call with that same id;
      the panel is cleared for the new call. */
  function CallUser(s: Client, toUser: string, now: nat): (r: Client)
    ensures Truthy(s.call.callId) ==> r == s
    ensures !Truthy(s.call.callId) ==>
      && r.call.callId == Some(CallIdFor(now, s.call.username))
      && r.call.peer == Some(Peer(Some(Opposite(s.call.group)), Some(toUser)))
      && r.signalOut == s.signalOut + [Msg.CallUser(s.call.group, s.call.username, toUser, r.call.callId.value)]
      && r.panel == EmptyPanel
      && r.call.group == s.call.group && r.call.username == s.call.username
      && r.call == s.call.(callId := r.call.callId, peer := r.call.peer)
      && r == s.(call := r.call, signalOut := r.signalOut, panel := r.panel)
  {
    if Truthy(s.call.callId) then s
    else
      var id := CallIdFor(now, s.call.username);
      s.(call := s.call.(callId := Some(id), peer := Some(Peer(Some(Opposite(s.call.group)), Some(toUser)))),
         signalOut := s.signalOut + [Msg.CallUser(s.call.group, s.call.username, toUser, id)],
         panel := EmptyPanel)
  }

  /** `acceptCall()`: tells the server which offer is accepted, naming the peer as
      the caller. Reading the peer throws when there is none, before anything is
      sent. Audio capture is requested as well (see `CaptureGranted`). */
  function AcceptCall(s: Client): (r: Client)
    ensures s.call.peer.None? ==> r == s
    ensures s.call.peer.Some? ==>
      && r.signalOut == s.signalOut + [Msg.AcceptCall(s.call.callId, s.call.peer.value.group, s.call.peer.value.user, s.call.username)]
      && r.panel == EmptyPanel
      && r == s.(signalOut := r.signalOut, panel := r.panel)
  {
    match s.call.peer
    case None => s
    case Some(p) =>
      s.(signalOut := s.signalOut + [Msg.AcceptCall(s.call.callId, p.group, p.user, s.call.username)],
         panel := EmptyPanel)
  }

  /** The `call_ended` notice `endCall()` sends: one, for the current call id,
      when the transcription socket is open and a call id is set; none otherwise. */
  function EndedNotice(s: Client): (r: seq<Frame>)
    ensures r != [] <==> s.transcribe.open && Truthy(s.call.callId)
    ensures r != [] ==> r == [Text(CallEnded(s.call.callId.value))]
  {
    if s.transcribe.open && Truthy(s.call.callId) then [Text(CallEnded(s.call.callId.value))] else []
  }

  /** `mediaSource.endOfStream()` on an open MediaSource raises an
      InvalidStateError while its SourceBuffer is still absorbing an append (the
      `endOfStream()` algorithm of the Media Source Extensions standard checks
      `updating` before anything else). `endCall()` calls it without looking. */
  predicate EndOfStreamThrows(s: Client) {
    s.sink.Some? && s.sink.value.open && s.sink.value.updating
  }

  /** `endCall()`: stops capture, then ends the stream of an open MediaSource.
      When that raises, the rest of `endCall()` is skipped: nothing is sent and
      the call stays set. Otherwise it tells the transcription server the call
      ended (only when that socket is open and a call id is set), replaces the
      sink by a fresh one, empties the audio queue, clears the drain flags and
      forgets the call id and the peer. Identity and transcripts are kept. */
  function EndCall(s: Client): (r: Client)
    ensures EndOfStreamThrows(s) ==> r == s.(capturing := false)
    ensures !EndOfStreamThrows(s) ==>
      && r.chunkQueue == [] && !r.isProcessing && !r.awaitingUpdateEnd && !r.capturing
      && r.call.callId.None? && r.call.peer.None?
      && r.sink == Some(Fresh)
      && r.transcribeOut == s.transcribeOut + EndedNotice(s)
      && r.signalOut == s.signalOut && r.relayOut == s.relayOut && r.panel == s.panel
      && r.call == s.call.(callId := None, peer := None)
      && r.relay == s.relay && r.transcribe == s.transcribe && r.signalingHandlers == s.signalingHandlers
  {
    var stopped := s.(capturing := false);
    if EndOfStreamThrows(s) then stopped
    else
      stopped.(transcribeOut := s.transcribeOut + EndedNotice(s),
               sink := Some(Fresh),
               chunkQueue := [],
               isProcessing := false,
               awaitingUpdateEnd := false,
               call := s.call.(callId := None, peer := None))
  }

  /** `rejectCall()`: declines the offer (throwing, with no effect, when there is no
      peer) and ends the call. */
  function RejectCall(s: Client): (r: Client)
    ensures s.call.peer.None? ==> r == s
    ensures s.call.peer.Some? ==>
      r == EndCall(s.(signalOut := s.signalOut + [CallRejected(s.call.peer.value.group, s.call.peer.value.user, s.call.username)]))
  {
    match s.call.peer
    case None => s
    case Some(p) => EndCall(s.(signalOut := s.signalOut + [CallRejected(p.group, p.user, s.call.username)]))
  }

  /** `hangUp()`: with a call id set, sends `hang_up` for it and ends the call;
      otherwise does nothing. No call id is left unless `endCall()` raised. */
  function HangUp(s: Client): (r: Client)
    ensures !Truthy(r.call.callId) <==> !Truthy(s.call.callId) || !EndOfStreamThrows(s)
    ensures Truthy(s.call.callId) ==> r == EndCall(s.(signalOut := s.signalOut + [Msg.HangUp(s.call.callId.value)]))
    ensures !Truthy(s.call.callId) ==> r == s
  {
    if Truthy(s.call.callId) then EndCall(s.(signalOut := s.signalOut + [Msg.HangUp(s.call.callId.value)]))
    else s
  }

  /** `logout` button: announces the logout (the page reload that follows is not modelled). */
  function Logout(s: Client): (r: Client)
    ensures r == s.(signalOut := s.signalOut + [Msg.Logout(s.call.username)])
  {
    s.(signalOut := s.signalOut + [Msg.Logout(s.call.username)])
  }

  // ---------------------------------------------------------------------
  // Signaling messages (only the start-up socket has a message handler)

  /** `incoming_call`: records the caller and the offered call id, overwriting any
      call in progress: there is no busy check. */
  function IncomingCall(s: Client, fromUser: Option<string>, callId: Option<string>): (r: Client)
    ensures !s.signalingHandlers ==> r == s
    ensures s.signalingHandlers ==>
      r == s.(call := s.call.(peer := Some(Peer(None, fromUser)), callId := callId))
  {
    if !s.signalingHandlers then s
    else s.(call := s.call.(peer := Some(Peer(None, fromUser)), callId := callId))
  }

  /** `call_accepted`: replaces the peer by `{user: from_user}` (forgetting its
      group) and requests capture. The call id is left as it was. */
  function CallAccepted(s: Client, fromUser: Option<string>): (r: Client)
    ensures !s.signalingHandlers ==> r == s
    ensures s.signalingHandlers ==> r == s.(call := s.call.(peer := Some(Peer(None, fromUser))))
  {
    if !s.signalingHandlers then s
    else s.(call := s.call.(peer := Some(Peer(None, fromUser))))
  }

  /** `call_ended` from the signaling server. */
  function CallEndedNotice(s: Client): (r: Client)
    ensures !s.signalingHandlers ==> r == s
    ensures s.signalingHandlers ==> r == EndCall(s)
  {
    if !s.signalingHandlers then s else EndCall(s)
  }

  /** The signaling socket closed and its replacement opened. The start-up
      socket's `onclose` re-registers with the known identity (the replacement
      gets no handlers, so a second drop is not recovered). */
  function SignalingReconnected(s: Client, form: Form): (r: Client)
    ensures !s.signalingHandlers ==> r == s
    ensures s.signalingHandlers && !Truthy(s.call.username) ==> r == s.(signalingHandlers := false)
    ensures s.signalingHandlers && Truthy(s.call.username) ==>
      r == Register(s.(signalingHandlers := false), s.call.group, s.call.username, form)
  {
    if !s.signalingHandlers then s
    else
      var s' := s.(signalingHandlers := false);
      if Truthy(s.call.username) then Register(s', s.call.group, s.call.username, form) else s'
  }

  // ---------------------------------------------------------------------
  // Relay and transcription sockets

  /** `onopen` of a relay or transcription socket: only the start-up socket
      registers, and only when group and username are known. */
  function Opened(c: Channel, s: Client, out: seq<Frame>): (r: (Channel, seq<Frame>))
    ensures r.0 == c.(open := true)
    ensures r.1 == out + (if c.handlers && Truthy(s.call.group) && Truthy(s.call.username)
                          then [Text(Msg.Register(s.call.group.value, s.call.username.value, s.call.language))] else [])
  {
    var reg := if c.handlers && Truthy(s.call.group) && Truthy(s.call.username)
               then [Text(Msg.Register(s.call.group.value, s.call.username.value, s.call.language))] else [];
    (c.(open := true), out + reg)
  }

  function RelayOpened(s: Client): (r: Client) {
    var (c, out) := Opened(s.relay, s, s.relayOut);
    s.(relay := c, relayOut := out)
  }

  function TranscribeOpened(s: Client): (r: Client) {
    var (c, out) := Opened(s.transcribe, s, s.transcribeOut);
    s.(transcribe := c, transcribeOut := out)
  }

  /** Media capture became available (`getUserMedia` resolved). Nothing checks
      that the call is still on: a grant arriving after the call ended starts
      capture anyway. */
  function CaptureGranted(s: Client): (r: Client)
    ensures r == s.(capturing := true)
  {
    s.(capturing := true)
  }

  /** `recorder.ondataavailable`: a non-empty encoded segment goes to the relay
      when its socket is open, and is dropped otherwise. The handler only runs
      while a recorder is running, which `capturing` stands for; the recorder
      itself is not modelled. */
  function RecorderData(s: Client, data: Chunk): (r: Client)
    ensures r.relayOut == s.relayOut + (if s.capturing && |data| > 0 && s.relay.open then [Binary(data)] else [])
    ensures r == s.(relayOut := r.relayOut)
  {
    if s.capturing && |data| > 0 && s.relay.open then s.(relayOut := s.relayOut + [Binary(data)]) else s
  }

  /** `pcmNode.port.onmessage`: a PCM frame goes to the transcription server when
      its socket is open, and is dropped otherwise. */
  function PcmFrame(s: Client, data: Chunk): (r: Client)
    ensures r.transcribeOut == s.transcribeOut + (if s.capturing && s.transcribe.open then [Binary(data)] else [])
    ensures r == s.(transcribeOut := r.transcribeOut)
  {
    if s.capturing && s.transcribe.open then s.(transcribeOut := s.transcribeOut + [Binary(data)]) else s
  }

  // ---------------------------------------------------------------------
  // Inbound audio: the queue and its single-flight drain

  /** One drain step leaves the queue and the sink in one of three ways: nothing
      taken; the head taken and lost; or the head taken and appended, which only
      happens when the sink was idle. */
  ghost predicate DrainMove(s: Client, r: Client)
    requires s.sink.Some?
  {
    && r.sink.Some?
    && r.sink.value.open == s.sink.value.open
    && ((r.chunkQueue == s.chunkQueue && r.sink.value.appended == s.sink.value.appended)
        || (|s.chunkQueue| > 0 && r.chunkQueue == s.chunkQueue[1..]
            && (r.sink.value.appended == s.sink.value.appended
                || (!s.sink.value.updating && r.sink.value.appended == s.sink.value.appended + [s.chunkQueue[0]]))))
  }

  /** `appendNext()`: with the queue empty the drain ends; with the sink busy it
      waits for `updateend`; otherwise it takes the head and appends it. A
      refused append ends the drain and the chunk is lost; an accepted one makes
      the sink busy, so the re-invocation waits (or ends on an empty queue). */
  function AppendNext(s: Client, fails: bool): (r: Client)
    requires s.sink.Some?
    ensures DrainMove(s, r)
    ensures s.sink.value.updating ==> r.sink.value.appended == s.sink.value.appended
    ensures s.chunkQueue == [] || s.sink.value.updating ==> r.chunkQueue == s.chunkQueue && r.sink == s.sink
    ensures |s.chunkQueue| > 0 && !s.sink.value.updating && fails ==>
      r.chunkQueue == s.chunkQueue[1..] && r.sink == s.sink && !r.isProcessing
    ensures |s.chunkQueue| > 0 && !s.sink.value.updating && !fails ==>
      r.chunkQueue == s.chunkQueue[1..] && r.sink.value.updating
      && r.sink.value.appended == s.sink.value.appended + [s.chunkQueue[0]]
    ensures s.isProcessing && !s.awaitingUpdateEnd ==>
      r.isProcessing == r.awaitingUpdateEnd && (r.awaitingUpdateEnd ==> r.sink.value.updating)
    ensures r == s.(chunkQueue := r.chunkQueue, sink := r.sink,
                    isProcessing := r.isProcessing, awaitingUpdateEnd := r.awaitingUpdateEnd)
    decreases if s.sink.value.updating then 0 else 1
  {
    if s.chunkQueue == [] then s.(isProcessing := false)
    else if s.sink.value.updating then s.(awaitingUpdateEnd := true)
    else
      var chunk := s.chunkQueue[0];
      var taken := s.(chunkQueue := s.chunkQueue[1..]);
      if fails then taken.(isProcessing := false)
      else
        var sink := s.sink.value;
        AppendNext(taken.(sink := Some(sink.(updating := true, appended := sink.appended + [chunk]))), fails)
  }

  /** `processQueue()`: does nothing while a drain runs, before the sink exists,
      or while the MediaSource is not open; otherwise starts a drain. */
  function ProcessQueue(s: Client, fails: bool): (r: Client)
    ensures s.isProcessing || s.sink.None? || !s.sink.value.open ==> r == s
    ensures !(s.isProcessing || s.sink.None? || !s.sink.value.open) ==>
      r == AppendNext(s.(isProcessing := true), fails)
  {
    if s.isProcessing || s.sink.None? || !s.sink.value.open then s
    else AppendNext(s.(isProcessing := true), fails)
  }

  /** `udpSocket.onmessage` with a Blob: queue the chunk at the back and try to
      drain. Only the start-up relay socket has this handler. */
  function RelayBlob(s: Client, chunk: Chunk, fails: bool): (r: Client)
    ensures !s.relay.handlers ==> r == s
    ensures s.relay.handlers ==> r == ProcessQueue(s.(chunkQueue := s.chunkQueue + [chunk]), fails)
  {
    if !s.relay.handlers then s
    else ProcessQueue(s.(chunkQueue := s.chunkQueue + [chunk]), fails)
  }

  /** `updateend` on the sink: it is idle again, and a waiting drain resumes. */
  function UpdateEnd(s: Client, fails: bool): (r: Client)
    requires s.sink.Some?
    ensures !s.awaitingUpdateEnd ==> r == s.(sink := Some(s.sink.value.(updating := false)))
    ensures s.awaitingUpdateEnd ==>
      r == AppendNext(s.(sink := Some(s.sink.value.(updating := false)), awaitingUpdateEnd := false), fails)
  {
    var idle := s.(sink := Some(s.sink.value.(updating := false)));
    if s.awaitingUpdateEnd then AppendNext(idle.(awaitingUpdateEnd := false), fails) else idle
  }

  // ---------------------------------------------------------------------
  // Transcript aggregation

  /** An event on the transcription socket concerns the current call when the
      local user is on the sales side and the ids are strictly equal (a missing
      id never equals the null of an idle client). */
  predicate Concerns(s: Client, callId: Option<string>) {
    s.call.group == Some("sales") && callId.Some? && s.call.callId == callId
  }

  /** `transcribeSocket.onmessage`: a partial replaces that side's partial text; a
      final clears it and is appended to that side's transcript; an insight is
      appended to the insight list. Events for another call, or arriving on a
      sales-less client, are ignored. */
  function Transcribed(s: Client, ev: TranscribeEvent): (r: Client)
    ensures !s.transcribe.handlers || !Concerns(s, ev.callId) ==> r == s
    ensures r == s.(call := r.call, panel := r.panel)
    ensures r.call == s.call.(salesTranscript := r.call.salesTranscript,
                              customersTranscript := r.call.customersTranscript)
    ensures ev.Transcription? && !ev.isFinal ==>
      r.call == s.call
    ensures ev.Transcription? && ev.isFinal && s.transcribe.handlers && Concerns(s, ev.callId) ==>
      if ev.group == Some("sales")
      then r.call.salesTranscript == s.call.salesTranscript + [ev.text]
           && r.call.customersTranscript == s.call.customersTranscript && r.panel == s.panel.(salesPartial := "")
      else r.call.customersTranscript == s.call.customersTranscript + [ev.text]
           && r.call.salesTranscript == s.call.salesTranscript && r.panel == s.panel.(customerPartial := "")
    ensures ev.Transcription? && !ev.isFinal && s.transcribe.handlers && Concerns(s, ev.callId) ==>
      if ev.group == Some("sales")
      then r.panel == s.panel.(salesPartial := ev.text)
      else r.panel == s.panel.(customerPartial := ev.text)
    ensures ev.Insight? && s.transcribe.handlers && Concerns(s, ev.callId) ==>
      r == s.(panel := s.panel.(insights := s.panel.insights + [ev.text]))
    ensures ev.OtherEvent? ==> r == s
  {
    if !s.transcribe.handlers || !Concerns(s, ev.callId) then s
    else
      match ev
      case Transcription(_, group, text, isFinal) =>
        var sales := group == Some("sales");
        if !isFinal then
          if sales then s.(panel := s.panel.(salesPartial := text))
          else s.(panel := s.panel.(customerPartial := text))
        else if sales then
          s.(panel := s.panel.(salesPartial := ""),
             call := s.call.(salesTranscript := s.call.salesTranscript + [text]))
        else
          s.(panel := s.panel.(customerPartial := ""),
             call := s.call.(customersTranscript := s.call.customersTranscript + [text]))
      case Insight(_, text) => s.(panel := s.panel.(insights := s.panel.insights + [text]))
      case OtherEvent(_) => s
  }

  // ---------------------------------------------------------------------
  // Events and runs

  datatype Event =
    | DoRegister(group: Option<string>, username: Option<string>, form: Form)
    | DoCallUser(toUser: string, now: nat)
    | DoAcceptCall
    | DoRejectCall
    | DoHangUp
    | DoLogout
    | GotIncomingCall(fromUser: Option<string>, callId: Option<string>)
    | GotCallAccepted(fromUser: Option<string>)
    | GotCallEnded
    | SignalingDropped(form: Form)
    | RelayOpen
    | RelayClose
    | TranscribeOpen
    | TranscribeClose
    | CaptureOk
    | CaptureDenied
    | Recorded(data: Chunk)
    | Pcm(data: Chunk)
    | GotBlob(chunk: Chunk, fails: bool)
    | SinkUpdateEnd(fails: bool)
    | GotTranscription(ev: TranscribeEvent)

  function Step(s: Client, e: Event): Client {
    match e
    case DoRegister(g, u, f) => Register(s, g, u, f)
    case DoCallUser(to, now) => CallUser(s, to, now)
    case DoAcceptCall => AcceptCall(s)
    case DoRejectCall => RejectCall(s)
    case DoHangUp => HangUp(s)
    case DoLogout => Logout(s)
    case GotIncomingCall(from, id) => IncomingCall(s, from, id)
    case GotCallAccepted(from) => CallAccepted(s, from)
    case GotCallEnded => CallEndedNotice(s)
    case SignalingDropped(f) => SignalingReconnected(s, f)
    case RelayOpen => RelayOpened(s)
    case RelayClose => s.(relay := Replacement)
    case TranscribeOpen => TranscribeOpened(s)
    case TranscribeClose => s.(transcribe := Replacement)
    case CaptureOk => CaptureGranted(s)
    case CaptureDenied => EndCall(s)
    case Recorded(d) => RecorderData(s, d)
    case Pcm(d) => PcmFrame(s, d)
    case GotBlob(c, fails) => RelayBlob(s, c, fails)
    case SinkUpdateEnd(fails) => if s.sink.Some? then UpdateEnd(s, fails) else s
    case GotTranscription(ev) => Transcribed(s, ev)
  }

  function Run(s: Client, evs: seq<Event>): Client
    decreases |evs|
  {
    if evs == [] then s else Run(Step(s, evs[0]), evs[1..])
  }

  /** The drain bookkeeping the handlers keep: a drain in progress is always
      parked on `updateend` of a busy sink, so it cannot stall, and no drain is
      parked when none is in progress. */
  ghost predicate DrainInv(s: Client) {
    && s.sink.Some?
    && s.isProcessing == s.awaitingUpdateEnd
    && (s.awaitingUpdateEnd ==> s.sink.value.updating)
  }

  lemma InitialDrainInv()
    ensures DrainInv(Initial)
  {
  }

  lemma StepKeepsDrainInv(s: Client, e: Event)
    requires DrainInv(s)
    ensures DrainInv(Step(s, e))
  {
    match e
    case GotBlob(c, fails) =>
      if s.relay.handlers {
        var q := s.(chunkQueue := s.chunkQueue + [c]);
        if !(q.isProcessing || q.sink.None? || !q.sink.value.open) {
        }
      }
    case SinkUpdateEnd(fails) =>
    case _ =>
  }

  lemma {:induction false} RunKeepsDrainInv(s: Client, evs: seq<Event>)
    requires DrainInv(s)
    ensures DrainInv(Run(s, evs))
    decreases |evs|
  {
    if evs != [] {
      StepKeepsDrainInv(s, evs[0]);
      RunKeepsDrainInv(Step(s, evs[0]), evs[1..]);
    }
  }

  /** Ending a call twice is ending it once. */
  lemma EndCallIdempotent(s: Client)
    ensures EndCall(EndCall(s)) == EndCall(s)
  {
  }

  /** Hanging up twice is hanging up once, and at most one `hang_up` and one
      `call_ended` notice leave the client, unless ending the call raised. Then
      the call is still set, and the second `hangUp` sends `hang_up` again. */
  lemma HangUpIdempotent(s: Client)
    ensures !(Truthy(s.call.callId) && EndOfStreamThrows(s)) ==>
      && HangUp(HangUp(s)) == HangUp(s)
      && |HangUp(HangUp(s)).signalOut| <= |s.signalOut| + 1
      && |HangUp(HangUp(s)).transcribeOut| <= |s.transcribeOut| + 1
    ensures Truthy(s.call.callId) && EndOfStreamThrows(s) ==>
      HangUp(HangUp(s)).signalOut == s.signalOut + [Msg.HangUp(s.call.callId.value), Msg.HangUp(s.call.callId.value)]
  {
  }

  /** An offer arriving during a call replaces that call's id and peer. */
  lemma IncomingCallOverwritesCall(s: Client, from: Option<string>, id: string)
    requires s.signalingHandlers && Truthy(s.call.callId) && s.call.callId != Some(id)
    ensures IncomingCall(s, from, Some(id)).call.callId == Some(id)
    ensures IncomingCall(s, from, Some(id)).call.peer == Some(Peer(None, from))
  {
  }

  /** Dialing announces exactly the id it stores, and a later hang-up echoes it. */
  lemma CallIdEchoed(s: Client, to: string, now: nat)
    requires !Truthy(s.call.callId)
    ensures var d := CallUser(s, to, now);
      && d.signalOut[|d.signalOut| - 1].callId == d.call.callId.value
      && HangUp(d).signalOut == d.signalOut + [Msg.HangUp(d.call.callId.value)]
  {
    var d := CallUser(s, to, now);
    assert d.call.callId.value == CallIdFor(now, s.call.username);
    assert "call_" <= d.call.callId.value;
  }

  // ---------------------------------------------------------------------
  // Order of inbound audio across a run of audio events

  /** The two events that move inbound audio: a Blob on the relay socket and
      `updateend` on the sink (each with the outcome of the append it may try). */
  datatype AudioEvent = Blob(chunk: Chunk, fails: bool) | SinkIdle(fails: bool)

  function AsEvent(a: AudioEvent): Event {
    match a
    case Blob(c, fails) => GotBlob(c, fails)
    case SinkIdle(fails) => SinkUpdateEnd(fails)
  }

  function AsEvents(xs: seq<AudioEvent>): (r: seq<Event>)
    ensures |r| == |xs|
    decreases |xs|
  {
    if xs == [] then [] else [AsEvent(xs[0])] + AsEvents(xs[1..])
  }

  function AudioStep(s: Client, a: AudioEvent): Client {
    match a
    case Blob(c, fails) => RelayBlob(s, c, fails)
    case SinkIdle(fails) => if s.sink.Some? then UpdateEnd(s, fails) else s
  }

  function RunAudio(s: Client, xs: seq<AudioEvent>): Client
    decreases |xs|
  {
    if xs == [] then s else RunAudio(AudioStep(s, xs[0]), xs[1..])
  }

  /** An audio run is the run of the corresponding client events. */
  lemma {:induction false} RunAudioIsRun(s: Client, xs: seq<AudioEvent>)
    ensures Run(s, AsEvents(xs)) == RunAudio(s, xs)
    decreases |xs|
  {
    if xs != [] {
      var evs := AsEvents(xs);
      assert evs[0] == AsEvent(xs[0]) && evs[1..] == AsEvents(xs[1..]);
      assert Step(s, evs[0]) == AudioStep(s, xs[0]);
      RunAudioIsRun(AudioStep(s, xs[0]), xs[1..]);
    }
  }

  /** The chunk an audio event puts at the back of the queue, if any. */
  function Arrived(s: Client, a: AudioEvent): seq<Chunk> {
    if a.Blob? && s.relay.handlers then [a.chunk] else []
  }

  /** Chunks received during a run of audio events, in order. */
  function Arrivals(s: Client, xs: seq<AudioEvent>): seq<Chunk>
    decreases |xs|
  {
    if xs == [] then [] else Arrived(s, xs[0]) + Arrivals(AudioStep(s, xs[0]), xs[1..])
  }

  /** One drain move on the queue `q` (after the arrival) and the sink's
      segments: nothing taken, the head lost, or the head appended. */
  predicate Moved(q: seq<Chunk>, q1: seq<Chunk>, a0: seq<Chunk>, a1: seq<Chunk>) {
    (q1 == q && a1 == a0) || (|q| > 0 && q1 == q[1..] && (a1 == a0 || a1 == a0 + [q[0]]))
  }

  /** One audio event keeps the drain bookkeeping and makes one drain move. */
  lemma AudioStepMoves(s: Client, a: AudioEvent)
    requires DrainInv(s)
    ensures var r := AudioStep(s, a);
      && DrainInv(r) && r.relay == s.relay
      && Moved(s.chunkQueue + Arrived(s, a), r.chunkQueue, s.sink.value.appended, r.sink.value.appended)
  {
    StepKeepsDrainInv(s, AsEvent(a));
    match a
    case Blob(c, fails) =>
      if s.relay.handlers {
        var q := s.(chunkQueue := s.chunkQueue + [c]);
        if !(q.isProcessing || q.sink.None? || !q.sink.value.open) {
          assert DrainMove(q.(isProcessing := true), AppendNext(q.(isProcessing := true), fails));
        }
      }
    case SinkIdle(fails) =>
      var idle := s.(sink := Some(s.sink.value.(updating := false)));
      if s.awaitingUpdateEnd {
        assert DrainMove(idle.(awaitingUpdateEnd := false), AppendNext(idle.(awaitingUpdateEnd := false), fails));
      }
  }

  /** `total` is everything that was queued, `a0` what the sink held to begin
      with; at the end `rq` is queued and the sink holds `ar`: `ar` extends `a0`
      by a subsequence of the part of `total` already taken, and `rq` is the rest. */
  ghost predicate InOrder(total: seq<Chunk>, a0: seq<Chunk>, rq: seq<Chunk>, ar: seq<Chunk>) {
    && |rq| <= |total|
    && rq == total[|total| - |rq|..]
    && |a0| <= |ar|
    && ar[..|a0|] == a0
    && IsSubseq(ar[|a0|..], total[..|total| - |rq|])
  }

  /** The bookkeeping of `AudioInOrder` for one more drain move in front of a
      run: `q` is the queue after the arrival, `q1` after the move, `a0`/`a1` the
      sink's segments before/after it, `rq`/`ar` queue and segments at the end. */
  lemma InOrderCons(q: seq<Chunk>, q1: seq<Chunk>, rest: seq<Chunk>, rq: seq<Chunk>,
                    a0: seq<Chunk>, a1: seq<Chunk>, ar: seq<Chunk>)
    requires Moved(q, q1, a0, a1)
    requires InOrder(q1 + rest, a1, rq, ar)
    ensures InOrder(q + rest, a0, rq, ar)
  {
    var t, t1 := q + rest, q1 + rest;
    var n1 := |t1| - |rq|;
    var d1 := ar[|a1|..];
    if q1 != q {
      assert t == [q[0]] + t1;
      assert t[..n1 + 1] == [q[0]] + t1[..n1];
      assert t[..n1 + 1][1..] == t1[..n1];
      if a1 == a0 {
        SubseqDropHead(d1, t[..n1 + 1]);
      } else {
        assert ar[..|a1|][..|a0|] == a0;
        assert ar[|a0|..] == [q[0]] + d1;
        assert ([q[0]] + d1)[1..] == d1;
      }
    }
  }

  /** Over any run of audio events, the chunks the sink accepts are the received
      chunks in arrival order with some lost (refused appends), never repeated or
      reordered, and what is still queued is the tail of what was received. */
  lemma {:induction false} AudioInOrder(s: Client, xs: seq<AudioEvent>)
    requires DrainInv(s)
    ensures RunAudio(s, xs).sink.Some?
    ensures InOrder(s.chunkQueue + Arrivals(s, xs), s.sink.value.appended,
                    RunAudio(s, xs).chunkQueue, RunAudio(s, xs).sink.value.appended)
    decreases |xs|
  {
    if xs == [] {
      assert s.chunkQueue + Arrivals(s, xs) == s.chunkQueue;
      assert s.sink.value.appended[|s.sink.value.appended|..] == [];
    } else {
      var s1 := AudioStep(s, xs[0]);
      AudioStepMoves(s, xs[0]);
      AudioInOrder(s1, xs[1..]);
      var r := RunAudio(s1, xs[1..]);
      var rest := Arrivals(s1, xs[1..]);
      assert Arrivals(s, xs) == Arrived(s, xs[0]) + rest;
      ConcatAssoc(s.chunkQueue, Arrived(s, xs[0]), rest);
      InOrderCons(s.chunkQueue + Arrived(s, xs[0]), s1.chunkQueue, rest, r.chunkQueue,
                  s.sink.value.appended, s1.sink.value.appended, r.sink.value.appended);
    }
  }

  /** One drain move in which nothing is lost: nothing is taken, or the head of
      `q` is taken and appended. */
  predicate Kept(q: seq<Chunk>, q1: seq<Chunk>, a0: seq<Chunk>, a1: seq<Chunk>) {
    (q1 == q && a1 == a0) || (|q| > 0 && q1 == q[1..] && a1 == a0 + [q[0]])
  }

  /** An audio event whose append (if it tries one) succeeds loses nothing. */
  lemma AudioStepKeeps(s: Client, a: AudioEvent)
    requires DrainInv(s) && !a.fails
    ensures var r := AudioStep(s, a);
      && DrainInv(r) && r.relay == s.relay
      && Kept(s.chunkQueue + Arrived(s, a), r.chunkQueue, s.sink.value.appended, r.sink.value.appended)
  {
    StepKeepsDrainInv(s, AsEvent(a));
    match a
    case Blob(c, fails) =>
      if !s.relay.handlers {
        assert s.chunkQueue + Arrived(s, a) == s.chunkQueue;
      }
    case SinkIdle(fails) =>
      assert Arrived(s, a) == [] && s.chunkQueue + [] == s.chunkQueue;
  }

  /** `total` was queued, `a0` held by the sink to begin with; at the end `rq`
      is queued and the sink holds `ar`: `ar` is `a0` followed by exactly the
      part of `total` taken off the queue. */
  ghost predicate Delivered(total: seq<Chunk>, a0: seq<Chunk>, rq: seq<Chunk>, ar: seq<Chunk>) {
    && |rq| <= |total|
    && rq == total[|total| - |rq|..]
    && ar == a0 + total[..|total| - |rq|]
  }

  lemma DeliveredCons(q: seq<Chunk>, q1: seq<Chunk>, rest: seq<Chunk>, rq: seq<Chunk>,
                      a0: seq<Chunk>, a1: seq<Chunk>, ar: seq<Chunk>)
    requires Kept(q, q1, a0, a1)
    requires Delivered(q1 + rest, a1, rq, ar)
    ensures Delivered(q + rest, a0, rq, ar)
  {
    if q1 != q {
      var t, t1 := q + rest, q1 + rest;
      var n1 := |t1| - |rq|;
      assert t == [q[0]] + t1;
      assert t[..n1 + 1] == [q[0]] + t1[..n1];
      ConcatAssoc(a0, [q[0]], t1[..n1]);
    }
  }

  /** When no append is refused, nothing is lost: over any run of audio events
      the sink receives exactly the chunks taken off the queue, in arrival order. */
  lemma {:induction false} AudioNoLoss(s: Client, xs: seq<AudioEvent>)
    requires DrainInv(s)
    requires forall i :: 0 <= i < |xs| ==> !xs[i].fails
    ensures RunAudio(s, xs).sink.Some?
    ensures Delivered(s.chunkQueue + Arrivals(s, xs), s.sink.value.appended,
                      RunAudio(s, xs).chunkQueue, RunAudio(s, xs).sink.value.appended)
    decreases |xs|
  {
    if xs == [] {
      assert s.chunkQueue + Arrivals(s, xs) == s.chunkQueue;
      assert s.sink.value.appended + [] == s.sink.value.appended;
    } else {
      var s1 := AudioStep(s, xs[0]);
      AudioStepKeeps(s, xs[0]);
      assert forall i :: 0 <= i < |xs[1..]| ==> !xs[1..][i].fails by {
        forall i | 0 <= i < |xs[1..]| ensures !xs[1..][i].fails {
          assert xs[1..][i] == xs[i + 1];
        }
      }
      AudioNoLoss(s1, xs[1..]);
      var r := RunAudio(s1, xs[1..]);
      var rest := Arrivals(s1, xs[1..]);
      assert Arrivals(s, xs) == Arrived(s, xs[0]) + rest;
      ConcatAssoc(s.chunkQueue, Arrived(s, xs[0]), rest);
      DeliveredCons(s.chunkQueue + Arrived(s, xs[0]), s1.chunkQueue, rest, r.chunkQueue,
                    s.sink.value.appended, s1.sink.value.appended, r.sink.value.appended);
    }
  }

  // ---------------------------------------------------------------------
  // Transcripts across a run of transcription events

  /** The final text `e` adds to one side's transcript: its text when it is a
      final for that side of the current call, nothing otherwise. */
  function FinalOf(s: Client, e: TranscribeEvent, sales: bool): seq<string> {
    if s.transcribe.handlers && Concerns(s, e.callId) && e.Transcription? && e.isFinal
       && (e.group == Some("sales")) == sales
    then [e.text] else []
  }

  /** The final texts among `evs` that concern the current call, for one side. */
  function FinalTexts(s: Client, evs: seq<TranscribeEvent>, sales: bool): seq<string>
    decreases |evs|
  {
    if evs == [] then [] else FinalOf(s, evs[0], sales) + FinalTexts(s, evs[1..], sales)
  }

  function RunTranscription(s: Client, evs: seq<TranscribeEvent>): Client
    decreases |evs|
  {
    if evs == [] then s else RunTranscription(Transcribed(s, evs[0]), evs[1..])
  }

  /** One transcription event extends each transcript by its `FinalOf` and
      leaves what decides "the current call" alone. */
  lemma TranscribedFinal(s: Client, e: TranscribeEvent)
    ensures var r := Transcribed(s, e);
      && r.call.salesTranscript == s.call.salesTranscript + FinalOf(s, e, true)
      && r.call.customersTranscript == s.call.customersTranscript + FinalOf(s, e, false)
      && r.call.group == s.call.group && r.call.callId == s.call.callId && r.transcribe == s.transcribe
  {
  }

  lemma {:induction false} FinalTextsSameCall(s: Client, t: Client, evs: seq<TranscribeEvent>, sales: bool)
    requires s.call.group == t.call.group && s.call.callId == t.call.callId
    requires s.transcribe == t.transcribe
    ensures FinalTexts(s, evs, sales) == FinalTexts(t, evs, sales)
    decreases |evs|
  {
    if evs != [] {
      FinalTextsSameCall(s, t, evs[1..], sales);
    }
  }

  /** Partial text never reaches the transcripts: after any run of transcription
      events, each side's transcript is what it was plus exactly the final texts
      of that side for the current call, in arrival order. */
  lemma {:induction false} TranscriptsAreFinals(s: Client, evs: seq<TranscribeEvent>)
    ensures RunTranscription(s, evs).call.salesTranscript == s.call.salesTranscript + FinalTexts(s, evs, true)
    ensures RunTranscription(s, evs).call.customersTranscript == s.call.customersTranscript + FinalTexts(s, evs, false)
    ensures RunTranscription(s, evs).call.callId == s.call.callId
    decreases |evs|
  {
    if evs == [] {
      assert FinalTexts(s, evs, true) == [] && FinalTexts(s, evs, false) == [];
    } else {
      var s1 := Transcribed(s, evs[0]);
      TranscribedFinal(s, evs[0]);
      TranscriptsAreFinals(s1, evs[1..]);
      FinalTextsSameCall(s, s1, evs[1..], true);
      FinalTextsSameCall(s, s1, evs[1..], false);
      var r := RunTranscription(s1, evs[1..]);
      assert RunTranscription(s, evs) == r;
      assert FinalTexts(s, evs, true) == FinalOf(s, evs[0], true) + FinalTexts(s, evs[1..], true);
      assert FinalTexts(s, evs, false) == FinalOf(s, evs[0], false) + FinalTexts(s, evs[1..], false);
      ConcatAssoc(s.call.salesTranscript, FinalOf(s, evs[0], true), FinalTexts(s, evs[1..], true));
      ConcatAssoc(s.call.customersTranscript, FinalOf(s, evs[0], false), FinalTexts(s, evs[1..], false));
    }
  }

  // ---------------------------------------------------------------------
  // Identity, capture and the small handlers, across runs

  /** Once an identity is recorded, only the user's own `register` changes it:
      a reconnect re-registers the same names, and no other handler touches them. */
  lemma StepKeepsIdentity(s: Client, e: Event)
    requires Truthy(s.call.group) && Truthy(s.call.username) && !e.DoRegister?
    ensures Step(s, e).call.group == s.call.group && Step(s, e).call.username == s.call.username
  {
    if IsControl(e) {
      ControlKeepsIdentity(s, e);
    }
  }

  predicate IsControl(e: Event) {
    e.DoCallUser? || e.DoAcceptCall? || e.DoRejectCall? || e.DoHangUp? || e.DoLogout?
    || e.GotIncomingCall? || e.GotCallAccepted? || e.GotCallEnded? || e.SignalingDropped?
  }

  lemma ControlKeepsIdentity(s: Client, e: Event)
    requires Truthy(s.call.group) && Truthy(s.call.username) && IsControl(e)
    ensures Step(s, e).call.group == s.call.group && Step(s, e).call.username == s.call.username
  {
    if e.SignalingDropped? && s.signalingHandlers {
      assert Pick(s.call.group, e.form.group) == s.call.group;
      assert Pick(s.call.username, Some(e.form.username)) == s.call.username;
    }
  }

  lemma {:induction false} RunKeepsIdentity(s: Client, evs: seq<Event>)
    requires Truthy(s.call.group) && Truthy(s.call.username)
    requires forall i :: 0 <= i < |evs| ==> !evs[i].DoRegister?
    ensures Run(s, evs).call.group == s.call.group && Run(s, evs).call.username == s.call.username
    decreases |evs|
  {
    if evs != [] {
      StepKeepsIdentity(s, evs[0]);
      assert forall i :: 0 <= i < |evs[1..]| ==> !evs[1..][i].DoRegister? by {
        forall i | 0 <= i < |evs[1..]| ensures !evs[1..][i].DoRegister? {
          assert evs[1..][i] == evs[i + 1];
        }
      }
      RunKeepsIdentity(Step(s, evs[0]), evs[1..]);
    }
  }

  /** `logout` names the user who registered, whatever happened in between
      short of another `register`. */
  lemma LogoutNamesRegistered(s: Client, group: Option<string>, username: Option<string>, form: Form, evs: seq<Event>)
    requires Truthy(Pick(group, form.group)) && Truthy(Pick(username, Some(form.username)))
    requires forall i :: 0 <= i < |evs| ==> !evs[i].DoRegister?
    ensures var r := Run(Register(s, group, username, form), evs);
      Logout(r).signalOut == r.signalOut + [Msg.Logout(Pick(username, Some(form.username)))]
  {
    RunKeepsIdentity(Register(s, group, username, form), evs);
  }

  /** `register` sends no audio. */
  lemma RegisterSendsNoAudio(s: Client, group: Option<string>, username: Option<string>, form: Form)
    ensures var r := Register(s, group, username, form);
      Payloads(r.relayOut) == Payloads(s.relayOut) && Payloads(r.transcribeOut) == Payloads(s.transcribeOut)
  {
    var g, u := Pick(group, form.group), Pick(username, Some(form.username));
    if Truthy(g) && Truthy(u) {
      var m := Msg.Register(g.value, u.value, Some(form.language));
      PayloadsText(s.relayOut, m);
      PayloadsText(s.transcribeOut, m);
    }
  }

  /** `endCall()` sends no audio. */
  lemma EndCallSendsNoAudio(s: Client)
    ensures Payloads(EndCall(s).relayOut) == Payloads(s.relayOut)
    ensures Payloads(EndCall(s).transcribeOut) == Payloads(s.transcribeOut)
  {
    if !EndOfStreamThrows(s) {
      if EndedNotice(s) != [] {
        PayloadsText(s.transcribeOut, CallEnded(s.call.callId.value));
      } else {
        assert s.transcribeOut + [] == s.transcribeOut;
      }
    }
  }

  /** An `onopen` registration sends no audio. */
  lemma OpenedSendsNoAudio(c: Channel, s: Client, out: seq<Frame>)
    ensures Payloads(Opened(c, s, out).1) == Payloads(out)
  {
    if c.handlers && Truthy(s.call.group) && Truthy(s.call.username) {
      PayloadsText(out, Msg.Register(s.call.group.value, s.call.username.value, s.call.language));
    } else {
      assert out + [] == out;
    }
  }

  /** Before capture is granted no event sends audio, and only the grant starts capture. */
  lemma StepWithoutCapture(s: Client, e: Event)
    requires !s.capturing && !e.CaptureOk?
    ensures var r := Step(s, e);
      && !r.capturing
      && Payloads(r.relayOut) == Payloads(s.relayOut) && Payloads(r.transcribeOut) == Payloads(s.transcribeOut)
  {
    if IsControl(e) {
      ControlWithoutCapture(s, e);
    } else if IsMedia(e) {
      MediaWithoutCapture(s, e);
    } else {
      match e
      case DoRegister(g, u, f) => RegisterSendsNoAudio(s, g, u, f);
      case CaptureDenied => EndCallSendsNoAudio(s);
      case RelayOpen => OpenedSendsNoAudio(s.relay, s, s.relayOut);
      case TranscribeOpen => OpenedSendsNoAudio(s.transcribe, s, s.transcribeOut);
      case _ =>
    }
  }

  /** The events of inbound audio. */
  predicate IsMedia(e: Event) {
    e.GotBlob? || e.SinkUpdateEnd?
  }

  lemma MediaWithoutCapture(s: Client, e: Event)
    requires !s.capturing && IsMedia(e)
    ensures var r := Step(s, e);
      && !r.capturing && r.relayOut == s.relayOut && r.transcribeOut == s.transcribeOut
  {
  }

  lemma ControlWithoutCapture(s: Client, e: Event)
    requires !s.capturing && IsControl(e)
    ensures var r := Step(s, e);
      && !r.capturing
      && Payloads(r.relayOut) == Payloads(s.relayOut) && Payloads(r.transcribeOut) == Payloads(s.transcribeOut)
  {
    match e
    case DoRejectCall =>
      if s.call.peer.Some? {
        EndCallSendsNoAudio(s.(signalOut := s.signalOut + [CallRejected(s.call.peer.value.group, s.call.peer.value.user, s.call.username)]));
      }
    case DoHangUp =>
      if Truthy(s.call.callId) {
        EndCallSendsNoAudio(s.(signalOut := s.signalOut + [Msg.HangUp(s.call.callId.value)]));
      }
    case GotCallEnded => EndCallSendsNoAudio(s);
    case SignalingDropped(f) =>
      if s.signalingHandlers && Truthy(s.call.username) {
        RegisterSendsNoAudio(s.(signalingHandlers := false), s.call.group, s.call.username, f);
      }
    case _ =>
  }

  /** No audio leaves the client before capture is granted: a run with no grant,
      from a state that is not capturing, adds no binary frame to the relay or
      the transcription socket. */
  lemma {:induction false} NoCaptureNoAudio(s: Client, evs: seq<Event>)
    requires !s.capturing
    requires forall i :: 0 <= i < |evs| ==> !evs[i].CaptureOk?
    ensures !Run(s, evs).capturing
    ensures Payloads(Run(s, evs).relayOut) == Payloads(s.relayOut)
    ensures Payloads(Run(s, evs).transcribeOut) == Payloads(s.transcribeOut)
    decreases |evs|
  {
    if evs != [] {
      StepWithoutCapture(s, evs[0]);
      assert forall i :: 0 <= i < |evs[1..]| ==> !evs[1..][i].CaptureOk? by {
        forall i | 0 <= i < |evs[1..]| ensures !evs[1..][i].CaptureOk? {
          assert evs[1..][i] == evs[i + 1];
        }
      }
      NoCaptureNoAudio(Step(s, evs[0]), evs[1..]);
    }
  }

  /** A stretch of `ondataavailable` events, one per recorded segment. */
  function Recordings(ds: seq<Chunk>): (r: seq<Event>)
    ensures |r| == |ds| && forall i :: 0 <= i < |ds| ==> r[i] == Recorded(ds[i])
    decreases |ds|
  {
    if ds == [] then [] else [Recorded(ds[0])] + Recordings(ds[1..])
  }

  /** A stretch of PCM frames from the worklet. */
  function PcmFrames(ds: seq<Chunk>): (r: seq<Event>)
    ensures |r| == |ds| && forall i :: 0 <= i < |ds| ==> r[i] == Pcm(ds[i])
    decreases |ds|
  {
    if ds == [] then [] else [Pcm(ds[0])] + PcmFrames(ds[1..])
  }

  function RunRecorder(s: Client, ds: seq<Chunk>): Client
    decreases |ds|
  {
    if ds == [] then s else RunRecorder(RecorderData(s, ds[0]), ds[1..])
  }

  function RunPcm(s: Client, ds: seq<Chunk>): Client
    decreases |ds|
  {
    if ds == [] then s else RunPcm(PcmFrame(s, ds[0]), ds[1..])
  }

  /** A run of recorder events is the run of the corresponding client events. */
  lemma {:induction false} RunRecorderIsRun(s: Client, ds: seq<Chunk>)
    ensures Run(s, Recordings(ds)) == RunRecorder(s, ds)
    decreases |ds|
  {
    if ds != [] {
      assert Recordings(ds)[1..] == Recordings(ds[1..]);
      RunRecorderIsRun(RecorderData(s, ds[0]), ds[1..]);
    }
  }

  /** A run of PCM events is the run of the corresponding client events. */
  lemma {:induction false} RunPcmIsRun(s: Client, ds: seq<Chunk>)
    ensures Run(s, PcmFrames(ds)) == RunPcm(s, ds)
    decreases |ds|
  {
    if ds != [] {
      assert PcmFrames(ds)[1..] == PcmFrames(ds[1..]);
      RunPcmIsRun(PcmFrame(s, ds[0]), ds[1..]);
    }
  }

  /** While capturing with the relay open, the recorder's non-empty segments go
      to the relay in order and nothing else changes; otherwise they are dropped. */
  lemma {:induction false} RecorderSends(s: Client, ds: seq<Chunk>)
    ensures RunRecorder(s, ds)
         == s.(relayOut := s.relayOut + if s.capturing && s.relay.open then AudioFrames(NonEmpty(ds)) else [])
    decreases |ds|
  {
    if ds == [] {
      assert s.relayOut + [] == s.relayOut;
    } else {
      var s1 := RecorderData(s, ds[0]);
      RecorderSends(s1, ds[1..]);
      var head := if |ds[0]| > 0 then [ds[0]] else [];
      assert NonEmpty(ds) == head + NonEmpty(ds[1..]);
      assert AudioFrames(head + NonEmpty(ds[1..])) == AudioFrames(head) + AudioFrames(NonEmpty(ds[1..]));
      if s.capturing && s.relay.open {
        assert s1.relayOut == s.relayOut + AudioFrames(head);
        ConcatAssoc(s.relayOut, AudioFrames(head), AudioFrames(NonEmpty(ds[1..])));
      } else {
        assert s1 == s;
        assert s.relayOut + [] == s.relayOut;
      }
    }
  }

  /** While capturing with the transcription socket open, every PCM frame goes
      to it in order, even an empty one, and nothing else changes; otherwise
      they are dropped. */
  lemma {:induction false} PcmSends(s: Client, ds: seq<Chunk>)
    ensures RunPcm(s, ds)
         == s.(transcribeOut := s.transcribeOut + if s.capturing && s.transcribe.open then AudioFrames(ds) else [])
    decreases |ds|
  {
    if ds == [] {
      assert s.transcribeOut + [] == s.transcribeOut;
    } else {
      var s1 := PcmFrame(s, ds[0]);
      PcmSends(s1, ds[1..]);
      assert AudioFrames(ds) == [Binary(ds[0])] + AudioFrames(ds[1..]);
      if s.capturing && s.transcribe.open {
        ConcatAssoc(s.transcribeOut, [Binary(ds[0])], AudioFrames(ds[1..]));
      } else {
        assert s.transcribeOut + [] == s.transcribeOut;
      }
    }
  }

  /** Nothing checks that the call is still on when capture is granted: a grant
      arriving after the call ended starts capture, and a recorded segment then
      goes to an open relay with no call in progress. */
  lemma LateGrantStillSends(s: Client, d: Chunk)
    requires !EndOfStreamThrows(s) && s.relay.open && |d| > 0
    ensures var r := RecorderData(CaptureGranted(EndCall(s)), d);
      r.call.callId.None? && r.relayOut == s.relayOut + [Binary(d)]
  {
  }

  /** The callee accepts the very offer it was sent: `accept_call` carries the
      offered id, the caller as `from_user`, no `from_group` (the offer does not
      carry one) and itself as `to_user`. */
  lemma AcceptAnswersOffer(s: Client, from: Option<string>, id: Option<string>)
    requires s.signalingHandlers
    ensures AcceptCall(IncomingCall(s, from, id)).signalOut
         == s.signalOut + [Msg.AcceptCall(id, None, from, s.call.username)]
  {
  }

  /** `call_accepted` keeps the call the caller dialed: its id is still the one
      announced, so `hang_up` names that call; only the peer's group is forgotten. */
  lemma AcceptedKeepsDialedCall(s: Client, to: string, now: nat, from: Option<string>)
    requires !Truthy(s.call.callId) && s.signalingHandlers
    ensures var a := CallAccepted(CallUser(s, to, now), from);
      && a.call.callId == Some(CallIdFor(now, s.call.username))
      && a.call.peer == Some(Peer(None, from))
      && HangUp(a).signalOut == a.signalOut + [Msg.HangUp(CallIdFor(now, s.call.username))]
  {
  }

  /** At start-up `register` races the relay and transcription sockets'
      `onopen`. In either order each socket gets exactly one `register`, with
      the identity and the language of the form. */
  lemma RegisterOpenRace(s: Client, group: Option<string>, username: Option<string>, form: Form)
    requires s.relay == Channel(false, true) && s.transcribe == Channel(false, true)
    requires !(Truthy(s.call.group) && Truthy(s.call.username))
    requires Truthy(Pick(group, form.group)) && Truthy(Pick(username, Some(form.username)))
    ensures var m := Text(Msg.Register(Pick(group, form.group).value, Pick(username, Some(form.username)).value,
                                       Some(form.language)));
      && RelayOpened(Register(s, group, username, form)).relayOut == s.relayOut + [m]
      && Register(RelayOpened(s), group, username, form).relayOut == s.relayOut + [m]
      && TranscribeOpened(Register(s, group, username, form)).transcribeOut == s.transcribeOut + [m]
      && Register(TranscribeOpened(s), group, username, form).transcribeOut == s.transcribeOut + [m]
  {
  }
}

/** The script's globals, updated in place by its handlers. Each method is
    proved to perform the matching step of `CallClient`. */
module CallSession {
  import opened Common
  import opened ClientWire
  import opened MediaSink
  import opened CallClient

  class Session {
    var currentCall: CurrentCall
    var panel: Panel
    var signalingHandlers: bool
    var relay: Channel
    var transcribe: Channel
    var capturing: bool
    var chunkQueue: seq<Chunk>
    var isProcessing: bool
    var awaitingUpdateEnd: bool
    var sourceBuffer: SourceBuffer?
    var signalOut: seq<Msg>
    var relayOut: seq<Frame>
    var transcribeOut: seq<Frame>

    function Snapshot(): Client
      reads this, sourceBuffer
    {
      Client(currentCall, panel, signalingHandlers, relay, transcribe, capturing,
             chunkQueue, isProcessing, awaitingUpdateEnd,
             if sourceBuffer == null then None else Some(sourceBuffer.Value()),
             signalOut, relayOut, transcribeOut)
    }

    constructor ()
      ensures Snapshot() == Initial
    {
      currentCall := CurrentCall(None, None, None, None, None, [], []);
      panel := EmptyPanel;
      signalingHandlers := true;
      relay, transcribe := Channel(false, true), Channel(false, true);
      capturing := false;
      chunkQueue, isProcessing, awaitingUpdateEnd := [], false, false;
      sourceBuffer := new SourceBuffer();
      signalOut, relayOut, transcribeOut := [], [], [];
    }

    method Register(group: Option<string>, username: Option<string>, form: Form)
      modifies this
      ensures Snapshot() == CallClient.Register(old(Snapshot()), group, username, form)
    {
      var g := if Truthy(group) then group else form.group;
      var u := if Truthy(username) then username else Some(form.username);
      if !Truthy(g) || !Truthy(u) {
        return;  // alert('Please enter group and username')
      }
      Announce(g.value, u.value, form.language);
      currentCall := currentCall.(group := g, username := u, language := Some(form.language));
    }

    /** The three `register` messages: always to the signaling server, and to the
        relay and transcription servers when their sockets are open. */
    method Announce(group: string, username: string, language: string)
      modifies this
      ensures var s0, m := old(Snapshot()), Text(Msg.Register(group, username, Some(language)));
        Snapshot() == s0.(signalOut := s0.signalOut + [Msg.Register(group, username, None)],
                          relayOut := if s0.relay.open then s0.relayOut + [m] else s0.relayOut,
                          transcribeOut := if s0.transcribe.open then s0.transcribeOut + [m] else s0.transcribeOut)
    {
      signalOut := signalOut + [Msg.Register(group, username, None)];
      var m := Text(Msg.Register(group, username, Some(language)));
      if relay.open {
        relayOut := relayOut + [m];
      }
      if transcribe.open {
        transcribeOut := transcribeOut + [m];
      }
    }

    method CallUser(toUser: string, now: nat)
      modifies this
      ensures Snapshot() == CallClient.CallUser(old(Snapshot()), toUser, now)
    {
      if Truthy(currentCall.callId) {
        return;  // alert('Already in a call')
      }
      var id := CallIdFor(now, currentCall.username);
      currentCall := currentCall.(callId := Some(id));
      currentCall := currentCall.(peer := Some(Peer(Some(Opposite(currentCall.group)), Some(toUser))));
      signalOut := signalOut + [Msg.CallUser(currentCall.group, currentCall.username, toUser, id)];
      panel := EmptyPanel;
    }

    method AcceptCall()
      modifies this
      ensures Snapshot() == CallClient.AcceptCall(old(Snapshot()))
    {
      if currentCall.peer.None? {
        return;  // TypeError reading currentCall.peer.group
      }
      signalOut := signalOut + [Msg.AcceptCall(currentCall.callId, currentCall.peer.value.group,
                                               currentCall.peer.value.user, currentCall.username)];
      panel := EmptyPanel;
    }

    /** A new `MediaSource` and its `SourceBuffer`, as at start-up and at the
        end of every call: an open, idle sink that has received nothing. */
    method OpenMediaSource()
      modifies this
      ensures Snapshot() == old(Snapshot()).(sink := Some(Fresh))
    {
      var sb := new SourceBuffer();
      sourceBuffer := sb;
    }

    method EndCall()
      modifies this
      ensures Snapshot() == CallClient.EndCall(old(Snapshot()))
    {
      StopCapture();
      if sourceBuffer != null && sourceBuffer.open && sourceBuffer.updating {
        return;  // endOfStream() raises InvalidStateError: the rest of endCall() is skipped
      }
      SendEndedNotice();
      OpenMediaSource();
      ForgetCall();
    }

    /** The start of `endCall()`: the recorder and the audio context stop. */
    method StopCapture()
      modifies this
      ensures Snapshot() == old(Snapshot()).(capturing := false)
    {
      capturing := false;
    }

    /** The `call_ended` notice of `endCall()`, sent once the stream has ended. */
    method SendEndedNotice()
      modifies this
      ensures Snapshot() == old(Snapshot()).(transcribeOut := old(Snapshot()).transcribeOut + EndedNotice(old(Snapshot())))
    {
      var notice := if transcribe.open && Truthy(currentCall.callId)
                    then [Text(CallEnded(currentCall.callId.value))] else [];
      assert notice == EndedNotice(Snapshot());
      transcribeOut := transcribeOut + notice;
    }

    /** The last half of `endCall()`: the queue and the drain flags are cleared, the call id and peer forgotten. */
    method ForgetCall()
      modifies this
      ensures Snapshot() == old(Snapshot()).(chunkQueue := [], isProcessing := false, awaitingUpdateEnd := false,
                                             call := old(currentCall).(callId := None, peer := None))
    {
      chunkQueue, isProcessing, awaitingUpdateEnd := [], false, false;
      currentCall := currentCall.(callId := None, peer := None);
    }

    method RejectCall()
      modifies this
      ensures Snapshot() == CallClient.RejectCall(old(Snapshot()))
    {
      if currentCall.peer.None? {
        return;  // TypeError reading currentCall.peer.group
      }
      signalOut := signalOut + [CallRejected(currentCall.peer.value.group, currentCall.peer.value.user,
                                             currentCall.username)];
      EndCall();
    }

    method HangUp()
      modifies this
      ensures Snapshot() == CallClient.HangUp(old(Snapshot()))
    {
      if Truthy(currentCall.callId) {
        signalOut := signalOut + [Msg.HangUp(currentCall.callId.value)];
        EndCall();
      }
    }

    method OnIncomingCall(fromUser: Option<string>, callId: Option<string>)
      modifies this
      ensures Snapshot() == IncomingCall(old(Snapshot()), fromUser, callId)
    {
      if signalingHandlers {
        currentCall := currentCall.(peer := Some(Peer(None, fromUser)));
        currentCall := currentCall.(callId := callId);
      }
    }

    method OnCallAccepted(fromUser: Option<string>)
      modifies this
      ensures Snapshot() == CallAccepted(old(Snapshot()), fromUser)
    {
      if signalingHandlers {
        currentCall := currentCall.(peer := Some(Peer(None, fromUser)));
      }
    }

    method OnCallEnded()
      modifies this
      ensures Snapshot() == CallEndedNotice(old(Snapshot()))
    {
      if signalingHandlers {
        EndCall();
      }
    }

    method OnSignalingReconnected(form: Form)
      modifies this
      ensures Snapshot() == SignalingReconnected(old(Snapshot()), form)
    {
      if signalingHandlers {
        signalingHandlers := false;
        if Truthy(currentCall.username) {
          Register(currentCall.group, currentCall.username, form);
        }
      }
    }

    method OnRelayOpen()
      modifies this
      ensures Snapshot() == RelayOpened(old(Snapshot()))
    {
      if relay.handlers && Truthy(currentCall.group) && Truthy(currentCall.username) {
        relayOut := relayOut + [Text(Msg.Register(currentCall.group.value, currentCall.username.value, currentCall.language))];
      }
      relay := relay.(open := true);
    }

    method OnTranscribeOpen()
      modifies this
      ensures Snapshot() == TranscribeOpened(old(Snapshot()))
    {
      if transcribe.handlers && Truthy(currentCall.group) && Truthy(currentCall.username) {
        transcribeOut := transcribeOut + [Text(Msg.Register(currentCall.group.value, currentCall.username.value, currentCall.language))];
      }
      transcribe := transcribe.(open := true);
    }

    method OnRelayClose()
      modifies this
      ensures Snapshot() == old(Snapshot()).(relay := Replacement)
    {
      relay := Channel(false, false);
    }

    method OnTranscribeClose()
      modifies this
      ensures Snapshot() == old(Snapshot()).(transcribe := Replacement)
    {
      transcribe := Channel(false, false);
    }

    method OnCaptureGranted()
      modifies this
      ensures Snapshot() == CaptureGranted(old(Snapshot()))
    {
      capturing := true;
    }

    method OnRecorderData(data: Chunk)
      modifies this
      ensures Snapshot() == RecorderData(old(Snapshot()), data)
    {
      if capturing && |data| > 0 && relay.open {
        relayOut := relayOut + [Binary(data)];
      }
    }

    method OnPcmFrame(data: Chunk)
      modifies this
      ensures Snapshot() == PcmFrame(old(Snapshot()), data)
    {
      if capturing && transcribe.open {
        transcribeOut := transcribeOut + [Binary(data)];
      }
    }

    method AppendNext(fails: bool)
      requires sourceBuffer != null
      modifies this, sourceBuffer
      ensures sourceBuffer == old(sourceBuffer)
      ensures Snapshot() == CallClient.AppendNext(old(Snapshot()), fails)
      decreases if sourceBuffer.updating then 0 else 1
    {
      if chunkQueue == [] {
        isProcessing := false;
        return;
      }
      if sourceBuffer.updating {
        awaitingUpdateEnd := true;  // addEventListener('updateend', appendNext, {once: true})
        return;
      }
      var chunk := chunkQueue[0];
      chunkQueue := chunkQueue[1..];
      var ok := sourceBuffer.AppendBuffer(chunk, fails);
      if ok {
        AppendNext(fails);
      } else {
        isProcessing := false;  // 'Append error'; the chunk is dropped
      }
    }

    method ProcessQueue(fails: bool)
      modifies this, sourceBuffer
      ensures sourceBuffer == old(sourceBuffer)
      ensures Snapshot() == CallClient.ProcessQueue(old(Snapshot()), fails)
    {
      if isProcessing || sourceBuffer == null || !sourceBuffer.open {
        return;  // 'Queue waiting: processing or not ready'
      }
      isProcessing := true;
      AppendNext(fails);
    }

    method OnRelayBlob(chunk: Chunk, fails: bool)
      modifies this, sourceBuffer
      ensures Snapshot() == RelayBlob(old(Snapshot()), chunk, fails)
    {
      if relay.handlers {
        chunkQueue := chunkQueue + [chunk];
        ProcessQueue(fails);
      }
    }

    method OnUpdateEnd(fails: bool)
      requires sourceBuffer != null
      modifies this, sourceBuffer
      ensures Snapshot() == UpdateEnd(old(Snapshot()), fails)
    {
      sourceBuffer.UpdateEnd();
      if awaitingUpdateEnd {
        awaitingUpdateEnd := false;
        AppendNext(fails);
      }
    }

    method OnTranscribeMessage(ev: TranscribeEvent)
      modifies this
      ensures Snapshot() == Transcribed(old(Snapshot()), ev)
    {
      if !transcribe.handlers || !(currentCall.group == Some("sales") && ev.callId.Some? && currentCall.callId == ev.callId) {
        return;
      }
      match ev {
        case Transcription(_, group, text, isFinal) =>
          var sales := group == Some("sales");
          if !isFinal {
            if sales { panel := panel.(salesPartial := text); }
            else { panel := panel.(customerPartial := text); }
          } else {
            if sales {
              panel := panel.(salesPartial := "");
              currentCall := currentCall.(salesTranscript := currentCall.salesTranscript + [text]);
            } else {
              panel := panel.(customerPartial := "");
              currentCall := currentCall.(customersTranscript := currentCall.customersTranscript + [text]);
            }
          }
        case Insight(_, text) =>
          panel := panel.(insights := panel.insights + [text]);
        case OtherEvent(_) =>
      }
    }

    method Logout()
      modifies this
      ensures Snapshot() == CallClient.Logout(old(Snapshot()))
    {
      signalOut := signalOut + [Msg.Logout(currentCall.username)];
    }
  }
}
