# Sales-call sessions: clients, signaling, relays and live transcription

This project models the session core of a browser-based calling system between a
`sales` group and a `customers` group. The model is in Dafny and every member is proved.

- **Clients.** The browser client (`static/audio.js`) registers with the servers and
  places, accepts, rejects and hangs up calls. It captures the microphone twice: WebM/Opus
  for the peer and raw PCM for transcription. It drains received audio into a
  media-source buffer and shows partial and final transcripts. An older client
  (`audio.js`) and a playback worker (`static/playbackWsdsfsdorker.js`) drain audio the
  same way in their own styles.
- **Signaling server** (`http_signaling_server.py`). It keeps the users of each group,
  the calls and the user-to-socket table. It routes call set-up, cleans up after a failed
  connection and notifies the UDP relay.
- **Older audio server** (`audio_server.py`). One process does both signaling and media
  relaying, and produces a mock transcription for the sales side.
- **Media relays** (`udp_relay_server.py`, `relay_server.py`). They forward each binary
  frame to the peer of the sender's first call. The UDP relay also queues frames for a
  mock transcription sent to the call's sales participants. The Opus relay buffers
  frames it cannot deliver, up to 50.
- **Transcription server** (`transcribe_server.py`) and its **recognizer**
  (`vosk_asr.py`). Per call, PCM frames are queued. A task cuts them into 19200-byte
  windows and feeds the windows to a per-party recognizer. New partial and final
  transcripts go to the call's sales participants, with duplicate partials suppressed.

## How the model is built

Each core file becomes two modules:

- **A specification module.** A value datatype for the file's global state, and one pure
  function per handler that gives the new state and whether the connection's loop goes
  on. Its lemmas state what the source promises.
- **A class module.** A class whose fields are the file's globals. Each handler is a
  method with `modifies this` whose `ensures` ties the new state (`Snapshot()`) to the
  specification function. Every `while` loop of the source is a `while` loop there, with
  the invariant that connects it to the specification.

The environment enters as parameters:

- **Sockets** are numbers. A `Net` value says which sockets read OPEN and which raise
  on `send`.
- **Recognizers.** Vosk's recognizer is a function from a recognizer and a PCM window to
  a hypothesis, and another function gives the end-of-call flush. The RMS silence test is
  a boolean function of the chunk.
- **Clock and failures.** `Date.now()` and the success of `appendBuffer` are further
  parameters.

JSON messages are maps from string keys to string values.

Python dictionaries keep insertion order. The source looks up "the first call that
contains this user" with `next(...)`, so dictionaries are modelled as duplicate-free
sequences of key/value pairs (module `Dict`).

## Model

| member | source | states |
|---|---|---|
| Common.Opposite | http_signaling_server.py:64 | the callee group is `customers` exactly when the caller group is `sales`, and is `sales` otherwise |
| Common.MockText | udp_relay_server.py:19 | the mock transcript is exactly "Hello from transcription server (", then the speaker's group, then ")" |
| ClientWire.Pick | static/audio.js:178-179 | a truthy argument wins; a null or empty one falls back to the form value |
| ClientWire.CallIdInjective | static/audio.js:217 | two call ids `call_<time>_<user>` are equal only for the same time and username, so a call id names one call |
| CallClient.Register | static/audio.js:177-213 | with no usable group or username nothing changes; otherwise the identity goes to the signaling server, and to the relay and transcription servers exactly when their sockets are open, and is recorded with the selected language; nothing else changes |
| CallClient.CallUser | static/audio.js:215-234 | refused while a call id is set; otherwise the new call id is `call_<now>_<username>`, the peer is in the opposite group, `call_user` carries that id and the panel is cleared; identity, language, sink, capture and sockets stay |
| CallClient.AcceptCall | static/audio.js:236-255 | with a peer, `accept_call` carries the offered call id, the peer and the local username, and the panel is cleared, nothing else changing; without one it throws and nothing changes |
| CallClient.EndCall | static/audio.js:282-315 | capture stops; when `endOfStream` throws (an open source whose buffer is updating) nothing else changes; otherwise `call_ended` reaches the transcription server only if its socket is open and a call id is set, the sink is replaced, the queue emptied, the drain flags cleared, the call id and peer forgotten, and identity, sockets, the other outboxes and transcripts stay |
| CallClient.RejectCall | static/audio.js:257-268 | with a peer, `call_rejected` is sent and the call ends; without one nothing changes |
| CallClient.HangUp | static/audio.js:270-280 | with a call id, `hang_up` names it and the call ends as `endCall` says; afterwards no call id is set exactly when there was none or `endOfStream` did not throw |
| CallClient.Logout | static/audio.js:350-354 | a `logout` with the local username is sent and nothing else changes |
| CallClient.IncomingCall | static/audio.js:71-77 | the offer replaces the current peer and call id (while the signaling socket still has its handlers) |
| CallClient.CallAccepted | static/audio.js:78-83 | the peer becomes the accepting user |
| CallClient.CallEndedNotice | static/audio.js:84-86 | a `call_ended` notice ends the call as `endCall` does |
| CallClient.SignalingReconnected | static/audio.js:131-136 | the replacement socket has no handlers; a known username re-registers with the stored group |
| CallClient.Opened | static/audio.js:35-56 | an opening relay or transcription socket sends `register` with the stored identity and language only if both are set and the socket still has its handlers |
| CallClient.CaptureGranted | static/audio.js:359-375 | once the microphone is granted, capture is on |
| CallClient.RecorderData | static/audio.js:376-381 | the handler's guard: a chunk goes to the relay only if it is non-empty and the relay socket is open; nothing else changes. The model adds its own `capturing` flag for "a recorder is running" (see "## Left out") |
| CallClient.PcmFrame | static/audio.js:391-398 | a PCM frame goes to the transcription server only if capture is on and its socket is open |
| CallClient.AppendNext | static/audio.js:155-173 | a busy buffer appends nothing; otherwise the queue head is taken, and is appended unless the append throws, which ends the drain |
| CallClient.ProcessQueue | static/audio.js:149-175 | no effect while draining or without an open sink; otherwise the drain starts |
| CallClient.RelayBlob | static/audio.js:94-101 | a received frame is queued and the drain is started |
| CallClient.UpdateEnd | static/audio.js:160-162 | the buffer is no longer busy, and a pending drain continues |
| CallClient.Transcribed | static/audio.js:103-129 | for the current call on a sales client: a partial replaces that side's partial text, a final clears it and is appended to that side's transcript, an insight is appended to the insight list; anything else, and any event for another call or on a client without handlers, changes nothing; the other side's texts and the insights stay |
| CallClient.RunKeepsDrainInv | static/audio.js:149-175 | over any sequence of events, the drain flag is set exactly while an `updateend` continuation is pending, and then the buffer is busy |
| CallClient.EndedNotice | static/audio.js:295-301 | a `call_ended` frame with the call id is produced exactly when the transcription socket is open and a call id is set, and nothing otherwise |
| CallClient.EndCallIdempotent | static/audio.js:282-315 | ending a call twice is ending it once |
| CallClient.HangUpIdempotent | static/audio.js:270-280 | unless `endCall` throws at `endOfStream`, hanging up twice is hanging up once, so at most one `hang_up` and one `call_ended` are sent; when it throws, the second hang-up sends `hang_up` for the same id again |
| CallClient.IncomingCallOverwritesCall | static/audio.js:71-77 | an offer during a call replaces the current call id and peer |
| CallClient.CallIdEchoed | static/audio.js:215-225 | the id announced by `call_user` is the one stored, and a later `hang_up` names that same id |
| CallClient.AudioStepMoves | static/audio.js:94-101 | one audio event only moves chunks from the queue's head to the buffer's end, and keeps the drain invariant |
| CallClient.AudioInOrder | static/audio.js:149-175 | whatever audio events arrive, what the buffer receives is an in-order subsequence of the queued and received chunks, and what is still queued is their suffix |
| CallClient.AudioStepKeeps | static/audio.js:149-175 | one audio event whose append does not throw keeps the drain invariant and either leaves queue and buffer alone or moves the queue's head to the buffer's end |
| CallClient.AudioNoLoss | static/audio.js:94-175 | when no append throws, the buffer gains exactly the queued and received chunks, in order, except those still queued, which are their suffix: nothing is lost or reordered |
| CallClient.TranscribedFinal | static/audio.js:110-119 | one transcription event appends to each side's transcript exactly that side's final text for the current call |
| CallClient.TranscriptsAreFinals | static/audio.js:103-129 | after any run of transcription events, each side's transcript is its final texts for the current call, in arrival order |
| CallClient.StepKeepsIdentity | static/audio.js:58-315 | once group and username are set, no event but the user's own `register` changes them |
| CallClient.ControlKeepsIdentity | static/audio.js:58-93 | signaling messages and call controls never change the recorded group and username |
| CallClient.RunKeepsIdentity | static/audio.js:58-315 | over any run of events without `register`, the recorded group and username stay |
| CallClient.LogoutNamesRegistered | static/audio.js:350-354 | after registering and any run of events without another `register`, logout sends `logout` with the registered username |
| CallClient.RegisterSendsNoAudio | static/audio.js:177-213 | `register` sends no audio frame to the relay or the transcription server |
| CallClient.EndCallSendsNoAudio | static/audio.js:282-315 | ending a call sends no audio frame to either server |
| CallClient.OpenedSendsNoAudio | static/audio.js:35-56 | an opening socket sends no audio frame |
| CallClient.StepWithoutCapture | static/audio.js:359-398 | without capture, no event but a granted microphone turns capture on, and none sends audio |
| CallClient.MediaWithoutCapture | static/audio.js:94-175 | a received frame or `updateend` sends nothing on the relay or transcription sockets and does not start capture |
| CallClient.ControlWithoutCapture | static/audio.js:58-93 | signaling messages and call controls neither start capture nor send audio |
| CallClient.NoCaptureNoAudio | static/audio.js:359-398 | until the microphone is granted, no run of events sends any audio frame to either server |
| CallClient.RecorderSends | static/audio.js:376-381 | a run of recorder chunks sends to the relay exactly the non-empty ones, in order, when capture is on and the relay is open, and nothing otherwise; nothing else changes |
| CallClient.PcmSends | static/audio.js:391-398 | a run of PCM frames sends every frame, in order, to the transcription server when capture is on and its socket is open, and nothing otherwise; nothing else changes |
| CallClient.LateGrantStillSends | static/audio.js:359-381 | a microphone grant that arrives after the call ended still starts capture, and the next recorder chunk goes to the relay with no call set |
| CallClient.AcceptAnswersOffer | static/audio.js:236-255 | accepting an offer sends `accept_call` with the offered call id and the offering user |
| CallClient.AcceptedKeepsDialedCall | static/audio.js:78-83 | after dialing and the callee's `call_accepted`, the call id is still the dialed one and the peer is the acceptor, so `hang_up` names the dialed id |
| CallClient.RegisterOpenRace | static/audio.js:35-56 | registering before or after a relay or transcription socket opens sends the same single `register` on it |
| CallSession.Session.constructor | static/audio.js:1-33 | a fresh client: no identity, no call, an open empty sink, sockets with their handlers |
| CallSession.Session.Register | static/audio.js:177-213 | the new client state is `CallClient.Register` of the old |
| CallSession.Session.Announce | static/audio.js:185-205 | `register` goes to the signaling server, and with the language to the relay and the transcription server exactly when their sockets are open; nothing else changes |
| CallSession.Session.CallUser | static/audio.js:215-234 | the new client state is `CallClient.CallUser` of the old |
| CallSession.Session.AcceptCall | static/audio.js:236-255 | the new client state is `CallClient.AcceptCall` of the old |
| CallSession.Session.StopCapture | static/audio.js:284-286 | capture stops; nothing else changes |
| CallSession.Session.SendEndedNotice | static/audio.js:295-301 | the transcription outbox grows by exactly `CallClient.EndedNotice` of the old state; nothing else changes |
| CallSession.Session.ForgetCall | static/audio.js:307-311 | the queue is emptied, both drain flags cleared, and the call id and peer forgotten; nothing else changes |
| CallSession.Session.OpenMediaSource | static/audio.js:302-306 | a new source buffer replaces the old one: the sink is open, idle and holds nothing; the rest of the client state is kept |
| CallSession.Session.EndCall | static/audio.js:282-315 | the new client state is `CallClient.EndCall` of the old: with a throwing `endOfStream` only capture stops; otherwise a new source buffer replaces the old one |
| CallSession.Session.RejectCall | static/audio.js:257-268 | the new client state is `CallClient.RejectCall` of the old |
| CallSession.Session.HangUp | static/audio.js:270-280 | the new client state is `CallClient.HangUp` of the old |
| CallSession.Session.OnIncomingCall | static/audio.js:71-77 | the new client state is `IncomingCall` of the old |
| CallSession.Session.OnCallAccepted | static/audio.js:78-83 | the new client state is `CallAccepted` of the old |
| CallSession.Session.OnCallEnded | static/audio.js:84-86 | the new client state is `CallEndedNotice` of the old |
| CallSession.Session.OnSignalingReconnected | static/audio.js:131-136 | the new client state is `SignalingReconnected` of the old |
| CallSession.Session.OnRelayOpen | static/audio.js:35-45 | the relay socket opens and registers as `Opened` says |
| CallSession.Session.OnTranscribeOpen | static/audio.js:46-56 | the transcription socket opens and registers as `Opened` says |
| CallSession.Session.OnRelayClose | static/audio.js:137-141 | the relay socket is replaced by one that is not yet open and has no handlers |
| CallSession.Session.OnTranscribeClose | static/audio.js:142-146 | the transcription socket is replaced by one that is not yet open and has no handlers |
| CallSession.Session.OnCaptureGranted | static/audio.js:359-375 | capture is on |
| CallSession.Session.OnRecorderData | static/audio.js:376-381 | the new client state is `RecorderData` of the old |
| CallSession.Session.OnPcmFrame | static/audio.js:391-398 | the new client state is `PcmFrame` of the old |
| CallSession.Session.AppendNext | static/audio.js:155-173 | the drain loop over the real source buffer ends in `CallClient.AppendNext` of the old state |
| CallSession.Session.ProcessQueue | static/audio.js:149-175 | the new client state is `CallClient.ProcessQueue` of the old |
| CallSession.Session.OnRelayBlob | static/audio.js:94-101 | the new client state is `RelayBlob` of the old |
| CallSession.Session.OnUpdateEnd | static/audio.js:160-162 | the new client state is `UpdateEnd` of the old |
| CallSession.Session.OnTranscribeMessage | static/audio.js:103-129 | the new client state is `Transcribed` of the old |
| CallSession.Session.Logout | static/audio.js:350-354 | the new client state is `CallClient.Logout` of the old |
| MediaSink.SourceBuffer.AppendBuffer | static/audio.js:164-172 | an append that does not throw adds the chunk at the end and makes the buffer busy; one that throws changes nothing |
| MediaSink.SourceBuffer.UpdateEnd | static/audio.js:160-162 | `updateend` clears the busy flag and keeps the contents |
| LegacyClient.Register | audio.js:129-154 | with a usable group and username, `register` goes to the signaling server, and to the relay only if its socket is open; the identity is recorded |
| LegacyClient.CallUser | audio.js:156-169 | refused while a call id is set; otherwise the id is `call_<now>_<username>`, the peer is in the opposite group and `call_user` carries that id |
| LegacyClient.AcceptCall | audio.js:171-184 | with a peer, `accept_call` carries the call id, the peer and the local username |
| LegacyClient.EndCall | audio.js:211-230 | capture stops, the queue empties, the media source is replaced, a sales client's transcript texts are cleared, the call id and peer are forgotten; the drain flag is not reset |
| LegacyClient.RejectCall | audio.js:186-197 | with a peer, `call_rejected` is sent and the call ends |
| LegacyClient.HangUp | audio.js:199-209 | with a call id, `hang_up` names it and the call ends; afterwards no call id is set |
| LegacyClient.HangUpIdempotent | audio.js:199-209 | hanging up twice is hanging up once |
| LegacyClient.Logout | audio.js:265-269 | a `logout` with the local username is sent |
| LegacyClient.IncomingCall | audio.js:45-51 | the offer replaces the current peer and call id |
| LegacyClient.CallAccepted | audio.js:52-57 | the peer becomes the accepting user |
| LegacyClient.CallEndedNotice | audio.js:58-60 | a `call_ended` notice ends the call |
| LegacyClient.SignalingReconnected | audio.js:86-91 | the replacement socket has no handlers; a known username re-registers |
| LegacyClient.RelayOpened | audio.js:20-29 | an opening relay sends `register` only if group and username are both set |
| LegacyClient.SourceOpened | audio.js:99-107 | `sourceopen` installs a fresh, empty source buffer |
| LegacyClient.CaptureGranted | audio.js:274-277 | capture is on |
| LegacyClient.RecorderData | audio.js:278-283 | the handler's guard: a chunk goes to the relay only if it is non-empty and the relay socket is open; nothing else changes. The model adds its own `capturing` flag for "a recorder is running" (see "## Left out") |
| LegacyClient.Trim | audio.js:80 | `trim()` removes exactly the leading and trailing white space of ECMAScript (the space separators, byte-order mark and line terminators included): the result is a slice of the input with only white space around it and none at either end |
| LegacyClient.TrimOfUnique | audio.js:80 | only one slice is bordered by white space and trimmed, so that property fixes the result of `trim()` |
| LegacyClient.AppendLine | audio.js:80 | the new panel text is exactly the `trim()` of the old text, a newline and the line |
| LegacyClient.AppendLineJoins | audio.js:80 | for a trimmed old text and a trimmed non-empty line it is the old text, a newline and the line, or the line alone when the text was empty |
| LegacyClient.AccumulateIsLines | audio.js:77-81 | the transcript panel after any sequence of non-empty texts, trimmed as `trim()` trims, is those texts joined by newlines |
| LegacyClient.RelayText | audio.js:74-83 | a `transcription` for the current call on a sales client goes to that side's text; anything else is ignored |
| LegacyClient.Drain | audio.js:114-125 | with the media source open the drain loop empties the queue; closed, it leaves everything as it was |
| LegacyClient.DrainDelivers | audio.js:111-127 | the buffer receives, in order, a subsequence of the queued and arriving chunks, and all of them when no append throws |
| LegacyClient.ProcessAudioQueue | audio.js:111-127 | no effect while already draining or with the source closed; otherwise the queue is emptied into the sink |
| LegacyClient.RelayBlob | audio.js:68-73 | a received frame is queued, and the drain starts unless one is running |
| LegacyClient.Step | audio.js:20-296 | every handler keeps the client well formed: whenever the media source is open, a source buffer is installed |
| LegacyClient.Run | audio.js:20-296 | any run of events keeps the client well formed |
| LegacyClient.InitialValid | audio.js:1-17 | a fresh client is well formed |
| LegacyClient.StepKeepsIdentity | audio.js:31-296 | once group and username are set, no event but the user's own `register` changes them |
| LegacyClient.ControlKeepsIdentity | audio.js:31-91 | signaling messages and call controls never change the recorded group and username |
| LegacyClient.RunKeepsIdentity | audio.js:31-296 | over any run of events without `register`, the recorded group and username stay |
| LegacyClient.LogoutNamesRegistered | audio.js:265-269 | after registering and any run of events without another `register`, logout sends `logout` with the registered username |
| LegacyClient.RegisterSendsNoAudio | audio.js:129-154 | `register` sends no audio frame to the relay |
| LegacyClient.StepWithoutCapture | audio.js:274-283 | without capture, no event but a granted microphone turns capture on, and none sends audio |
| LegacyClient.ControlWithoutCapture | audio.js:31-91 | signaling messages and call controls neither start capture nor send audio |
| LegacyClient.NoCaptureNoAudio | audio.js:274-283 | until the microphone is granted, no run of events sends any audio frame to the relay |
| LegacyClient.RecorderSends | audio.js:278-283 | a run of recorder chunks sends to the relay exactly the non-empty ones, in order, when capture is on and the relay is open, and nothing otherwise; nothing else changes |
| LegacyClient.LateGrantStillSends | audio.js:211-283 | a microphone grant that arrives after the call ended still starts capture, and the next recorder chunk goes to the relay with no call set |
| LegacyClient.IncomingCallOverwritesCall | audio.js:45-51 | an offer during a call replaces the current call id and peer |
| LegacyClient.AcceptAnswersOffer | audio.js:171-184 | accepting an offer sends `accept_call` with the offered call id and the offering user |
| LegacyClient.AcceptedKeepsDialedCall | audio.js:52-57 | after dialing and the callee's `call_accepted`, the call id is still the dialed one and the peer is the acceptor, so `hang_up` names the dialed id |
| LegacyClient.RegisterOpenRace | audio.js:20-29 | registering before or after the relay socket opens sends the same single `register` on it |
| LegacyClient.BlobWaitsForSource | audio.js:68-73 | before `sourceopen`, a received frame is only queued |
| LegacyClient.SourceOpenedDrains | audio.js:68-107 | once the source has opened, the next received frame empties the queue; with no failing append the buffer receives every frame queued before and then the new one, in order |
| LegacySession.Session.constructor | audio.js:1-17 | a fresh client: no identity, no call, no sink yet |
| LegacySession.Session.Register | audio.js:129-154 | the new client state is `LegacyClient.Register` of the old |
| LegacySession.Session.CallUser | audio.js:156-169 | the new client state is `LegacyClient.CallUser` of the old |
| LegacySession.Session.AcceptCall | audio.js:171-184 | the new client state is `LegacyClient.AcceptCall` of the old |
| LegacySession.Session.EndCall | audio.js:211-230 | the new client state is `LegacyClient.EndCall` of the old |
| LegacySession.Session.RejectCall | audio.js:186-197 | the new client state is `LegacyClient.RejectCall` of the old |
| LegacySession.Session.HangUp | audio.js:199-209 | the new client state is `LegacyClient.HangUp` of the old |
| LegacySession.Session.Logout | audio.js:265-269 | the new client state is `LegacyClient.Logout` of the old |
| LegacySession.Session.OnIncomingCall | audio.js:45-51 | the new client state is `IncomingCall` of the old |
| LegacySession.Session.OnCallAccepted | audio.js:52-57 | the new client state is `CallAccepted` of the old |
| LegacySession.Session.OnCallEnded | audio.js:58-60 | the new client state is `CallEndedNotice` of the old |
| LegacySession.Session.OnSignalingReconnected | audio.js:86-91 | the new client state is `SignalingReconnected` of the old |
| LegacySession.Session.OnRelayOpen | audio.js:20-29 | the new client state is `RelayOpened` of the old |
| LegacySession.Session.OnRelayClose | audio.js:92-96 | the relay socket is replaced by one without handlers |
| LegacySession.Session.OnSourceOpen | audio.js:102-106 | the new client state is `SourceOpened` of the old |
| LegacySession.Session.OnCaptureGranted | audio.js:274-277 | capture is on |
| LegacySession.Session.OnRecorderData | audio.js:278-283 | the new client state is `RecorderData` of the old |
| LegacySession.Session.OnRelayText | audio.js:74-83 | the new client state is `RelayText` of the old |
| LegacySession.Session.AppendIfIdle | audio.js:115-122 | one loop turn's first half: with the source buffer idle, the head chunk is shifted off the queue and appended (or dropped on an append error); with it busy nothing changes; the result is `LegacyClient.TakeHead` of the pipe |
| LegacySession.Session.Sleep | audio.js:124 | the 5 ms `setTimeout` wait: a finished update ends and the chunks that arrived meanwhile join the queue; the result is `LegacyClient.Sleep` of the pipe |
| LegacySession.Session.ProcessAudioQueue | audio.js:111-127 | the `while` drain loop over the real source buffer ends in `LegacyClient.ProcessAudioQueue` of the old state |
| LegacySession.Session.OnRelayBlob | audio.js:68-73 | the new client state is `RelayBlob` of the old |
| PlaybackWorker.Outcomes | static/playbackWsdsfsdorker.js:16-21 | one `appended` or `error` report per chunk taken, in order |
| PlaybackWorker.OutcomesAppend | static/playbackWsdsfsdorker.js:16-21 | taking one more chunk adds exactly its report at the end |
| PlaybackWorker.QueuedAll | static/playbackWsdsfsdorker.js:31-32 | one `queued` acknowledgement per received chunk |
| PlaybackWorker.Wait | static/playbackWsdsfsdorker.js:11-14 | waiting for `updateend` leaves the buffer idle and takes nothing |
| PlaybackWorker.Take | static/playbackWsdsfsdorker.js:15-21 | one chunk moves from the queue's head to the taken list |
| PlaybackWorker.Drain | static/playbackWsdsfsdorker.js:10-22 | the loop ends with an empty queue |
| PlaybackWorker.DrainAccounted | static/playbackWsdsfsdorker.js:10-22 | through the loop, queue and taken chunks together are the initial queue plus arrivals; the buffer gains exactly the taken chunks whose append did not throw; one report per taken chunk and one acknowledgement per arrival |
| PlaybackWorker.DrainDelivers | static/playbackWsdsfsdorker.js:4-24 | after a drain the buffer holds, in order, every queued and arrived chunk except those whose append threw |
| PlaybackWorker.ProcessQueue | static/playbackWsdsfsdorker.js:4-24 | no effect while draining, without a buffer or with the source not open; otherwise the queue empties and the flag is cleared again |
| PlaybackWorker.OnMessage | static/playbackWsdsfsdorker.js:26-39 | `append` queues the chunk with a `queued` acknowledgement and starts the drain; `end` posts `ended`; `init` and other types change nothing |
| PlaybackWorker.AppendIsPlayed | static/playbackWsdsfsdorker.js:29-34 | on an idle worker with an open buffer and no failing appends, an appended chunk is played right after what was queued |
| PlaybackWorkerGlobals.Playback.constructor | static/playbackWsdsfsdorker.js:2 | the worker starts with an empty queue, idle, and without a media source or buffer |
| PlaybackWorkerGlobals.Playback.ProcessQueue | static/playbackWsdsfsdorker.js:4-24 | the `while` loop over the real source buffer ends in `PlaybackWorker.ProcessQueue` of the old state |
| PlaybackWorkerGlobals.Playback.OnMessage | static/playbackWsdsfsdorker.js:26-39 | the new worker state is `PlaybackWorker.OnMessage` of the old |
| Signaling.Group | http_signaling_server.py:12 | only `sales` and `customers` have a user table |
| Signaling.OwnerOf | http_signaling_server.py:122-124 | the first username in a group registered with this connection, and none exactly when no entry has it |
| Signaling.Notify | http_signaling_server.py:30-38 | the relay gets the note exactly when it is connected and its send succeeds; the relay connection is forgotten exactly when it is open and its send raises, and kept otherwise; nothing else changes |
| Signaling.BroadcastTo | http_signaling_server.py:22-28 | only the status is sent, only to sockets that deliver; nothing but the client table and the outbox changes |
| Signaling.BroadcastToReaches | http_signaling_server.py:22-28 | every listed client whose send succeeds is sent the status |
| Signaling.BroadcastReaches | http_signaling_server.py:17-28 | `broadcast_user_status` sends the current status to every client in `websocket_clients` whose send succeeds |
| Signaling.BroadcastToClients | http_signaling_server.py:22-28 | exactly the clients whose open socket fails the send are removed |
| Signaling.BroadcastClients | http_signaling_server.py:17-28 | a status broadcast keeps users and calls and drops exactly the broken client sockets |
| Signaling.RemoveUserOfRemoves | http_signaling_server.py:121-130 | logout removes the first user of the first group holding this connection, with its client entry; calls stay |
| Signaling.DropCallsLookup | http_signaling_server.py:144-147 | exactly the calls involving the connection are deleted |
| Signaling.CleanupDropsCalls | http_signaling_server.py:133-147 | after a failure, a call is gone exactly when it involved the connection |
| Signaling.Say | http_signaling_server.py:53 | an uncaught send either is delivered and the loop goes on, or runs the failure cleanup and ends the loop |
| Signaling.RegisterRejectsMissing | http_signaling_server.py:49-54 | a register without a truthy group, username and port gets only the error reply |
| Signaling.RegisterStores | http_signaling_server.py:55-58 | a complete register stores the user with its socket, address and port, records the client, and sends the session cookie first |
| Signaling.CallUserRejects | http_signaling_server.py:60-87 | a `call_user` missing a field answers `Missing call_id, to_user, from_group, or from_user`; a complete one naming a user not registered in the other group answers `User not found`; no table changes and the loop goes on, or, when that send raises, the cleanup runs |
| Signaling.CallUserStores | http_signaling_server.py:68-85 | a call to a registered callee is stored under its id with both sockets and groups, and the callee is offered it |
| Signaling.AcceptCallResults | http_signaling_server.py:89-107 | an unknown id gets `Call not found`; a known one tells the caller and notifies the relay |
| Signaling.HangUpResults | http_signaling_server.py:109-120 | an unknown id changes nothing; a known one is deleted and `call_ended` goes to both open sides |
| Signaling.ServeKeepsInv | http_signaling_server.py:40-147 | every connection loop keeps the tables well formed: no duplicate keys, only the two groups |
| SignalingServer.State.constructor | http_signaling_server.py:12-15 | empty tables, with the relay connection given |
| SignalingServer.State.NotifyRelay | http_signaling_server.py:30-38 | the new state is `Notify` of the old |
| SignalingServer.State.BroadcastUserStatus | http_signaling_server.py:17-28 | the `for` loop over the clients ends in `Broadcast` of the old state |
| SignalingServer.State.Unregister | http_signaling_server.py:125-129 | the new state is `Signaling.Unregister` of the old |
| SignalingServer.State.RemoveUserOf | http_signaling_server.py:122-130 | the new state is `Signaling.RemoveUserOf` of the old |
| SignalingServer.State.DropCallsOf | http_signaling_server.py:144-147 | the loop over the call ids ends in `DropCalls` of the old state |
| SignalingServer.State.Cleanup | http_signaling_server.py:133-147 | the new state is `Signaling.Cleanup` of the old |
| SignalingServer.State.Say | http_signaling_server.py:53 | state and loop continuation are `Signaling.Say` of the old state |
| SignalingServer.State.SayIfOpen | http_signaling_server.py:117-119 | state and continuation are `Signaling.SayIfOpen` of the old state |
| SignalingServer.State.Register | http_signaling_server.py:48-58 | state and continuation are `Signaling.Register` of the old state |
| SignalingServer.State.CallUser | http_signaling_server.py:59-87 | state and continuation are `Signaling.CallUser` of the old state |
| SignalingServer.State.AcceptCall | http_signaling_server.py:88-107 | state and continuation are `Signaling.AcceptCall` of the old state |
| SignalingServer.State.HangUp | http_signaling_server.py:108-120 | state and continuation are `Signaling.HangUp` of the old state |
| SignalingServer.State.Handle | http_signaling_server.py:43-132 | state and continuation are `Signaling.Handle` of the old state |
| SignalingServer.State.HandleWebsocket | http_signaling_server.py:40-147 | the message loop ends in `Serve` of the old state |
| AudioCalls.Group | audio_server.py:10 | only `sales` and `customers` have a user table |
| AudioCalls.PeerOf | audio_server.py:85 | the callee's socket for the caller, the caller's otherwise |
| AudioCalls.Send | audio_server.py:19-22 | a caught send records the message exactly when it is delivered; nothing else changes |
| AudioCalls.Broadcast | audio_server.py:13-22 | only the current user status is sent, and nothing else changes |
| AudioCalls.EndCallsOf | audio_server.py:128-136 | deleting the calls of a closed connection keeps the users and only appends `call_ended` frames |
| AudioCalls.BroadcastToReaches | audio_server.py:17-22 | every connection of a group whose send succeeds is sent the status |
| AudioCalls.BroadcastReaches | audio_server.py:13-22 | `broadcast_user_status` sends the current status to every registered connection of either group whose send succeeds |
| AudioCalls.EndOne | audio_server.py:129-136 | one id: a call not involving the connection is left alone; one that does is deleted and `call_ended` goes to its peer exactly when that send succeeds; the users stay |
| AudioCalls.Say | audio_server.py:46 | an uncaught send is delivered, or `ConnectionClosed` runs the cleanup and ends the loop |
| AudioCalls.RegisterRefusesTaken | audio_server.py:45-47 | a taken username gets `Username already taken` and nothing else happens |
| AudioCalls.RegisterStores | audio_server.py:48-50 | a free username is stored with its socket and gets the session cookie first |
| AudioCalls.CallUserRejects | audio_server.py:58-61 | an unknown callee gets `User not found` and a reused id `Call ID already in use`, with no call stored |
| AudioCalls.CallUserStores | audio_server.py:62-73 | a new call stores both sockets and groups, and only the callee is told |
| AudioCalls.AcceptCallNotifiesCaller | audio_server.py:77-80 | the caller of the first call whose callee is this connection learns of the acceptance; without such a call nothing happens |
| AudioCalls.HangUpEndsFirstCall | audio_server.py:82-91 | the first call containing the connection is deleted and only the other party is told; other calls stay |
| AudioCalls.RelayRoutes | audio_server.py:101-119 | a frame goes to the peer of the sender's first call, and mock transcriptions are produced only for frames from that call's sales side |
| AudioCalls.EndCallsOfLookup | audio_server.py:128-131 | exactly the calls involving the connection are deleted |
| AudioCalls.RemoveUserKeepsCalls | audio_server.py:93-99 | a logout does not touch any call |
| AudioCalls.RemoveUserRemoves | audio_server.py:94-99 | the first user of the first group registered with this connection is removed and the other entries stay; only the new user status is sent; with no such user nothing changes |
| AudioCalls.EndingShifts | audio_server.py:128-136 | ending the first listed call leaves the notices of the remaining calls to end unchanged |
| AudioCalls.EndCallsOfSendsOnly | audio_server.py:128-136 | every frame the loop sends is the `call_ended` notice to the peer of one of the listed calls involving the connection |
| AudioCalls.EndCallsOfTells | audio_server.py:128-136 | the peer of every listed call involving the connection receives `call_ended` when its send succeeds |
| AudioCalls.CleanupEndsCalls | audio_server.py:121-136 | after `ConnectionClosed` a call is gone exactly when it involved the connection; after the logout part, each frame sent is `call_ended` to the peer of such a call, and every such peer whose send succeeds receives one |
| AudioCalls.ServeKeepsInv | audio_server.py:33-139 | every connection loop keeps the tables well formed |
| AudioServer.State.constructor | audio_server.py:10-11 | empty tables |
| AudioServer.State.SendCaught | audio_server.py:19-22 | the new state is `Send` of the old |
| AudioServer.State.SendToAll | audio_server.py:17-22 | the nested loop over every group's sockets ends in `BroadcastTo` of the old state |
| AudioServer.State.BroadcastUserStatus | audio_server.py:13-22 | the new state is `Broadcast` of the old |
| AudioServer.State.RemoveUser | audio_server.py:94-99 | the new state is `AudioCalls.RemoveUser` of the old |
| AudioServer.State.EndCallsOf | audio_server.py:128-136 | the loop over the call ids ends in `AudioCalls.EndCallsOf` of the old state |
| AudioServer.State.Cleanup | audio_server.py:121-136 | the new state is `AudioCalls.Cleanup` of the old |
| AudioServer.State.Say | audio_server.py:46 | state and continuation are `AudioCalls.Say` of the old state |
| AudioServer.State.Register | audio_server.py:42-50 | state and continuation are `AudioCalls.Register` of the old state |
| AudioServer.State.CallUser | audio_server.py:52-75 | state and continuation are `AudioCalls.CallUser` of the old state |
| AudioServer.State.AcceptCall | audio_server.py:77-80 | state and continuation are `AudioCalls.AcceptCall` of the old state |
| AudioServer.State.HangUp | audio_server.py:82-91 | state and continuation are `AudioCalls.HangUp` of the old state |
| AudioServer.State.RelayAudio | audio_server.py:101-119 | the new state is `Relay` of the old |
| AudioServer.State.Handle | audio_server.py:37-119 | state and continuation are `AudioCalls.Handle` of the old state |
| AudioServer.State.HandleClient | audio_server.py:33-139 | the message loop ends in `Serve` of the old state |
| RelayCalls.PeerOf | udp_relay_server.py:77-78 | the callee for the caller, the caller otherwise |
| RelayCalls.SenderGroup | udp_relay_server.py:83 | the group of the sending side |
| RelayCalls.Accept | udp_relay_server.py:56-63 | fails exactly when a required key is missing; otherwise the call is stored under its id |
| RelayCalls.AcceptKeeps | udp_relay_server.py:56-63 | storing a call keeps the table well formed and every other call |
| RelayCalls.DelKeeps | udp_relay_server.py:64-67 | deleting a call removes it, keeps the table well formed and every other call |
| RelayCalls.SalesOf | udp_relay_server.py:22-26 | the call's participants in group `sales`, caller first; at most two |
| UdpForwarding.TranscribeAll | udp_relay_server.py:14-40 | the worker empties the queue and never changes calls or clients |
| UdpForwarding.CallAcceptedStores | udp_relay_server.py:56-63 | the loop goes on exactly when every key is present; then the call is stored, otherwise nothing changes |
| UdpForwarding.EndAndLogoutRemoveOnlyPresent | udp_relay_server.py:64-71 | `call_ended` deletes exactly a present truthy id; `logout` removes exactly a present truthy username; anything else changes nothing |
| UdpForwarding.UnregisteredDropped | udp_relay_server.py:74 | frames on an unregistered connection change nothing |
| UdpForwarding.ForwardRoutes | udp_relay_server.py:74-88 | a frame goes to the open peer of the sender's first call and is queued with the sender's group, with the calls and clients kept; with no such open peer nothing happens; when the open peer's send raises, the loop ends with nothing changed |
| UdpForwarding.QueuedOnlyWhenRelayed | udp_relay_server.py:80-84 | a frame is queued for transcription only together with its relay to the peer |
| UdpForwarding.NotifyOnlyTo | udp_relay_server.py:27-39 | transcriptions go only to open sockets of the listed registered users; failed sends are skipped; when all deliver, each one is reached |
| UdpForwarding.TranscribeOnlySales | udp_relay_server.py:16-39 | a queued frame of an ended call sends nothing; otherwise only the mock text for its group, only to the call's sales participants |
| UdpForwarding.ServeForgetsName | udp_relay_server.py:45-98 | the connection is the `async for` loop and then its `finally`; a close ends the loop, and once it has ended the username the connection registered is no longer in `udp_clients` |
| UdpForwarding.ServeKeepsInv | udp_relay_server.py:42-98 | every connection loop keeps the call table well formed |
| UdpRelayServer.State.constructor | udp_relay_server.py:10-12 | empty tables and queue |
| UdpRelayServer.State.Register | udp_relay_server.py:51-55 | state and connection username are `UdpForwarding.Register` of the old state |
| UdpRelayServer.State.Forward | udp_relay_server.py:72-90 | state and continuation are `UdpForwarding.Forward` of the old state |
| UdpRelayServer.State.Handle | udp_relay_server.py:47-92 | state, username and continuation are `UdpForwarding.Handle` of the old state |
| UdpRelayServer.State.UdpRelay | udp_relay_server.py:42-98 | the message loop and its `finally` end in `Serve` of the old state |
| UdpRelayServer.State.Notify | udp_relay_server.py:27-39 | the send loop's outbox is `UdpForwarding.Notify` of the old one; tables stay |
| UdpRelayServer.State.TranscribeAudio | udp_relay_server.py:14-40 | the worker loop over the queue ends in `TranscribeAll` of the old state |
| OpusRelay.Hold | relay_server.py:56-65 | a frame is buffered while fewer than 50 are held, and dropped otherwise |
| OpusRelay.BufferBounded | relay_server.py:56-65 | over a whole connection the buffer only grows at its end and never holds more than 50 frames |
| OpusRelay.UnregisteredDiscarded | relay_server.py:66-67 | frames before `register` are discarded |
| OpusRelay.ForwardRoutes | relay_server.py:48-65 | a frame goes to the open peer of the sender's first call; with no call or no open peer it is buffered; when the open peer's send raises, the loop ends with nothing changed |
| OpusRelay.CallEndedRemovesOnlyPresent | relay_server.py:42-46 | `call_ended` deletes exactly a present id, even an empty one; an absent id changes nothing |
| OpusRelay.ServeForgetsName | relay_server.py:70-73 | when the connection ends, its username is no longer in the client table |
| OpusRelay.ServeKeepsInv | relay_server.py:15-73 | every connection keeps the call table well formed |
| RelayServer.State.constructor | relay_server.py:12-13 | empty tables |
| RelayServer.State.Forward | relay_server.py:47-67 | state, connection and continuation are `OpusRelay.Forward` of the old state |
| RelayServer.State.Handle | relay_server.py:24-67 | state, connection and continuation are `OpusRelay.Handle` of the old state |
| RelayServer.State.Relay | relay_server.py:15-73 | the message loop and its `finally` end in `Serve` of the old state from a fresh connection |
| Asr.GetRecognizer | vosk_asr.py:28-39 | a recognizer exists exactly for `en` and `ja`, for that language |
| Asr.Zeros | vosk_asr.py:75 | the silence substitute is that many zero bytes |
| Asr.Choose | vosk_asr.py:84-93 | the caller's recognizer for the caller, else the callee's for the callee, else none |
| Asr.Report | vosk_asr.py:96-108 | the hypothesis's finality is kept; a final `the` becomes empty |
| Asr.StartSessionFresh | vosk_asr.py:41-58 | an existing session is left alone; a new one gets both parties with their recognizers and an empty buffer each; other sessions stay |
| Asr.ProcessAudioIgnores | vosk_asr.py:62-66 | no username or an unknown call yields an empty non-final transcript and no change |
| Asr.ProcessAudioWindows | vosk_asr.py:68-108 | the (possibly silenced) chunk is appended to the speaker's buffer; below 19200 bytes nothing is recognized; otherwise the first 19200 bytes go to the speaker's recognizer and the rest stays buffered |
| Asr.ProcessAudioOthers | vosk_asr.py:68-108 | only the speaker's buffer can change: the sessions, the set of calls with buffers and every other party's buffer are kept |
| Asr.StoreOthers | vosk_asr.py:78-83 | writing back one party's buffer sets that buffer and leaves the sessions and every other buffer as they were |
| Asr.StoreSynced | vosk_asr.py:78-83 | writing back a known party's buffer keeps sessions and buffers in step |
| Asr.SilenceKeepsLength | vosk_asr.py:73-76 | silencing a chunk never changes how much is buffered |
| Asr.ProcessAudioKeepsSessions | vosk_asr.py:60-112 | processing audio never changes the sessions |
| Asr.EndSessionRemoves | vosk_asr.py:114-133 | an unknown call reports nothing; a known one loses its session and buffers, others stay, and the transcript is final exactly when non-empty |
| Asr.EndSessionQuiet | vosk_asr.py:119-132 | with both buffers empty the closing transcript is empty and not final |
| Asr.StartSessionSynced | vosk_asr.py:41-58 | sessions and buffers keep the same call ids, with a buffer for both parties |
| Asr.ProcessAudioSynced | vosk_asr.py:78-83 | processing audio keeps sessions and buffers in step |
| Asr.EndSessionSynced | vosk_asr.py:130-131 | ending a session keeps sessions and buffers in step |
| VoskAsr.VoskASR.constructor | vosk_asr.py:10-26 | no sessions and no buffers |
| VoskAsr.VoskASR.StartSession | vosk_asr.py:41-58 | the new state is `Asr.StartSession` of the old |
| VoskAsr.VoskASR.ProcessAudio | vosk_asr.py:60-112 | new state and transcript are `Asr.ProcessAudio` of the old state |
| VoskAsr.VoskASR.EndSession | vosk_asr.py:114-133 | the loop over both parties ends in `Asr.EndSession` of the old state |
| Transcription.SalesUsers | transcribe_server.py:31-33 | the call's participants in group `sales`, caller first; at most two |
| Transcription.Run | transcribe_server.py:18-47 | the task stops only when its queue is empty or a send raised, and never adds or removes calls |
| Transcription.StepShortens | transcribe_server.py:24-28 | each step consumes exactly the queue's head and keeps clients and the set of calls |
| Transcription.RegisterDefaultsLanguage | transcribe_server.py:61-66 | `register` needs `group` and `username`; it records the socket, the language (default `en`) and the group under the username |
| Transcription.CallEndedRemoves | transcribe_server.py:83-89 | an absent or unknown id changes nothing; a known one is removed from the calls and from the recognizer, unless `end_session` raised, which changes nothing and ends the loop |
| Transcription.QueuePcmAppends | transcribe_server.py:90-96 | a frame of a registered participant is appended, with the sender's group, to the queue of its first call; other calls stay; without a username or call nothing happens |
| Transcription.DeliverOnlyTo | transcribe_server.py:34-44 | transcriptions carry the transcript unchanged and go only to open sockets of the listed registered users; the loop goes on exactly when every such socket delivers, and then each of them is reached |
| Transcription.StepRemembers | transcribe_server.py:29-45 | an unsent transcript leaves the memory alone; after a send the last partial is the sent partial, which is not sent again, or is cleared by a final, after which every non-empty transcript is sent |
| Transcription.StepReachesSales | transcribe_server.py:28-45 | a step sends only if the rule allows; what it sends carries the group and transcript of the frame and goes only to the call's registered sales participants; when it sends and every open sales socket delivers, each one is reached |
| Transcription.ServeKeepsInv | transcribe_server.py:49-102 | every connection keeps the calls well formed and in step with the recognizer's sessions |
| Transcription.RunKeepsInv | transcribe_server.py:18-47 | the transcription task keeps the same invariant |
| TranscribeServer.State.constructor | transcribe_server.py:14-16 | no clients, no calls, a fresh recognizer |
| TranscribeServer.State.Register | transcribe_server.py:61-66 | state and username are `Transcription.Register` of the old state |
| TranscribeServer.State.CallAccepted | transcribe_server.py:67-82 | state and continuation are `Transcription.CallAccepted` of the old state |
| TranscribeServer.State.CallEnded | transcribe_server.py:83-89 | state and continuation are `Transcription.CallEnded` of the old state |
| TranscribeServer.State.QueuePcm | transcribe_server.py:90-96 | state and continuation are `Transcription.QueuePcm` of the old state |
| TranscribeServer.State.Handle | transcribe_server.py:57-96 | state, username and continuation are `Transcription.Handle` of the old state |
| TranscribeServer.State.Transcribe | transcribe_server.py:49-102 | the message loop and its `finally` end in `Serve` of the old state |
| TranscribeServer.State.Deliver | transcribe_server.py:34-44 | the send loop's outbox and success are `Transcription.Deliver` of the old outbox; tables stay |
| TranscribeServer.State.TranscribeAudio | transcribe_server.py:18-47 | the task's loop ends in `Run` of the old state and task |

## Left out

- HTTP serving, TLS set-up, `main` and the server start-up functions are not modelled. Logging, the `DEBUG` logs and the worker's `debug` posts are not modelled either.
- `static/ui.js`, `static/audioWorklet.js`, `audioWorklet.js`, `playbackWorker.js` and `llm_server.py` are not part of this model.
- The DOM is not modelled: user lists, ringtones, alerts, cookies and the page reload after logout. The client keeps only the transcript panel's partial, final and insight texts.
- Concurrency is not modelled. Each handler runs to completion. An `await` inside `endCall` is treated as atomic. The transcription task is not interleaved with the connection handlers.
- `CallClient.CaptureGranted` and `LegacyClient.CaptureGranted`: the microphone grant is a separate event. A grant that arrives after the call ended still starts capture, as in the source. A refused grant ends the call (`endCall`) in both clients' event models.
- CallClient.RecorderData: the `MediaRecorder` is not modelled. The flag `capturing` stands for "a recorder exists and has not been stopped", and `endCall` clears it; the handler's own guard does not test it. So the last chunk that `recorder.stop()` flushes during `endCall` (static/audio.js:284-285) is not sent. A second grant overwrites `recorder` without stopping the first one, and the chunks that orphaned recorder keeps producing after the call ends are not sent either.
- LegacyClient.RecorderData: the same holds for `mediaRecorder`. The chunk flushed by `mediaRecorder.stop()` (audio.js:213-214) and the chunks of a recorder orphaned by a second grant are not sent.
- Sends on a client socket that is still CONNECTING are not modelled. Sockets replaced after a close get no handlers, and the model keeps that.
- `CallClient.Transcribed`: transcripts accumulate across calls, as in the source, because `currentCall.transcripts` is never reset.
- A JSON `null` call id on the client is treated as a missing one.
- JSON objects are `map<string, string>` in every server model (signaling, audio, both relays and transcription): every value is a string. The clients never send `port`, so their `register` always gets the error reply. That is the code's behaviour, and the model keeps it.
- In `http_signaling_server.py`, any exception in the loop runs the cleanup. In `audio_server.py`, only `ConnectionClosed` does (`AudioCalls.Say`). Another exception there ends the loop and leaves the tables as they are.
- Timing is not modelled: the one-second `asyncio.sleep` mock delays of `audio_server.py` and `udp_relay_server.py`, and the 5 ms `setTimeout` wait of the older client's drain loop (`audio.js:124`). An abstract schedule of events stands in for the wait.
- `Asr.ProcessAudio`: the RMS computation is an abstract `silent` flag per chunk. A chunk of odd length makes `np.frombuffer` raise, and the model returns an empty transcript without buffering. Only one 19200-byte window is cut per call, as in the source. The comment "~96000" in `vosk_asr.py:79` is wrong: 48000 × 2 × 0.2 is 19200, and the model uses the code's value.
- `Asr.ProcessAudio`: a missing recognizer raises after the window has been cut. The buffer therefore stays cut and the transcript is empty.
- Vosk recognizers are stateless functions here. The internal state a recognizer keeps between windows is not modelled.
- `Asr.EndSession`: a missing recognizer with buffered audio raises. The model then changes nothing, and the connection's loop ends through `Transcription.CallEnded`. When both parties have buffered audio, the returned transcript is the last party's, as in the source. The server ignores this value.
- The `None` sentinel that `call_ended` puts in the queue is not a queue item. Instead, the task finds its call gone.
- Two tasks running for the same call id (a call re-accepted under that id) are not modelled. A re-accepted id gets an empty queue, while the recognizer session and its buffers stay.
- `Transcription.Run`: one network snapshot covers a whole run of the task.
- The `finally` clause of each server removes the connection's username even if another socket has re-registered it since. The model keeps that.
- In `udp_relay_server.py`, a failed transcription send is caught and skipped, and a failed relay send ends the connection.
- In `relay_server.py`, the `audio_buffer` is never drained (dead storage in the source). `call_ended` deletes an empty id there, unlike in the UDP relay.
