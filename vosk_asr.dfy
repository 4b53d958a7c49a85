/** The speech-recognition wrapper `vosk_asr.py`: per-call sessions holding a
    recognizer for each party, and per-user byte buffers cut into fixed windows
    of 16-bit PCM before they reach the recognizer.

    The Vosk recognizer is foreign code: it is a function parameter here, from
    a recognizer and a window of bytes to its hypothesis. Whether a chunk is
    silent is computed from floating-point RMS in the source; it is a boolean
    parameter here. */
module Asr {
  import opened Common

  /** A `KaldiRecognizer` over the model of `language`. */
  datatype Recognizer = Recognizer(language: string)

  /** One side of a session: `{'username', 'recognizer', 'language'}`. The
      recognizer is None for a language without a model. */
  datatype Party = Party(username: string, recognizer: Option<Recognizer>, language: string)

  datatype Session = Session(caller: Party, callee: Party)

  /** `self.sessions` and `self.buffers` (call id, then username, to bytes). */
  datatype Engine = Engine(sessions: map<string, Session>, buffers: map<string, map<string, Chunk>>)

  /** What `AcceptWaveform` said about a window (`final`), and the text of the
      result it then reads (`text` of `Result()`, or `partial` of
      `PartialResult()`, empty when the key is missing). */
  datatype Hypothesis = Hypothesis(final: bool, text: string)

  /** The pair `process_audio` and `end_session` return. */
  datatype Transcript = Transcript(text: string, final: bool)

  const Nothing := Transcript("", false)

  const TargetRate := 48000
  const BytesPerSample := 2

  /** `int(self.target_rate * self.bytes_per_sample * self.min_buffer_duration)`:
      48000 * 2 * 0.2 evaluates to exactly 19200.0 in double precision, so the
      window is 19200 bytes (0.2 s of 16-bit mono at 48 kHz). */
  const MinBufferSize := 19200

  const Initial := Engine(map[], map[])

  /** The two tables agree: a session exists exactly when its buffers do, and
      both parties have a buffer. */
  ghost predicate Synced(e: Engine) {
    && e.sessions.Keys == e.buffers.Keys
    && forall id :: id in e.sessions ==>
         e.sessions[id].caller.username in e.buffers[id] && e.sessions[id].callee.username in e.buffers[id]
  }

  /** `__get_recognizer`: the two supported languages have a model. */
  function GetRecognizer(language: string): (r: Option<Recognizer>)
    ensures r.Some? <==> language == "en" || language == "ja"
    ensures r.Some? ==> r.value.language == language
  {
    if language == "en" || language == "ja" then Some(Recognizer(language)) else None
  }

  function StartSession(e: Engine, callId: string, caller: string, callerLanguage: string,
                        callee: string, calleeLanguage: string): Engine {
    if callId in e.sessions then e
    else
      Engine(e.sessions[callId := Session(Party(caller, GetRecognizer(callerLanguage), callerLanguage),
                                          Party(callee, GetRecognizer(calleeLanguage), calleeLanguage))],
             e.buffers[callId := map[caller := []][callee := []]])
  }

  /** `bytes(len(audio_chunk))` */
  function Zeros(n: nat): (r: Chunk)
    ensures |r| == n && forall i :: 0 <= i < n ==> r[i] == 0
  {
    seq(n, i => 0)
  }

  /** The recognizer for `u`: the caller's if the name is the caller's, else the
      callee's if it is the callee's. */
  function Choose(s: Session, u: string): (r: Option<Recognizer>)
    ensures s.caller.username == u ==> r == s.caller.recognizer
    ensures s.caller.username != u && s.callee.username == u ==> r == s.callee.recognizer
    ensures s.caller.username != u && s.callee.username != u ==> r == None
  {
    if s.caller.username == u then s.caller.recognizer
    else if s.callee.username == u then s.callee.recognizer
    else None
  }

  /** The reported transcript for a hypothesis; a final `the` is reported empty. */
  function Report(h: Hypothesis): (r: Transcript)
    ensures r.final == h.final
    ensures h.final && h.text == "the" ==> r.text == ""
    ensures !(h.final && h.text == "the") ==> r.text == h.text
  {
    if h.final then Transcript(if h.text == "the" then "" else h.text, true) else Transcript(h.text, false)
  }

  function Store(e: Engine, callId: string, u: string, b: Chunk): Engine
    requires callId in e.buffers
  {
    e.(buffers := e.buffers[callId := e.buffers[callId][u := b]])
  }

  /** Storing a party's buffer keeps the engine synchronised. */
  lemma StoreSynced(e: Engine, callId: string, u: string, b: Chunk)
    requires Synced(e) && callId in e.buffers && u in e.buffers[callId]
    ensures Synced(Store(e, callId, u, b))
  {
    var r := Store(e, callId, u, b);
    assert r.buffers[callId].Keys == e.buffers[callId].Keys;
    assert r.buffers.Keys == e.buffers.Keys;
  }

  /** Storing a party's buffer changes that buffer only. */
  lemma StoreOthers(e: Engine, callId: string, u: string, b: Chunk)
    requires callId in e.buffers
    ensures var r := Store(e, callId, u, b);
      && r.sessions == e.sessions && r.buffers.Keys == e.buffers.Keys
      && u in r.buffers[callId] && r.buffers[callId][u] == b
      && (forall id, v :: id in e.buffers && v in e.buffers[id] && (id, v) != (callId, u) ==>
            v in r.buffers[id] && r.buffers[id][v] == e.buffers[id][v])
  {
  }

  /** `process_audio`. Every raise inside it is caught and answered `("", False)`:
      a missing username, a chunk of odd length (which `np.frombuffer` refuses as
      16-bit samples), a username without a buffer in the call;
      a raise after the window was cut (no recognizer for the user) leaves the
      buffer cut. */
  function ProcessAudio(e: Engine, callId: string, chunk: Chunk, username: Option<string>, silent: bool,
                        recognize: (Recognizer, Chunk) -> Hypothesis): (Engine, Transcript)
  {
    if username.None? || callId !in e.sessions then (e, Nothing)
    else if |chunk| % 2 != 0 then (e, Nothing)
    else if callId !in e.buffers || username.value !in e.buffers[callId] then (e, Nothing)
    else
      var u := username.value;
      var audio := if silent then Zeros(|chunk|) else chunk;
      var buf := e.buffers[callId][u] + audio;
      if |buf| < MinBufferSize then (Store(e, callId, u, buf), Nothing)
      else
        var e1 := Store(e, callId, u, buf[MinBufferSize..]);
        var rec := Choose(e.sessions[callId], u);
        if rec.None? then (e1, Nothing)
        else (e1, Report(recognize(rec.value, buf[..MinBufferSize])))
  }

  /** The loop of `end_session` over the two parties: a party with buffered
      bytes has them recognized and its text becomes the transcript (the last
      one wins, even if empty); None where it raises (a missing buffer, or no
      recognizer to feed). */
  function Flush(parties: seq<(string, Option<Recognizer>)>, bufs: map<string, Chunk>,
                 flush: (Recognizer, Chunk) -> string, transcript: string): Option<string>
    decreases |parties|
  {
    if parties == [] then Some(transcript)
    else
      var u, rec := parties[0].0, parties[0].1;
      if u !in bufs then None
      else if bufs[u] == [] then Flush(parties[1..], bufs, flush, transcript)
      else if rec.None? then None
      else Flush(parties[1..], bufs, flush, flush(rec.value, bufs[u]))
  }

  function Parties(s: Session): seq<(string, Option<Recognizer>)> {
    [(s.caller.username, s.caller.recognizer), (s.callee.username, s.callee.recognizer)]
  }

  /** `end_session`: None when it raises, which leaves both tables as they were. */
  function EndSession(e: Engine, callId: string, flush: (Recognizer, Chunk) -> string): (Engine, Option<Transcript>) {
    if callId !in e.sessions then (e, Some(Nothing))
    else if callId !in e.buffers then (e, None)
    else
      match Flush(Parties(e.sessions[callId]), e.buffers[callId], flush, "")
      case None => (e, None)
      case Some(t) => (Engine(e.sessions - {callId}, e.buffers - {callId}), Some(Transcript(t, t != "")))
  }

  // ---------------------------------------------------------------------
  // Properties

  /** `start_session` leaves an existing session alone; a new one gets the
      recognizers of both languages and an empty buffer for each party. */
  lemma StartSessionFresh(e: Engine, callId: string, caller: string, cl: string, callee: string, ce: string)
    ensures var r := StartSession(e, callId, caller, cl, callee, ce);
      && (callId in e.sessions ==> r == e)
      && (callId !in e.sessions ==>
            && r.sessions[callId].caller == Party(caller, GetRecognizer(cl), cl)
            && r.sessions[callId].callee == Party(callee, GetRecognizer(ce), ce)
            && r.buffers[callId][caller] == [] && r.buffers[callId][callee] == []
            && r.buffers[callId].Keys == {caller, callee}
            && forall id :: id in e.sessions ==> id in r.sessions && r.sessions[id] == e.sessions[id])
  {
  }

  /** Nothing is buffered or reported for a missing username or an unknown call. */
  lemma ProcessAudioIgnores(e: Engine, callId: string, chunk: Chunk, username: Option<string>, silent: bool,
                            recognize: (Recognizer, Chunk) -> Hypothesis)
    requires username.None? || callId !in e.sessions
    ensures ProcessAudio(e, callId, chunk, username, silent, recognize) == (e, Nothing)
  {
  }

  /** `process_audio` for a party of a known call touches that party's buffer
      only: the sessions, the set of calls with buffers and every other buffer
      stay as they were. */
  lemma ProcessAudioOthers(e: Engine, callId: string, chunk: Chunk, u: string, silent: bool,
                           recognize: (Recognizer, Chunk) -> Hypothesis)
    requires Synced(e) && callId in e.sessions && |chunk| % 2 == 0
    requires u == e.sessions[callId].caller.username || u == e.sessions[callId].callee.username
    ensures var r := ProcessAudio(e, callId, chunk, Some(u), silent, recognize).0;
      && r.sessions == e.sessions && r.buffers.Keys == e.buffers.Keys
      && callId in r.buffers && u in r.buffers[callId]
      && (forall id, v :: id in e.buffers && v in e.buffers[id] && (id, v) != (callId, u) ==>
            v in r.buffers[id] && r.buffers[id][v] == e.buffers[id][v])
  {
    var audio := if silent then Zeros(|chunk|) else chunk;
    var buf := e.buffers[callId][u] + audio;
    var kept := if |buf| < MinBufferSize then buf else buf[MinBufferSize..];
    assert ProcessAudio(e, callId, chunk, Some(u), silent, recognize).0 == Store(e, callId, u, kept);
    StoreOthers(e, callId, u, kept);
  }

  /** The buffer of a party grows by the chunk (or its silent substitute);
      below the window size everything is kept and nothing reported; at or
      above it the first `MinBufferSize` bytes are fed to that party's
      recognizer and the rest is kept, in order. */
  lemma ProcessAudioWindows(e: Engine, callId: string, chunk: Chunk, u: string, silent: bool,
                            recognize: (Recognizer, Chunk) -> Hypothesis)
    requires Synced(e) && callId in e.sessions && |chunk| % 2 == 0
    requires u == e.sessions[callId].caller.username || u == e.sessions[callId].callee.username
    ensures var (r, t) := ProcessAudio(e, callId, chunk, Some(u), silent, recognize);
      var audio := if silent then Zeros(|chunk|) else chunk;
      var before := e.buffers[callId][u];
      && callId in r.buffers && u in r.buffers[callId]
      && (|before + audio| < MinBufferSize ==> r.buffers[callId][u] == before + audio && t == Nothing)
      && (|before + audio| >= MinBufferSize ==>
            var window := (before + audio)[..MinBufferSize];
            && window + r.buffers[callId][u] == before + audio
            && |window| == MinBufferSize
            && var rec := Choose(e.sessions[callId], u);
            && (rec.None? ==> t == Nothing)
            && (rec.Some? ==> t == Report(recognize(rec.value, window))))
  {
    var audio := if silent then Zeros(|chunk|) else chunk;
    var buf := e.buffers[callId][u] + audio;
    var pr := ProcessAudio(e, callId, chunk, Some(u), silent, recognize);
    if |buf| < MinBufferSize {
      assert pr == (Store(e, callId, u, buf), Nothing);
    } else {
      var rec := Choose(e.sessions[callId], u);
      assert pr.0 == Store(e, callId, u, buf[MinBufferSize..]);
      assert pr.1 == if rec.None? then Nothing else Report(recognize(rec.value, buf[..MinBufferSize]));
      assert buf[..MinBufferSize] + buf[MinBufferSize..] == buf;
    }
  }

  /** The silence substitute has the chunk's length, so the silence decision
      never changes how much is buffered or when a window is cut. */
  lemma SilenceKeepsLength(e: Engine, callId: string, chunk: Chunk, u: string,
                           recognize: (Recognizer, Chunk) -> Hypothesis)
    requires Synced(e) && callId in e.sessions && u in e.buffers[callId]
    ensures var (loud, _) := ProcessAudio(e, callId, chunk, Some(u), false, recognize);
      var (quiet, _) := ProcessAudio(e, callId, chunk, Some(u), true, recognize);
      |loud.buffers[callId][u]| == |quiet.buffers[callId][u]|
  {
  }

  /** `end_session` of an unknown call reports nothing and changes nothing;
      of a known one that does not raise, removes its session and buffers and
      keeps the rest. */
  lemma EndSessionRemoves(e: Engine, callId: string, flush: (Recognizer, Chunk) -> string)
    ensures var (r, t) := EndSession(e, callId, flush);
      && (callId !in e.sessions ==> r == e && t == Some(Nothing))
      && (t.None? ==> r == e)
      && (callId in e.sessions && t.Some? ==>
            && callId !in r.sessions && callId !in r.buffers
            && r.sessions == e.sessions - {callId} && r.buffers == e.buffers - {callId}
            && t.value.final == (t.value.text != ""))
  {
  }

  /** Processing audio never opens or closes a session. */
  lemma ProcessAudioKeepsSessions(e: Engine, callId: string, chunk: Chunk, username: Option<string>, silent: bool,
                                  recognize: (Recognizer, Chunk) -> Hypothesis)
    ensures ProcessAudio(e, callId, chunk, username, silent, recognize).0.sessions == e.sessions
  {
  }

  /** End of a session whose parties have nothing buffered: no recognizer is
      fed, nothing is reported, and it cannot raise. */
  lemma EndSessionQuiet(e: Engine, callId: string, flush: (Recognizer, Chunk) -> string)
    requires Synced(e) && callId in e.sessions
    requires e.buffers[callId][e.sessions[callId].caller.username] == []
    requires e.buffers[callId][e.sessions[callId].callee.username] == []
    ensures EndSession(e, callId, flush).1 == Some(Nothing)
  {
    var s := e.sessions[callId];
    var ps := Parties(s);
    assert ps[1..][1..] == [];
    assert Flush(ps[1..], e.buffers[callId], flush, "") == Flush(ps[1..][1..], e.buffers[callId], flush, "");
    assert Flush(ps, e.buffers[callId], flush, "") == Flush(ps[1..], e.buffers[callId], flush, "");
  }

  lemma StartSessionSynced(e: Engine, callId: string, caller: string, cl: string, callee: string, ce: string)
    requires Synced(e)
    ensures Synced(StartSession(e, callId, caller, cl, callee, ce))
  {
  }

  lemma ProcessAudioSynced(e: Engine, callId: string, chunk: Chunk, username: Option<string>, silent: bool,
                           recognize: (Recognizer, Chunk) -> Hypothesis)
    requires Synced(e)
    ensures Synced(ProcessAudio(e, callId, chunk, username, silent, recognize).0)
  {
    if username.Some? && callId in e.sessions && |chunk| % 2 == 0
       && callId in e.buffers && username.value in e.buffers[callId] {
      var u := username.value;
      var buf := e.buffers[callId][u] + (if silent then Zeros(|chunk|) else chunk);
      var kept := if |buf| < MinBufferSize then buf else buf[MinBufferSize..];
      assert ProcessAudio(e, callId, chunk, username, silent, recognize).0 == Store(e, callId, u, kept);
      StoreSynced(e, callId, u, kept);
    }
  }

  lemma EndSessionSynced(e: Engine, callId: string, flush: (Recognizer, Chunk) -> string)
    requires Synced(e)
    ensures Synced(EndSession(e, callId, flush).0)
  {
  }
}

/** `VoskASR`, whose two tables its methods update in place. */
module VoskAsr {
  import opened Common
  import opened Asr

  class VoskASR {
    var sessions: map<string, Session>
    var buffers: map<string, map<string, Chunk>>

    function Snapshot(): Engine
      reads this
    {
      Engine(sessions, buffers)
    }

    constructor ()
      ensures Snapshot() == Initial
    {
      sessions, buffers := map[], map[];
    }

    method StartSession(callId: string, caller: string, callerLanguage: string, callee: string, calleeLanguage: string)
      modifies this
      ensures Snapshot() == Asr.StartSession(old(Snapshot()), callId, caller, callerLanguage, callee, calleeLanguage)
    {
      if callId !in sessions {
        sessions := sessions[callId := Session(Party(caller, GetRecognizer(callerLanguage), callerLanguage),
                                               Party(callee, GetRecognizer(calleeLanguage), calleeLanguage))];
        var parties: map<string, Chunk> := map[];
        parties := parties[caller := []];
        parties := parties[callee := []];
        buffers := buffers[callId := parties];
      }
    }

    method ProcessAudio(callId: string, chunk: Chunk, username: Option<string>, silent: bool,
                        recognize: (Recognizer, Chunk) -> Hypothesis) returns (t: Transcript)
      modifies this
      ensures (Snapshot(), t) == Asr.ProcessAudio(old(Snapshot()), callId, chunk, username, silent, recognize)
    {
      if username.None? || callId !in sessions {
        return Nothing;  // "Username can't be none." is raised and caught; no session
      }
      if |chunk| % 2 != 0 {
        return Nothing;  // not a whole number of 16-bit samples, caught
      }
      var u := username.value;
      if callId !in buffers || u !in buffers[callId] {
        return Nothing;  // KeyError, caught
      }
      var audio := chunk;
      if silent {
        audio := Zeros(|chunk|);
      }
      var buf := buffers[callId][u] + audio;
      if |buf| < MinBufferSize {
        buffers := buffers[callId := buffers[callId][u := buf]];
        return Nothing;
      }
      var pcm := buf[..MinBufferSize];
      buffers := buffers[callId := buffers[callId][u := buf[MinBufferSize..]]];
      var recognizer := Choose(sessions[callId], u);
      if recognizer.None? {
        return Nothing;  // "Couldn't locate recognizer", caught
      }
      t := Report(recognize(recognizer.value, pcm));
    }

    method EndSession(callId: string, flush: (Recognizer, Chunk) -> string) returns (t: Option<Transcript>)
      modifies this
      ensures (Snapshot(), t) == Asr.EndSession(old(Snapshot()), callId, flush)
    {
      if callId !in sessions {
        return Some(Nothing);
      }
      if callId !in buffers {
        return None;
      }
      var recognizers := Parties(sessions[callId]);
      var transcript := "";
      var i := 0;
      while i < |recognizers|
        invariant 0 <= i <= |recognizers|
        invariant Flush(recognizers[i..], buffers[callId], flush, transcript)
               == Flush(recognizers, buffers[callId], flush, "")
      {
        assert recognizers[i..][0] == recognizers[i] && recognizers[i..][1..] == recognizers[i + 1..];
        var username, recognizer := recognizers[i].0, recognizers[i].1;
        if username !in buffers[callId] {
          return None;  // KeyError
        }
        if buffers[callId][username] != [] {
          if recognizer.None? {
            return None;  // AcceptWaveform on None
          }
          transcript := flush(recognizer.value, buffers[callId][username]);
        }
        i := i + 1;
      }
      sessions := sessions - {callId};
      buffers := buffers - {callId};
      t := Some(Transcript(transcript, transcript != ""));
    }
  }
}
