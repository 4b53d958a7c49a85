/** The transcription server `transcribe_server.py`: clients register a name,
    the call-control events open and close a recognition session per call, PCM
    frames from a registered participant are queued on that call, and a task
    per call feeds the queue to the recognizer and sends new transcripts to
    the call's sales participants.

    The handlers of one connection are `Handle`/`Serve`; the per-call task is
    `Step`/`Run`, which processes what is queued until it would wait. */
module Transcription {
  import opened Common
  import opened Dict
  import Asr

  /** `transcribe_clients[username]` */
  datatype Client = Client(ws: SocketId, language: string, group: string)

  /** One queued frame: `(group, pcm_data, username)`. */
  datatype Item = Pcm(group: string, data: Chunk, username: string)

  /** `calls[call_id]`, with its queue. */
  datatype Job = Job(caller: string, callee: string, callerGroup: string, calleeGroup: string,
                     callerLanguage: string, calleeLanguage: string, queue: seq<Item>)

  /** A `transcription` event sent to a sales participant. */
  datatype Out = Out(to: SocketId, callId: string, group: string, text: string, final: bool)

  datatype Transcriber = Transcriber(clients: map<string, Client>, calls: Dict<string, Job>,
                                     asr: Asr.Engine, sent: seq<Out>)

  /** A frame the connection delivers: text that decodes to a JSON object, text
      that does not, binary, or the end of the connection (clean or not). */
  datatype Inbound = Text(data: Json) | Malformed | Binary(bytes: Chunk) | Closed

  /** A handler's new state, the connection's `username` variable, and whether
      the `async for` loop goes on. */
  datatype Handled = Handled(s: Transcriber, username: Option<string>, alive: bool)

  /** The environment of a transcription task: which chunks are silent, and
      the recognizer's answers. */
  datatype Engines = Engines(isSilent: Chunk -> bool, recognize: (Asr.Recognizer, Chunk) -> Asr.Hypothesis)

  const Initial := Transcriber(map[], [], Asr.Initial, [])

  /** The call table and the recognizer's sessions have the same ids, and all
      tables are consistent. */
  ghost predicate Inv(s: Transcriber) {
    && Valid(s.calls)
    && Asr.Synced(s.asr)
    && forall id :: Has(s.calls, id) <==> id in s.asr.sessions
  }

  /** `username in (call['caller'], call['callee'])` */
  function Participant(username: string): (string, Job) -> bool {
    (id: string, j: Job) => username == j.caller || username == j.callee
  }

  /** `register`: `group` and `username` are required, `language` defaults to `en`. */
  function Register(s: Transcriber, ws: SocketId, username: Option<string>, data: Json): Handled {
    if "group" !in data || "username" !in data then Handled(s, username, false)
    else
      var name := data["username"];
      Handled(s.(clients := s.clients[name := Client(ws, GetOr(data, "language", "en"), data["group"])]),
              Some(name), true)
  }

  /** `call_accepted`: both users must be registered (their languages come from
      their registrations) and all fields present; the call is stored with an
      empty queue and a recognition session is started for it. */
  function CallAccepted(s: Transcriber, username: Option<string>, data: Json): Handled {
    if || "call_id" !in data || "from_user" !in data || data["from_user"] !in s.clients
       || "to_user" !in data || data["to_user"] !in s.clients
       || "caller_group" !in data || "callee_group" !in data
    then Handled(s, username, false)
    else
      var id, caller, callee := data["call_id"], data["from_user"], data["to_user"];
      var callerLanguage, calleeLanguage := s.clients[caller].language, s.clients[callee].language;
      var job := Job(caller, callee, data["caller_group"], data["callee_group"], callerLanguage, calleeLanguage, []);
      Handled(s.(calls := Put(s.calls, id, job),
                 asr := Asr.StartSession(s.asr, id, caller, callerLanguage, callee, calleeLanguage)),
              username, true)
  }

  /** `call_ended`: a known call has its session ended and is deleted (the stop
      sentinel it is sent ends its task, which here finds the call gone); if
      ending the session raises, the connection loop ends with nothing changed. */
  function CallEnded(s: Transcriber, username: Option<string>, data: Json,
                     flush: (Asr.Recognizer, Chunk) -> string): Handled {
    var id := Get(data, "call_id");
    if id.None? || !Has(s.calls, id.value) then Handled(s, username, true)
    else
      var (e, t) := Asr.EndSession(s.asr, id.value, flush);
      if t.None? then Handled(s, username, false)
      else Handled(s.(asr := e, calls := Del(s.calls, id.value)), username, true)
  }

  /** A binary frame from a registered connection is queued on the first call
      it takes part in, tagged with the group it registered with. */
  function QueuePcm(s: Transcriber, username: Option<string>, pcm: Chunk): Handled {
    if !Truthy(username) then Handled(s, username, true)
    else
      var id := FirstKey(s.calls, Participant(username.value));
      if !Truthy(id) then Handled(s, username, true)
      else if username.value !in s.clients then Handled(s, username, false)
      else
        var job := Lookup(s.calls, id.value).value;
        var item := Pcm(s.clients[username.value].group, pcm, username.value);
        Handled(s.(calls := Put(s.calls, id.value, job.(queue := job.queue + [item]))), username, true)
  }

  /** One turn of the connection's `async for` loop. */
  function Handle(s: Transcriber, ws: SocketId, username: Option<string>, m: Inbound,
                  flush: (Asr.Recognizer, Chunk) -> string): Handled {
    match m
    case Malformed => Handled(s, username, false)
    case Closed => Handled(s, username, false)
    case Binary(pcm) => QueuePcm(s, username, pcm)
    case Text(data) =>
      var event := Get(data, "event");
      if event == Some("register") then Register(s, ws, username, data)
      else if event == Some("call_accepted") then CallAccepted(s, username, data)
      else if event == Some("call_ended") then CallEnded(s, username, data, flush)
      else Handled(s, username, true)
  }

  /** The `finally` clause: the connection's registered name is forgotten. */
  function Finally(s: Transcriber, username: Option<string>): Transcriber {
    if Truthy(username) && username.value in s.clients then s.(clients := s.clients - {username.value}) else s
  }

  /** The connection handler over the frames it receives; it runs its
      `finally` clause once the loop ends. */
  function Serve(s: Transcriber, ws: SocketId, username: Option<string>, ms: seq<Inbound>,
                 flush: (Asr.Recognizer, Chunk) -> string): Transcriber
    decreases |ms|
  {
    if ms == [] then s
    else
      var h := Handle(s, ws, username, ms[0], flush);
      if h.alive then Serve(h.s, ws, h.username, ms[1..], flush) else Finally(h.s, h.username)
  }

  // ---------------------------------------------------------------------
  // The per-call transcription task

  /** `last_partials[group]` of a `defaultdict(str)`. */
  function LastPartial(lastPartials: map<string, string>, group: string): string {
    if group in lastPartials then lastPartials[group] else ""
  }

  /** The de-duplication rule: a transcript is sent when it is non-empty, and
      final or different from the last partial of its group. */
  predicate ShouldSend(t: Asr.Transcript, last: string) {
    t.text != "" && (t.final || t.text != last)
  }

  /** `sales_users`: the caller if its group is sales, then the callee if its is. */
  function SalesUsers(j: Job): (r: seq<string>)
    ensures forall u :: u in r <==> (u == j.caller && j.callerGroup == "sales") || (u == j.callee && j.calleeGroup == "sales")
    ensures |r| <= 2
  {
    (if j.callerGroup == "sales" then [j.caller] else []) + (if j.calleeGroup == "sales" then [j.callee] else [])
  }

  /** The send loop over `users`: each user with an open registered socket is
      sent `msg` addressed to it; the second component is false when a send
      raised, which ends the task. */
  function Deliver(sent: seq<Out>, clients: map<string, Client>, users: seq<string>, net: Net,
                   callId: string, group: string, t: Asr.Transcript): (seq<Out>, bool)
    decreases |users|
  {
    if users == [] then (sent, true)
    else if users[0] !in clients || !IsOpen(net, clients[users[0]].ws) then
      Deliver(sent, clients, users[1..], net, callId, group, t)
    else if !Delivers(net, clients[users[0]].ws) then (sent, false)
    else Deliver(sent + [Out(clients[users[0]].ws, callId, group, t.text, t.final)], clients, users[1..], net, callId, group, t)
  }

  /** `to` is the socket a user among `users` registered with. */
  ghost predicate RegisteredAmong(users: seq<string>, clients: map<string, Client>, to: SocketId) {
    exists u :: u in users && u in clients && clients[u].ws == to
  }

  /** Something from index `from` on in `r` is sent to `to`. */
  ghost predicate Reached(r: seq<Out>, from: nat, to: SocketId) {
    exists i :: from <= i < |r| && r[i].to == to
  }

  /** The task's own state: `last_partials`, and whether it is still running
      (false after a send raised). */
  datatype Task = Task(lastPartials: map<string, string>, running: bool)

  function QueueOf(s: Transcriber, callId: string): seq<Item> {
    match Lookup(s.calls, callId)
    case None => []
    case Some(j) => j.queue
  }

  /** One iteration of `transcribe_audio`: take the head of the call's queue,
      recognize it, and send the transcript if the de-duplication rule allows. */
  function Step(s: Transcriber, callId: string, t: Task, net: Net, env: Engines): (Transcriber, Task)
    requires QueueOf(s, callId) != []
  {
    var job := Lookup(s.calls, callId).value;
    var item := job.queue[0];
    var s1 := s.(calls := Put(s.calls, callId, job.(queue := job.queue[1..])));
    var (e, tr) := Asr.ProcessAudio(s1.asr, callId, item.data, Some(item.username), env.isSilent(item.data), env.recognize);
    var s2 := s1.(asr := e);
    if !ShouldSend(tr, LastPartial(t.lastPartials, item.group)) then (s2, t)
    else
      var (sent, ok) := Deliver(s2.sent, s2.clients, SalesUsers(job), net, callId, item.group, tr);
      if !ok then (s2.(sent := sent), t.(running := false))
      else (s2.(sent := sent), t.(lastPartials := t.lastPartials[item.group := if tr.final then "" else tr.text]))
  }

  /** The task runs while it is running and its call exists, until the queue is
      empty (where `queue.get()` would wait). */
  function Run(s: Transcriber, callId: string, t: Task, net: Net, env: Engines): (r: (Transcriber, Task))
    ensures !r.1.running || QueueOf(r.0, callId) == []
    ensures Has(r.0.calls, callId) == Has(s.calls, callId)
    decreases |QueueOf(s, callId)|
  {
    if !t.running || QueueOf(s, callId) == [] then (s, t)
    else
      var (s1, t1) := Step(s, callId, t, net, env);
      StepShortens(s, callId, t, net, env);
      Run(s1, callId, t1, net, env)
  }

  /** A step consumes exactly the head of the call's queue, and changes neither
      the clients nor which calls exist. */
  lemma StepShortens(s: Transcriber, callId: string, t: Task, net: Net, env: Engines)
    requires QueueOf(s, callId) != []
    ensures var r := Step(s, callId, t, net, env).0;
      && QueueOf(r, callId) == QueueOf(s, callId)[1..]
      && r.clients == s.clients
      && (forall id :: Has(r.calls, id) == Has(s.calls, id))
  {
    var job := Lookup(s.calls, callId).value;
    var d := Put(s.calls, callId, job.(queue := job.queue[1..]));
    StepFields(s, callId, t, net, env);
    var r := Step(s, callId, t, net, env).0;
    assert r.calls == d;
    assert Lookup(d, callId) == Some(job.(queue := job.queue[1..]));
    assert QueueOf(r, callId) == job.queue[1..];
    forall id ensures Has(d, id) == Has(s.calls, id) {
      if id != callId {
        PutOther(s.calls, callId, job.(queue := job.queue[1..]), id);
      }
    }
  }

  // ---------------------------------------------------------------------
  // Properties

  /** `register` stores the connection under the given name, with `en` when no
      language is given; without a group or a name the connection loop ends. */
  lemma RegisterDefaultsLanguage(s: Transcriber, ws: SocketId, username: Option<string>, data: Json)
    ensures var r := Register(s, ws, username, data);
      && ("group" !in data || "username" !in data ==> r == Handled(s, username, false))
      && ("group" in data && "username" in data ==>
            && r.alive && r.username == Some(data["username"])
            && r.s.clients[data["username"]] == Client(ws, if "language" in data then data["language"] else "en", data["group"])
            && r.s.calls == s.calls)
  {
  }

  /** `call_ended` for a known call removes it and its recognition session
      unless ending the session raised; an unknown or missing id changes nothing. */
  lemma CallEndedRemoves(s: Transcriber, username: Option<string>, data: Json, flush: (Asr.Recognizer, Chunk) -> string)
    requires Inv(s)
    ensures var r := CallEnded(s, username, data, flush);
      && (Get(data, "call_id").None? || !Has(s.calls, data["call_id"]) ==> r == Handled(s, username, true))
      && (Get(data, "call_id").Some? && Has(s.calls, data["call_id"]) ==>
            (r.alive ==> !Has(r.s.calls, data["call_id"]) && data["call_id"] !in r.s.asr.sessions)
            && (!r.alive ==> r.s == s))
  {
  }

  /** A binary frame from a named connection is appended, as (registered group,
      bytes, name), to the queue of the first call with that name; other
      queues are untouched. Otherwise (no name, no call, an empty call id)
      nothing changes. */
  lemma QueuePcmAppends(s: Transcriber, username: Option<string>, pcm: Chunk, k: string)
    requires Inv(s)
    ensures var id := if username.Some? then FirstKey(s.calls, Participant(username.value)) else None;
      var r := QueuePcm(s, username, pcm);
      && (!Truthy(username) || !Truthy(id) ==> r == Handled(s, username, true))
      && (Truthy(username) && Truthy(id) && username.value in s.clients ==>
            && r.alive
            && var j := Lookup(s.calls, id.value).value;
            && (username.value == j.caller || username.value == j.callee)
            && QueueOf(r.s, id.value) == QueueOf(s, id.value) + [Pcm(s.clients[username.value].group, pcm, username.value)]
            && (k != id.value ==> Lookup(r.s.calls, k) == Lookup(s.calls, k)))
  {
    if Truthy(username) {
      var id := FirstKey(s.calls, Participant(username.value));
      if Truthy(id) && username.value in s.clients {
        FirstKeyLookup(s.calls, Participant(username.value));
        var j := Lookup(s.calls, id.value).value;
        if k != id.value {
          PutOther(s.calls, id.value, j.(queue := j.queue + [Pcm(s.clients[username.value].group, pcm, username.value)]), k);
        }
      }
    }
  }

  /** Every transcription the send loop emits goes to the open socket of a
      registered user among `users`, carrying the transcript unchanged. The
      loop completes exactly when every such socket delivers, and then each
      of them is reached. */
  lemma {:induction false} DeliverOnlyTo(sent: seq<Out>, clients: map<string, Client>, users: seq<string>, net: Net,
                                         callId: string, group: string, t: Asr.Transcript)
    ensures var r := Deliver(sent, clients, users, net, callId, group, t).0;
      |sent| <= |r| && r[..|sent|] == sent
    ensures var r := Deliver(sent, clients, users, net, callId, group, t).0;
      forall i :: |sent| <= i < |r| ==>
        r[i] == Out(r[i].to, callId, group, t.text, t.final) && IsOpen(net, r[i].to) && RegisteredAmong(users, clients, r[i].to)
    ensures Deliver(sent, clients, users, net, callId, group, t).1
        <==> forall u :: u in users && u in clients && IsOpen(net, clients[u].ws) ==> Delivers(net, clients[u].ws)
    ensures Deliver(sent, clients, users, net, callId, group, t).1 ==>
      forall u :: u in users && u in clients && IsOpen(net, clients[u].ws) ==>
        Reached(Deliver(sent, clients, users, net, callId, group, t).0, |sent|, clients[u].ws)
    decreases |users|
  {
    if users != [] {
      var u := users[0];
      assert forall v :: v in users <==> v == u || v in users[1..];
      if u !in clients || !IsOpen(net, clients[u].ws) {
        DeliverOnlyTo(sent, clients, users[1..], net, callId, group, t);
        var r := Deliver(sent, clients, users, net, callId, group, t).0;
        assert r == Deliver(sent, clients, users[1..], net, callId, group, t).0;
        forall i | |sent| <= i < |r| ensures RegisteredAmong(users, clients, r[i].to) {
          assert RegisteredAmong(users[1..], clients, r[i].to);
          var v :| v in users[1..] && v in clients && clients[v].ws == r[i].to;
        }
        if Deliver(sent, clients, users, net, callId, group, t).1 {
          forall v | v in users && v in clients && IsOpen(net, clients[v].ws) ensures Reached(r, |sent|, clients[v].ws) {
            assert v in users[1..];
          }
        }
      } else if Delivers(net, clients[u].ws) {
        var o := Out(clients[u].ws, callId, group, t.text, t.final);
        DeliverOnlyTo(sent + [o], clients, users[1..], net, callId, group, t);
        var r := Deliver(sent, clients, users, net, callId, group, t).0;
        assert r == Deliver(sent + [o], clients, users[1..], net, callId, group, t).0;
        assert r[..|sent| + 1] == sent + [o];
        assert r[..|sent|] == (sent + [o])[..|sent|];
        forall i | |sent| <= i < |r| ensures RegisteredAmong(users, clients, r[i].to) {
          if i == |sent| {
            assert r[i] == (sent + [o])[i] == o;
          } else {
            assert RegisteredAmong(users[1..], clients, r[i].to);
            var v :| v in users[1..] && v in clients && clients[v].ws == r[i].to;
          }
        }
        if Deliver(sent, clients, users, net, callId, group, t).1 {
          forall v | v in users && v in clients && IsOpen(net, clients[v].ws) ensures Reached(r, |sent|, clients[v].ws) {
            if v == u {
              assert r[|sent|].to == clients[v].ws;
            } else {
              assert v in users[1..];
              assert Reached(r, |sent| + 1, clients[v].ws);
            }
          }
        }
      }
    }
  }

  /** The de-duplication of `transcribe_audio`: after a step that sent a
      partial transcript for a group, the same partial again is not resent
      for that group; after a final one, any non-empty transcript is. */
  lemma StepRemembers(s: Transcriber, callId: string, t: Task, net: Net, env: Engines)
    requires QueueOf(s, callId) != []
    ensures var item := QueueOf(s, callId)[0];
      var (_, t1) := Step(s, callId, t, net, env);
      var (e, tr) := Asr.ProcessAudio(s.asr, callId, item.data, Some(item.username), env.isSilent(item.data), env.recognize);
      && (!ShouldSend(tr, LastPartial(t.lastPartials, item.group)) ==> t1 == t)
      && (ShouldSend(tr, LastPartial(t.lastPartials, item.group)) && t1.running ==>
            && LastPartial(t1.lastPartials, item.group) == (if tr.final then "" else tr.text)
            && (!tr.final ==> !ShouldSend(tr, LastPartial(t1.lastPartials, item.group)))
            && (forall next: Asr.Transcript :: tr.final && next.text != "" ==>
                  ShouldSend(next, LastPartial(t1.lastPartials, item.group))))
  {
  }

  /** A step sends a transcript only when the de-duplication rule allows it,
      only to the call's registered sales participants and with the text and
      finality the recognizer produced; when it is allowed and every open
      socket among them delivers, each of them is reached. */
  lemma StepReachesSales(s: Transcriber, callId: string, t: Task, net: Net, env: Engines)
    requires QueueOf(s, callId) != []
    ensures var item := QueueOf(s, callId)[0];
      var r := Step(s, callId, t, net, env).0;
      var tr := Asr.ProcessAudio(s.asr, callId, item.data, Some(item.username), env.isSilent(item.data), env.recognize).1;
      !ShouldSend(tr, LastPartial(t.lastPartials, item.group)) ==> r.sent == s.sent
    ensures var r := Step(s, callId, t, net, env).0;
      |s.sent| <= |r.sent| && r.sent[..|s.sent|] == s.sent
    ensures var item := QueueOf(s, callId)[0];
      var job := Lookup(s.calls, callId).value;
      var r := Step(s, callId, t, net, env).0;
      var tr := Asr.ProcessAudio(s.asr, callId, item.data, Some(item.username), env.isSilent(item.data), env.recognize).1;
      forall i :: |s.sent| <= i < |r.sent| ==>
        && r.sent[i] == Out(r.sent[i].to, callId, item.group, tr.text, tr.final)
        && RegisteredAmong(SalesUsers(job), s.clients, r.sent[i].to)
    ensures var item := QueueOf(s, callId)[0];
      var job := Lookup(s.calls, callId).value;
      var r := Step(s, callId, t, net, env).0;
      var tr := Asr.ProcessAudio(s.asr, callId, item.data, Some(item.username), env.isSilent(item.data), env.recognize).1;
      && ShouldSend(tr, LastPartial(t.lastPartials, item.group))
      && (forall u :: u in SalesUsers(job) && u in s.clients && IsOpen(net, s.clients[u].ws) ==> Delivers(net, s.clients[u].ws))
      ==> forall u :: u in SalesUsers(job) && u in s.clients && IsOpen(net, s.clients[u].ws) ==>
            Reached(r.sent, |s.sent|, s.clients[u].ws)
  {
    var job := Lookup(s.calls, callId).value;
    var item := job.queue[0];
    var tr := Asr.ProcessAudio(s.asr, callId, item.data, Some(item.username), env.isSilent(item.data), env.recognize).1;
    assert QueueOf(s, callId) == job.queue;
    StepFields(s, callId, t, net, env);
    var r := Step(s, callId, t, net, env).0;
    if ShouldSend(tr, LastPartial(t.lastPartials, item.group)) {
      DeliverOnlyTo(s.sent, s.clients, SalesUsers(job), net, callId, item.group, tr);
      assert r.sent == Deliver(s.sent, s.clients, SalesUsers(job), net, callId, item.group, tr).0;
    }
  }

  /** The invariant is kept by the recognizer's three operations used here. */
  lemma StartSessionInv(s: Transcriber, id: string, job: Job, caller: string, cl: string, callee: string, ce: string)
    requires Inv(s)
    ensures Inv(s.(calls := Put(s.calls, id, job), asr := Asr.StartSession(s.asr, id, caller, cl, callee, ce)))
  {
    PutValid(s.calls, id, job);
    Asr.StartSessionSynced(s.asr, id, caller, cl, callee, ce);
    forall k ensures Has(Put(s.calls, id, job), k) == Has(s.calls, k) || k == id {
      if k != id {
        PutOther(s.calls, id, job, k);
      }
    }
  }

  lemma CallEndedInv(s: Transcriber, username: Option<string>, data: Json, flush: (Asr.Recognizer, Chunk) -> string)
    requires Inv(s)
    ensures Inv(CallEnded(s, username, data, flush).s)
  {
    var id := Get(data, "call_id");
    if id.Some? && Has(s.calls, id.value) {
      var et := Asr.EndSession(s.asr, id.value, flush);
      if et.1.Some? {
        var d := Del(s.calls, id.value);
        assert CallEnded(s, username, data, flush).s == s.(asr := et.0, calls := d);
        Asr.EndSessionSynced(s.asr, id.value, flush);
        Asr.EndSessionRemoves(s.asr, id.value, flush);
        DelValid(s.calls, id.value);
        forall k ensures Has(d, k) <==> k in et.0.sessions {
          if k != id.value {
            DelOther(s.calls, id.value, k);
          }
        }
      }
    }
  }

  lemma QueuePcmInv(s: Transcriber, username: Option<string>, pcm: Chunk)
    requires Inv(s)
    ensures Inv(QueuePcm(s, username, pcm).s)
  {
    if Truthy(username) {
      var id := FirstKey(s.calls, Participant(username.value));
      if Truthy(id) && username.value in s.clients {
        var j := Lookup(s.calls, id.value).value;
        var j1 := j.(queue := j.queue + [Pcm(s.clients[username.value].group, pcm, username.value)]);
        PutValid(s.calls, id.value, j1);
        forall k | k != id.value ensures Has(Put(s.calls, id.value, j1), k) == Has(s.calls, k) {
          PutOther(s.calls, id.value, j1, k);
        }
      }
    }
  }

  lemma HandleKeepsInv(s: Transcriber, ws: SocketId, username: Option<string>, m: Inbound,
                       flush: (Asr.Recognizer, Chunk) -> string)
    requires Inv(s)
    ensures Inv(Handle(s, ws, username, m, flush).s)
  {
    match m
    case Malformed =>
    case Closed =>
    case Binary(pcm) => QueuePcmInv(s, username, pcm);
    case Text(data) =>
      var event := Get(data, "event");
      if event == Some("call_accepted") {
        var h := CallAccepted(s, username, data);
        if h.alive {
          var caller, callee := data["from_user"], data["to_user"];
          var cl, ce := s.clients[caller].language, s.clients[callee].language;
          StartSessionInv(s, data["call_id"], Job(caller, callee, data["caller_group"], data["callee_group"], cl, ce, []),
                          caller, cl, callee, ce);
        }
      } else if event == Some("call_ended") {
        CallEndedInv(s, username, data, flush);
      }
  }

  lemma {:induction false} ServeKeepsInv(s: Transcriber, ws: SocketId, username: Option<string>, ms: seq<Inbound>,
                                         flush: (Asr.Recognizer, Chunk) -> string)
    requires Inv(s)
    ensures Inv(Serve(s, ws, username, ms, flush))
    decreases |ms|
  {
    if ms != [] {
      HandleKeepsInv(s, ws, username, ms[0], flush);
      var h := Handle(s, ws, username, ms[0], flush);
      if h.alive {
        ServeKeepsInv(h.s, ws, h.username, ms[1..], flush);
      }
    }
  }

  lemma StepKeepsInv(s: Transcriber, callId: string, t: Task, net: Net, env: Engines)
    requires Inv(s) && QueueOf(s, callId) != []
    ensures Inv(Step(s, callId, t, net, env).0)
  {
    var job := Lookup(s.calls, callId).value;
    var item := job.queue[0];
    var s1 := s.(calls := Put(s.calls, callId, job.(queue := job.queue[1..])));
    PutValid(s.calls, callId, job.(queue := job.queue[1..]));
    StepShortens(s, callId, t, net, env);
    assert forall id :: Has(s1.calls, id) == Has(s.calls, id);
    var (e, tr) := Asr.ProcessAudio(s1.asr, callId, item.data, Some(item.username), env.isSilent(item.data), env.recognize);
    Asr.ProcessAudioSynced(s1.asr, callId, item.data, Some(item.username), env.isSilent(item.data), env.recognize);
    Asr.ProcessAudioKeepsSessions(s1.asr, callId, item.data, Some(item.username), env.isSilent(item.data), env.recognize);
    assert Inv(s1.(asr := e));
    StepFields(s, callId, t, net, env);
  }

  /** What a step does to the tables: the queue head is removed and the
      recognizer advanced by one chunk; only the outbox changes besides. */
  lemma StepFields(s: Transcriber, callId: string, t: Task, net: Net, env: Engines)
    requires QueueOf(s, callId) != []
    ensures var job := Lookup(s.calls, callId).value;
      var item := job.queue[0];
      var r := Step(s, callId, t, net, env).0;
      && r.calls == Put(s.calls, callId, job.(queue := job.queue[1..]))
      && r.asr == Asr.ProcessAudio(s.asr, callId, item.data, Some(item.username), env.isSilent(item.data), env.recognize).0
      && r.clients == s.clients
      && var tr := Asr.ProcessAudio(s.asr, callId, item.data, Some(item.username), env.isSilent(item.data), env.recognize).1;
      r.sent == if ShouldSend(tr, LastPartial(t.lastPartials, item.group))
                then Deliver(s.sent, s.clients, SalesUsers(job), net, callId, item.group, tr).0
                else s.sent
  {
    var job := Lookup(s.calls, callId).value;
    var item := job.queue[0];
    var s1 := s.(calls := Put(s.calls, callId, job.(queue := job.queue[1..])));
    var pa := Asr.ProcessAudio(s1.asr, callId, item.data, Some(item.username), env.isSilent(item.data), env.recognize);
    var s2 := s1.(asr := pa.0);
    var r := Step(s, callId, t, net, env).0;
    if ShouldSend(pa.1, LastPartial(t.lastPartials, item.group)) {
      assert r == s2.(sent := Deliver(s2.sent, s2.clients, SalesUsers(job), net, callId, item.group, pa.1).0);
    } else {
      assert r == s2;
    }
  }

  lemma {:induction false} RunKeepsInv(s: Transcriber, callId: string, t: Task, net: Net, env: Engines)
    requires Inv(s)
    ensures Inv(Run(s, callId, t, net, env).0)
    decreases |QueueOf(s, callId)|
  {
    if t.running && QueueOf(s, callId) != [] {
      StepKeepsInv(s, callId, t, net, env);
      StepShortens(s, callId, t, net, env);
      var (s1, t1) := Step(s, callId, t, net, env);
      RunKeepsInv(s1, callId, t1, net, env);
    }
  }
}

/** The server's globals `transcribe_clients`, `calls` and `asr`, updated in
    place by the connection handler and the transcription task. */
module TranscribeServer {
  import opened Common
  import opened Dict
  import Asr
  import VoskAsr
  import opened Transcription

  class State {
    var clients: map<string, Client>
    var calls: Dict<string, Job>
    const asr: VoskAsr.VoskASR
    var sent: seq<Out>

    function Snapshot(): Transcriber
      reads this, asr
    {
      Transcriber(clients, calls, asr.Snapshot(), sent)
    }

    constructor ()
      ensures Snapshot() == Initial
    {
      clients, calls, sent := map[], [], [];
      asr := new VoskAsr.VoskASR();
    }

    method Register(ws: SocketId, username: Option<string>, data: Json) returns (name: Option<string>, alive: bool)
      modifies this
      ensures Handled(Snapshot(), name, alive) == Transcription.Register(old(Snapshot()), ws, username, data)
    {
      if "group" !in data || "username" !in data {
        return username, false;  // KeyError
      }
      var group := data["group"];
      name := Some(data["username"]);
      var language := GetOr(data, "language", "en");
      clients := clients[name.value := Client(ws, language, group)];
      alive := true;
    }

    method CallAccepted(username: Option<string>, data: Json) returns (alive: bool)
      modifies this, asr
      ensures Handled(Snapshot(), username, alive) == Transcription.CallAccepted(old(Snapshot()), username, data)
    {
      if || "call_id" !in data || "from_user" !in data || data["from_user"] !in clients
         || "to_user" !in data || data["to_user"] !in clients
         || "caller_group" !in data || "callee_group" !in data {
        return false;  // KeyError
      }
      var callId := data["call_id"];
      var callerLanguage := clients[data["from_user"]].language;
      var calleeLanguage := clients[data["to_user"]].language;
      calls := Put(calls, callId, Job(data["from_user"], data["to_user"], data["caller_group"], data["callee_group"],
                                      callerLanguage, calleeLanguage, []));
      asr.StartSession(callId, data["from_user"], callerLanguage, data["to_user"], calleeLanguage);
      alive := true;
    }

    method CallEnded(username: Option<string>, data: Json, flush: (Asr.Recognizer, Chunk) -> string) returns (alive: bool)
      modifies this, asr
      ensures Handled(Snapshot(), username, alive) == Transcription.CallEnded(old(Snapshot()), username, data, flush)
    {
      var callId := Get(data, "call_id");
      if callId.Some? && Has(calls, callId.value) {
        var t := asr.EndSession(callId.value, flush);
        if t.None? {
          return false;  // raised by end_session
        }
        calls := Del(calls, callId.value);
      }
      alive := true;
    }

    method QueuePcm(username: Option<string>, pcm: Chunk) returns (alive: bool)
      modifies this
      ensures Handled(Snapshot(), username, alive) == Transcription.QueuePcm(old(Snapshot()), username, pcm)
    {
      alive := true;
      if Truthy(username) {
        var callId := FirstKey(calls, Participant(username.value));
        if Truthy(callId) {
          if username.value !in clients {
            return false;  // KeyError
          }
          var group := clients[username.value].group;
          var job := Lookup(calls, callId.value).value;
          calls := Put(calls, callId.value, job.(queue := job.queue + [Pcm(group, pcm, username.value)]));
        }
      }
    }

    method Handle(ws: SocketId, username: Option<string>, m: Inbound, flush: (Asr.Recognizer, Chunk) -> string)
      returns (name: Option<string>, alive: bool)
      modifies this, asr
      ensures Handled(Snapshot(), name, alive) == Transcription.Handle(old(Snapshot()), ws, username, m, flush)
    {
      name := username;
      match m {
        case Malformed => alive := false;
        case Closed => alive := false;
        case Binary(pcm) => alive := QueuePcm(username, pcm);
        case Text(data) =>
          var event := Get(data, "event");
          if event == Some("register") {
            name, alive := Register(ws, username, data);
          } else if event == Some("call_accepted") {
            alive := CallAccepted(username, data);
          } else if event == Some("call_ended") {
            alive := CallEnded(username, data, flush);
          } else {
            alive := true;
          }
      }
    }

    /** `transcribe`: the connection loop, then its `finally` clause. */
    method Transcribe(ws: SocketId, ms: seq<Inbound>, flush: (Asr.Recognizer, Chunk) -> string)
      modifies this, asr
      ensures Snapshot() == Serve(old(Snapshot()), ws, None, ms, flush)
    {
      var username: Option<string> := None;
      var i := 0;
      var alive := true;
      while i < |ms| && alive
        invariant 0 <= i <= |ms|
        invariant alive ==> Serve(Snapshot(), ws, username, ms[i..], flush) == Serve(old(Snapshot()), ws, None, ms, flush)
        invariant !alive ==> Finally(Snapshot(), username) == Serve(old(Snapshot()), ws, None, ms, flush)
      {
        assert ms[i..][0] == ms[i] && ms[i..][1..] == ms[i + 1..];
        username, alive := Handle(ws, username, ms[i], flush);
        i := i + 1;
      }
      if !alive && Truthy(username) && username.value in clients {
        clients := clients - {username.value};
      }
    }

    /** The send loop of `transcribe_audio` over the sales participants. */
    method Deliver(users: seq<string>, net: Net, callId: string, group: string, t: Asr.Transcript) returns (ok: bool)
      modifies this
      ensures (sent, ok) == Transcription.Deliver(old(sent), clients, users, net, callId, group, t)
      ensures clients == old(clients) && calls == old(calls)
    {
      var i := 0;
      while i < |users|
        invariant 0 <= i <= |users|
        invariant clients == old(clients) && calls == old(calls)
        invariant Transcription.Deliver(sent, clients, users[i..], net, callId, group, t)
               == Transcription.Deliver(old(sent), clients, users, net, callId, group, t)
      {
        assert users[i..][0] == users[i] && users[i..][1..] == users[i + 1..];
        var client := if users[i] in clients then Some(clients[users[i]]) else None;
        if client.Some? && IsOpen(net, client.value.ws) {
          if !Delivers(net, client.value.ws) {
            return false;  // the send raised
          }
          sent := sent + [Out(client.value.ws, callId, group, t.text, t.final)];
        }
        i := i + 1;
      }
      ok := true;
    }

    /** `transcribe_audio` for one call, up to the point where it waits for
      more audio, or until it ends. */
    method TranscribeAudio(callId: string, task: Task, net: Net, env: Engines) returns (t: Task)
      modifies this, asr
      ensures (Snapshot(), t) == Run(old(Snapshot()), callId, task, net, env)
    {
      t := task;
      while t.running && Lookup(calls, callId).Some? && Lookup(calls, callId).value.queue != []
        invariant Run(Snapshot(), callId, t, net, env) == Run(old(Snapshot()), callId, task, net, env)
        decreases |QueueOf(Snapshot(), callId)|
      {
        ghost var before, t0 := Snapshot(), t;
        StepShortens(before, callId, t, net, env);
        var job := Lookup(calls, callId).value;
        var item := job.queue[0];
        calls := Put(calls, callId, job.(queue := job.queue[1..]));
        var transcript := asr.ProcessAudio(callId, item.data, Some(item.username), env.isSilent(item.data), env.recognize);
        if ShouldSend(transcript, LastPartial(t.lastPartials, item.group)) {
          var ok := Deliver(SalesUsers(job), net, callId, item.group, transcript);
          if ok {
            t := t.(lastPartials := t.lastPartials[item.group := if transcript.final then "" else transcript.text]);
          } else {
            t := t.(running := false);
          }
        }
        assert (Snapshot(), t) == Step(before, callId, t0, net, env);
      }
    }
  }
}
