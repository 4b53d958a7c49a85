/** What the two browser clients (`static/audio.js` and its older variant
    `audio.js`) put on the wire, and how they name a new call. */
module ClientWire {
  import opened Common

  /** `currentCall.peer`: `{group, user}` after dialing, `{user}` after an
      incoming offer or an acceptance (the group is then undefined). */
  datatype Peer = Peer(group: Option<string>, user: Option<string>)

  /** JSON messages a client sends (`event` names them; the fields follow the
      JSON keys, `target` is `to_user` of `call_user` and `acceptId` is `call_id`
      of `accept_call`). Optional fields are the ones the client reads from state
      that may be null or undefined at that moment. */
  datatype Msg =
    | Register(group: string, username: string, language: Option<string>)
    | CallUser(fromGroup: Option<string>, fromUser: Option<string>, target: string, callId: string)
    | AcceptCall(acceptId: Option<string>, fromGroup: Option<string>, fromUser: Option<string>, toUser: Option<string>)
    | CallRejected(fromGroup: Option<string>, fromUser: Option<string>, toUser: Option<string>)
    | HangUp(callId: string)
    | CallEnded(callId: string)
    | Logout(user: Option<string>)

  /** A WebSocket frame: a JSON text message or a binary payload. */
  datatype Frame = Text(msg: Msg) | Binary(data: Chunk)

  /** The payloads of the binary frames among `fs`, in order. */
  function Payloads(fs: seq<Frame>): seq<Chunk>
    decreases |fs|
  {
    if fs == [] then [] else Payloads(fs[..|fs| - 1]) + (if fs[|fs| - 1].Binary? then [fs[|fs| - 1].data] else [])
  }

  /** Sending a text frame sends no audio. */
  lemma PayloadsText(fs: seq<Frame>, m: Msg)
    ensures Payloads(fs + [Text(m)]) == Payloads(fs)
  {
    assert (fs + [Text(m)])[..|fs|] == fs;
  }

  /** The binary frames carrying the segments `ds`, in order. */
  function AudioFrames(ds: seq<Chunk>): (r: seq<Frame>)
    ensures |r| == |ds| && forall i :: 0 <= i < |ds| ==> r[i] == Binary(ds[i])
    decreases |ds|
  {
    if ds == [] then [] else [Binary(ds[0])] + AudioFrames(ds[1..])
  }

  /** The non-empty segments of `ds`, in order. */
  function NonEmpty(ds: seq<Chunk>): (r: seq<Chunk>)
    ensures forall i :: 0 <= i < |r| ==> |r[i]| > 0
    decreases |ds|
  {
    if ds == [] then [] else (if |ds[0]| > 0 then [ds[0]] else []) + NonEmpty(ds[1..])
  }

  /** A client's WebSocket to one of the servers: whether it is open, and
      whether it is the socket created at start-up, the only one that has
      `onopen`, `onmessage` and `onclose` handlers. On close the client creates
      a replacement socket but attaches no handlers to it (the awaited `onopen`
      is replaced by the promise's resolver). */
  datatype Channel = Channel(open: bool, handlers: bool)

  /** What a channel is after any `onclose`: the start-up socket's handler puts
      a connecting, handler-less replacement in its place; a replacement has no
      handler and simply stays closed. */
  const Replacement := Channel(false, false)

  /** `a || b` on strings. */
  function Pick(a: Option<string>, b: Option<string>): (r: Option<string>)
    ensures Truthy(a) ==> r == a
    ensures !Truthy(a) ==> r == b
  {
    if Truthy(a) then a else b
  }

  /** How a template literal renders a possibly-null username. */
  function UserText(u: Option<string>): string {
    match u
    case None => "null"
    case Some(s) => s
  }

  /** `call_${time}_${username}` */
  function CallIdText(time: nat, user: string): string {
    "call_" + NatToString(time) + "_" + user
  }

  function CallIdFor(now: nat, username: Option<string>): string {
    CallIdText(now, UserText(username))
  }

  /** In `call_<digits>_<user>` the first `_` after the prefix ends the digits. */
  lemma SeparatorAfterDigits(digits: string, user: string)
    requires forall i :: 0 <= i < |digits| ==> '0' <= digits[i] <= '9'
    ensures var s := "call_" + digits + "_" + user;
      s[5 + |digits|] == '_' && forall i :: 5 <= i < 5 + |digits| ==> s[i] != '_'
  {
    var s := "call_" + digits + "_" + user;
    forall i | 5 <= i < 5 + |digits| ensures s[i] != '_' {
      assert s[i] == digits[i - 5];
    }
  }

  /** Two call ids are equal only if they were made at the same millisecond by the
      same (rendered) username: the digits of the time cannot contain the `_`
      that separates them from the username. */
  lemma CallIdInjective(t1: nat, u1: string, t2: nat, u2: string)
    requires CallIdText(t1, u1) == CallIdText(t2, u2)
    ensures t1 == t2 && u1 == u2
  {
    var a, b := NatToString(t1), NatToString(t2);
    var s := CallIdText(t1, u1);
    assert s == "call_" + a + "_" + u1 == "call_" + b + "_" + u2;
    SeparatorAfterDigits(a, u1);
    SeparatorAfterDigits(b, u2);
    assert |a| == |b|;
    assert a == s[5..5 + |a|] == b;
    NatToStringInjective(t1, t2);
    assert u1 == s[6 + |a|..] == u2;
  }
}
