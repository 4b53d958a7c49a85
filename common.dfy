/** Shared vocabulary of the model: optional values, bytes, Python truthiness,
    JSON objects as seen by the Python servers, sockets, decimal rendering of
    numbers, and a few sequence helpers used by the audio drain loops. */
module Common {

  datatype Option<T> = None | Some(value: T)

  newtype byte = x: int | 0 <= x < 256

  /** An opaque audio segment (WebM/Opus packet or raw PCM), as bytes. */
  type Chunk = seq<byte>

  /** A WebSocket connection, identified by a number. Whether it is open is
      part of the environment (see Net), not of the socket. */
  type SocketId = nat

  /** The state of the network at the moment an event is handled:
      `open` are the sockets whose state reads OPEN, `broken` are sockets whose
      `send` raises although the state may still read OPEN. */
  datatype Net = Net(open: set<SocketId>, broken: set<SocketId>)

  predicate IsOpen(net: Net, ws: SocketId) {
    ws in net.open
  }

  /** A send to `ws` completes without raising. */
  predicate Delivers(net: Net, ws: SocketId) {
    ws in net.open && ws !in net.broken
  }

  /** Python/JavaScript truthiness of an optional string: present and non-empty. */
  predicate Truthy(o: Option<string>) {
    o.Some? && o.value != ""
  }

  /** A decoded JSON object whose values are strings. A key that is absent
      reads as `None` through `data.get(key)` and raises through `data[key]`. */
  type Json = map<string, string>

  function Get(data: Json, key: string): (r: Option<string>)
    ensures r.Some? <==> key in data
    ensures r.Some? ==> r.value == data[key]
  {
    if key in data then Some(data[key]) else None
  }

  /** `data.get(key, default)` */
  function GetOr(data: Json, key: string, default: string): (r: string)
    ensures key in data ==> r == data[key]
    ensures key !in data ==> r == default
  {
    if key in data then data[key] else default
  }

  /** The other side of a call from `group`: `customers` for `sales` and `sales` for
      anything else, as both the clients and the servers compute it. */
  function Opposite(group: Option<string>): (r: string)
    ensures r == "customers" <==> group == Some("sales")
    ensures r == "sales" || r == "customers"
  {
    if group == Some("sales") then "customers" else "sales"
  }

  /** The text the mock transcription of the relay servers produces for a
      speaker's group. */
  function MockText(group: string): (r: string)
    ensures |r| == |group| + 34
    ensures r[..33] == "Hello from transcription server ("
    ensures r[33..|r| - 1] == group
    ensures r[|r| - 1] == ')'
  {
    "Hello from transcription server (" + group + ")"
  }

  // ---------------------------------------------------------------------
  // Decimal rendering of a non-negative integer (`${n}` in JavaScript).

  function DigitChar(d: nat): (c: char)
    requires d < 10
    ensures '0' <= c <= '9'
  {
    "0123456789"[d]
  }

  function NatToString(n: nat): (r: string)
    ensures |r| >= 1
    ensures forall i :: 0 <= i < |r| ==> '0' <= r[i] <= '9'
    ensures n >= 10 ==> |r| >= 2
  {
    if n < 10 then [DigitChar(n)] else NatToString(n / 10) + [DigitChar(n % 10)]
  }

  lemma DigitCharInjective(a: nat, b: nat)
    requires a < 10 && b < 10 && DigitChar(a) == DigitChar(b)
    ensures a == b
  {
  }

  /** Different numbers render differently. */
  lemma {:induction false} NatToStringInjective(a: nat, b: nat)
    requires NatToString(a) == NatToString(b)
    ensures a == b
  {
    var ra, rb := NatToString(a), NatToString(b);
    if a < 10 && b < 10 {
      DigitCharInjective(a, b);
    } else if a >= 10 && b >= 10 {
      assert ra == NatToString(a / 10) + [DigitChar(a % 10)];
      assert rb == NatToString(b / 10) + [DigitChar(b % 10)];
      assert ra[|ra| - 1] == DigitChar(a % 10) && rb[|rb| - 1] == DigitChar(b % 10);
      DigitCharInjective(a % 10, b % 10);
      assert NatToString(a / 10) == ra[..|ra| - 1] == rb[..|rb| - 1] == NatToString(b / 10);
      NatToStringInjective(a / 10, b / 10);
    }
  }

  // ---------------------------------------------------------------------
  // Sequence helpers.

  /** The i-th entry of a finite environment schedule; entries past its end read false. */
  function At(s: seq<bool>, i: nat): bool {
    i < |s| && s[i]
  }

  /** `xs` with the entries whose attempt failed (per `fails`, counted from `from`) removed. */
  function Keep<T>(xs: seq<T>, fails: seq<bool>, from: nat): (r: seq<T>)
    ensures |r| <= |xs|
    decreases |xs|
  {
    if xs == [] then []
    else (if At(fails, from) then [] else [xs[0]]) + Keep(xs[1..], fails, from + 1)
  }

  /** Concatenation is associative (stated once, so that long proofs can cite it). */
  lemma ConcatAssoc<T>(a: seq<T>, b: seq<T>, c: seq<T>)
    ensures (a + b) + c == a + (b + c)
  {
  }

  lemma {:induction false} KeepAppend<T>(xs: seq<T>, x: T, fails: seq<bool>, from: nat)
    ensures Keep(xs + [x], fails, from)
         == Keep(xs, fails, from) + (if At(fails, from + |xs|) then [] else [x])
    decreases |xs|
  {
    var tail := if At(fails, from + |xs|) then [] else [x];
    if xs == [] {
      assert xs + [x] == [x];
    } else {
      var head := if At(fails, from) then [] else [xs[0]];
      assert (xs + [x])[0] == xs[0];
      assert (xs + [x])[1..] == xs[1..] + [x];
      KeepAppend(xs[1..], x, fails, from + 1);
      assert Keep(xs + [x], fails, from) == head + Keep(xs[1..] + [x], fails, from + 1);
      ConcatAssoc(head, Keep(xs[1..], fails, from + 1), tail);
    }
  }

  /** The concatenation of a sequence of segments. */
  function Flatten<T>(xss: seq<seq<T>>): (r: seq<T>)
    decreases |xss|
  {
    if xss == [] then [] else xss[0] + Flatten(xss[1..])
  }

  lemma {:induction false} FlattenSnoc<T>(xss: seq<seq<T>>, xs: seq<T>)
    ensures Flatten(xss + [xs]) == Flatten(xss) + xs
    decreases |xss|
  {
    if xss == [] {
      assert [xs][1..] == [];
    } else {
      assert (xss + [xs])[1..] == xss[1..] + [xs];
      FlattenSnoc(xss[1..], xs);
    }
  }

  /** Total length of the segments of `xss` from index `from` on. */
  function TotalFrom<T>(xss: seq<seq<T>>, from: nat): nat
    decreases |xss| - from
  {
    if from >= |xss| then 0 else |xss[from]| + TotalFrom(xss, from + 1)
  }

  /** `xs` appears in `ys` in order, possibly with gaps. */
  predicate IsSubseq<T(==)>(xs: seq<T>, ys: seq<T>)
    decreases |ys|
  {
    if xs == [] then true
    else if ys == [] then false
    else if xs[0] == ys[0] then IsSubseq(xs[1..], ys[1..])
    else IsSubseq(xs, ys[1..])
  }

  lemma {:induction false} KeepIsSubseq<T>(xs: seq<T>, fails: seq<bool>, from: nat)
    ensures IsSubseq(Keep(xs, fails, from), xs)
    decreases |xs|
  {
    if xs != [] {
      KeepIsSubseq(xs[1..], fails, from + 1);
      var k := Keep(xs[1..], fails, from + 1);
      if !At(fails, from) {
        assert Keep(xs, fails, from) == [xs[0]] + k;
        assert ([xs[0]] + k)[1..] == k;
      } else {
        assert Keep(xs, fails, from) == k;
        SubseqDropHead(k, xs);
      }
    }
  }

  lemma {:induction false} SubseqDropHead<T>(xs: seq<T>, ys: seq<T>)
    requires ys != [] && IsSubseq(xs, ys[1..])
    ensures IsSubseq(xs, ys)
    decreases |ys|, 0
  {
    if xs != [] && xs[0] == ys[0] {
      // xs[0] matches ys[0]; the rest of xs still fits in ys[1..]
      SubseqTail(xs, ys[1..]);
    }
  }

  lemma {:induction false} SubseqTail<T>(xs: seq<T>, ys: seq<T>)
    requires xs != [] && IsSubseq(xs, ys)
    ensures IsSubseq(xs[1..], ys)
    decreases |ys|, 1
  {
    if ys != [] && xs[0] != ys[0] {
      SubseqTail(xs, ys[1..]);
      SubseqDropHead(xs[1..], ys);
    } else if ys != [] {
      SubseqDropHead(xs[1..], ys);
    }
  }

  /** A subsequence stays one when its host grows at the back. */
  lemma {:induction false} SubseqExtend<T>(xs: seq<T>, ys: seq<T>, x: T)
    requires IsSubseq(xs, ys)
    ensures IsSubseq(xs, ys + [x])
    decreases |ys|
  {
    if xs != [] {
      assert (ys + [x])[1..] == ys[1..] + [x];
      if xs[0] == ys[0] {
        SubseqExtend(xs[1..], ys[1..], x);
      } else {
        SubseqExtend(xs, ys[1..], x);
      }
    }
  }

  /** Both sequences growing by the same element keeps the relation. */
  lemma {:induction false} SubseqSnoc<T>(xs: seq<T>, ys: seq<T>, x: T)
    requires IsSubseq(xs, ys)
    ensures IsSubseq(xs + [x], ys + [x])
    decreases |ys|
  {
    if ys == [] {
      assert xs == [];
      assert ([x] + [])[1..] == [];
    } else if xs == [] {
      assert ys + [x] != [];
      if ys[0] == x {
        assert IsSubseq([x][1..], (ys + [x])[1..]);
      } else {
        assert (ys + [x])[1..] == ys[1..] + [x];
        SubseqSnoc(xs, ys[1..], x);
      }
    } else {
      assert (ys + [x])[1..] == ys[1..] + [x];
      assert (xs + [x])[1..] == xs[1..] + [x];
      if xs[0] == ys[0] {
        SubseqSnoc(xs[1..], ys[1..], x);
      } else {
        SubseqSnoc(xs, ys[1..], x);
      }
    }
  }

  /** Whether pass `i` of a polling loop saw the sink finish its update; past the
      end of the schedule it always does, so a loop over a finite schedule ends. */
  function Finished(ends: seq<bool>, i: nat): bool {
    i >= |ends| || ends[i]
  }

  /** The segments arriving during pass `i`; nothing past the end of the schedule. */
  function Arrival<T>(arrivals: seq<seq<T>>, i: nat): seq<T> {
    if i < |arrivals| then arrivals[i] else []
  }

  lemma TotalFromStep<T>(xss: seq<seq<T>>, i: nat)
    ensures TotalFrom(xss, i) == |Arrival(xss, i)| + TotalFrom(xss, i + 1)
  {
  }
}
