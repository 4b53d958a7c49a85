/** The browser's MediaSource / SourceBuffer pair into which the clients feed
    received audio. Only what the clients observe is modelled: whether the
    MediaSource is open, whether the SourceBuffer is busy with an append, and
    the segments it has accepted, in order. */
module MediaSink {
  import opened Common

  /** The observable state of a sink, as a value. */
  datatype Sink = Sink(open: bool, updating: bool, appended: seq<Chunk>)

  /** A freshly created MediaSource after `sourceopen`, with its new SourceBuffer. */
  const Fresh := Sink(true, false, [])

  class SourceBuffer {
    var open: bool
    var updating: bool
    var appended: seq<Chunk>

    function Value(): Sink
      reads this
    {
      Sink(open, updating, appended)
    }

    constructor ()
      ensures Value() == Fresh
    {
      open, updating, appended := true, false, [];
    }

    /** `appendBuffer(c)`. The Media Source Extensions standard makes a call while
        `updating` an error, so the precondition is what every caller must
        avoid: proving it at each call site is proving that at most one append
        is ever in flight. An append the decoder refuses (`fails`) raises and
        changes nothing; an accepted one starts an update. */
    method AppendBuffer(c: Chunk, fails: bool) returns (ok: bool)
      requires !updating
      modifies this
      ensures ok == !fails
      ensures ok ==> Value() == old(Value()).(updating := true, appended := old(appended) + [c])
      ensures !ok ==> Value() == old(Value())
    {
      ok := !fails;
      if ok {
        updating := true;
        appended := appended + [c];
      }
    }

    /** The `updateend` event: the append in flight has been absorbed. */
    method UpdateEnd()
      modifies this
      ensures Value() == old(Value()).(updating := false)
    {
      updating := false;
    }
  }
}
