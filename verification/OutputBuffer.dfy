/** The buffer that collects a command's output up to a byte limit. */
module OutputBuffer {
  type Bytes = seq<bv8>

  class LimitedOutputBuffer {
    const maxBytes: int

    var buf: Bytes
    var truncated: bool

    /** All writes so far. */
    ghost var writes: seq<Bytes>

    ghost predicate Valid()
      reads this
    {
      buf == Kept(maxBytes, writes) && truncated == Truncated(maxBytes, writes)
    }

    constructor (maxBytes: int)
      ensures Valid() && writes == [] && this.maxBytes == maxBytes
    {
      this.maxBytes := maxBytes;
      buf, truncated, writes := [], false, [];
    }

    /** Keeps what still fits; always reports the whole length, so that the command never sees a short write. */
    method Write(p: Bytes) returns (n: nat)
      requires Valid()
      modifies this
      ensures Valid()
      ensures n == |p| && writes == old(writes) + [p]
    {
      WriteStep(maxBytes, writes, p);
      writes := writes + [p];
      n := |p|;
      if maxBytes <= 0 {
        return;
      }
      if |buf| >= maxBytes {
        truncated := true;
        return;
      }
      var remaining := maxBytes - |buf|;
      if |p| > remaining {
        buf := buf + p[..remaining];
        truncated := true;
        return;
      }
      buf := buf + p;
    }
  }

  // ---------------------------------------------------------------- what the writes amount to

  function Concat(writes: seq<Bytes>): Bytes {
    if writes == [] then [] else Concat(writes[..|writes| - 1]) + writes[|writes| - 1]
  }

  /** The first `limit` bytes of everything written; nothing when the limit is not positive. */
  function Kept(limit: int, writes: seq<Bytes>): Bytes {
    var all := Concat(writes);
    if limit <= 0 then [] else if |all| <= limit then all else all[..limit]
  }

  /** Some write came when the buffer was already full. */
  predicate WroteWhenFull(limit: int, writes: seq<Bytes>) {
    writes != [] && (WroteWhenFull(limit, writes[..|writes| - 1]) || |Concat(writes[..|writes| - 1])| >= limit)
  }

  /**
   * With a positive limit, the flag is set by exceeding the limit, or by any write, even an empty one, to a full
   * buffer.
   */
  predicate Truncated(limit: int, writes: seq<Bytes>) {
    limit > 0 && (|Concat(writes)| > limit || WroteWhenFull(limit, writes))
  }

  lemma WriteStep(limit: int, writes: seq<Bytes>, p: Bytes)
    ensures Concat(writes + [p]) == Concat(writes) + p
    ensures WroteWhenFull(limit, writes + [p]) <==> WroteWhenFull(limit, writes) || |Concat(writes)| >= limit
  {
    assert (writes + [p])[..|writes|] == writes;
  }

  /** With a positive limit, an unset flag means that nothing was lost: the buffer holds the complete output. */
  lemma UntruncatedIsComplete(limit: int, writes: seq<Bytes>)
    requires limit > 0 && !Truncated(limit, writes)
    ensures Kept(limit, writes) == Concat(writes)
  {
  }

  lemma {:induction false} FullStaysFull(limit: int, writes: seq<Bytes>, n: nat)
    requires n < |writes| && |Concat(writes[..n])| >= limit
    ensures WroteWhenFull(limit, writes)
    ensures |Concat(writes)| >= |Concat(writes[..n])|
  {
    var front := writes[..|writes| - 1];
    if n == |front| {
      assert writes[..n] == front;
    } else {
      assert front[..n] == writes[..n];
      FullStaysFull(limit, front, n);
    }
  }

  lemma {:induction false} FirstFull(limit: int, writes: seq<Bytes>) returns (n: nat)
    requires limit > 0 && WroteWhenFull(limit, writes)
    ensures n < |writes| && |Concat(writes[..n])| >= limit
  {
    var front := writes[..|writes| - 1];
    if |Concat(front)| >= limit {
      n := |front|;
    } else {
      n := FirstFull(limit, front);
      assert front[..n] == writes[..n];
    }
  }

  lemma {:induction false} EmptyTail(writes: seq<Bytes>, n: nat)
    requires n <= |writes| && |Concat(writes)| == |Concat(writes[..n])|
    ensures forall i :: n <= i < |writes| ==> writes[i] == []
  {
    if n == |writes| {
    } else {
      var front := writes[..|writes| - 1];
      assert front[..n] == writes[..n];
      Grows(front, n);
      EmptyTail(front, n);
    }
  }

  lemma {:induction false} Grows(writes: seq<Bytes>, n: nat)
    requires n <= |writes|
    ensures |Concat(writes)| >= |Concat(writes[..n])|
  {
    var front := writes[..|writes| - if |writes| > 0 then 1 else 0];
    if n == |writes| {
      assert writes[..n] == writes;
    } else {
      assert front[..n] == writes[..n];
      Grows(front, n);
    }
  }

  /**
   * When the flag is wrong about lost output: it is set although every byte was kept exactly when the output fills the
   * buffer to the last byte and an empty write follows.
   */
  lemma FalseAlarm(limit: int, writes: seq<Bytes>)
    requires limit > 0
    ensures Truncated(limit, writes) && Kept(limit, writes) == Concat(writes)
       <==> (&& |Concat(writes)| == limit
             && exists i :: 0 <= i < |writes| && writes[i] == [] && |Concat(writes[..i])| == limit)
  {
    if Truncated(limit, writes) && |Concat(writes)| <= limit {
      var n := FirstFull(limit, writes);
      Grows(writes, n);
      EmptyTail(writes, n);
      assert writes[n] == [];
    }
    if i :| 0 <= i < |writes| && writes[i] == [] && |Concat(writes[..i])| == limit {
      FullStaysFull(limit, writes, i);
    }
  }

  /** With no positive limit the buffer keeps nothing and never reports it. */
  lemma NoLimitKeepsNothing(limit: int, writes: seq<Bytes>)
    ensures limit <= 0 ==> Kept(limit, writes) == [] && !Truncated(limit, writes)
    ensures (Kept(limit, writes) != Concat(writes) && !Truncated(limit, writes)) <==> limit <= 0 && Concat(writes) != []
  {
  }
}
