/** Bounded capture of one output stream: a prefix, a tail, a count and one
    signal, whatever chunks the stream arrives in. */
module Capture {
  import opened Contracts

  type Bytes = seq<Byte>

  /** All three positive, tail <= retained <= observed. */
  datatype RawLimits = RawLimits(maximumRetained: nat, maximumObserved: nat, tailBytes: nat)
  type Limits = l: RawLimits | 0 < l.tailBytes <= l.maximumRetained <= l.maximumObserved
    witness RawLimits(1, 1, 1)

  function Min(a: nat, b: nat): nat { if a <= b then a else b }

  function Prefix(s: Bytes, n: nat): Bytes { s[..Min(|s|, n)] }

  function Suffix(s: Bytes, n: nat): Bytes { s[|s| - Min(|s|, n)..] }

  /** Everything a capture reports about a stream. */
  datatype Snapshot = Snapshot(
    observedBytes: nat, retainedBytes: nat, retained: Option<Bytes>, tail: Bytes, truncated: bool, exceeded: bool)

  function SnapshotOf(l: Limits, keep: bool, s: Bytes): Snapshot {
    Snapshot(|s|, Min(|s|, l.maximumRetained), if keep then Some(Prefix(s, l.maximumRetained)) else None,
             Suffix(s, l.tailBytes), |s| > l.maximumRetained, |s| > l.maximumObserved)
  }

  lemma SuffixOfSuffix(s: Bytes, chunk: Bytes, n: nat)
    ensures Suffix(Suffix(s, n) + chunk, n) == Suffix(s + chunk, n)
    ensures |chunk| >= n ==> Suffix(chunk, n) == Suffix(s + chunk, n)
    ensures n == 0 ==> Suffix(s, n) == []
  {
  }

  lemma PrefixGrows(s: Bytes, chunk: Bytes, n: nat)
    ensures Prefix(s, n) + chunk[..Min(|chunk|, n - Min(|s|, n))] == Prefix(s + chunk, n)
    ensures Min(|s + chunk|, n) == Min(|s|, n) + Min(|chunk|, n - Min(|s|, n))
  {
  }

  datatype Outcome = Outcome(observedAdded: nat, retainedAdded: nat, truncated: bool, crossed: bool, stopping: bool)

  class Accumulator {
    const limits: Limits
    const keep: bool
    var observedBytes: nat
    var retainedBytes: nat
    var retained: Bytes
    var tail: Bytes
    var exceeded: bool
    ghost var stream: Bytes

    ghost predicate Valid()
      reads this
    {
      && Now() == SnapshotOf(limits, keep, stream)
      && (!keep ==> retained == [])
    }

    function Now(): Snapshot
      reads this
    {
      Snapshot(observedBytes, retainedBytes, if keep then Some(retained) else None, tail,
               observedBytes > retainedBytes, exceeded)
    }

    constructor (l: Limits, retainContent: bool)
      ensures Valid() && stream == [] && limits == l && keep == retainContent
    {
      limits, keep := l, retainContent;
      observedBytes, retainedBytes, retained, tail, exceeded := 0, 0, [], [], false;
      stream := [];
    }

    /** Keeps what fits of the chunk. */
    method KeepPrefix(chunk: Bytes) returns (added: nat)
      requires Valid()
      modifies this`retained, this`retainedBytes
      ensures added == Min(|chunk|, limits.maximumRetained - Min(|stream|, limits.maximumRetained))
      ensures retainedBytes == Min(|stream + chunk|, limits.maximumRetained)
      ensures retained == if keep then Prefix(stream + chunk, limits.maximumRetained) else []
    {
      PrefixGrows(stream, chunk, limits.maximumRetained);
      var room := limits.maximumRetained - retainedBytes;
      added := 0;
      if room > 0 {
        added := Min(room, |chunk|);
        if keep {
          retained := retained + chunk[..added];
        }
        retainedBytes := retainedBytes + added;
      }
    }

    /** Refills the tail in place. */
    method KeepTail(chunk: Bytes)
      requires tail == Suffix(stream, limits.tailBytes)
      modifies this`tail
      ensures tail == Suffix(stream + chunk, limits.tailBytes)
    {
      SuffixOfSuffix(stream, chunk, limits.tailBytes);
      if |chunk| >= limits.tailBytes {
        tail := chunk[|chunk| - limits.tailBytes..];
      } else {
        tail := tail + chunk;
        var overflow := |tail| - limits.tailBytes;
        if overflow > 0 {
          tail := tail[overflow..];
        }
      }
    }

    /** Room left, tail refilled, and the one crossing signal. */
    method Append(chunk: Bytes) returns (o: Outcome)
      requires Valid()
      modifies this
      ensures Valid() && stream == old(stream) + chunk
      ensures o.observedAdded == |chunk| && o.retainedAdded <= |chunk|
      ensures Prefix(old(stream), limits.maximumRetained) + chunk[..o.retainedAdded]
              == Prefix(stream, limits.maximumRetained)
      ensures o.truncated <==> |stream| > limits.maximumRetained
      ensures o.crossed <==> |old(stream)| <= limits.maximumObserved < |stream|
      ensures o.stopping <==> |stream| > limits.maximumObserved
    {
      PrefixGrows(stream, chunk, limits.maximumRetained);
      var added := KeepPrefix(chunk);
      KeepTail(chunk);
      observedBytes := observedBytes + |chunk|;
      var was := exceeded;
      if observedBytes > limits.maximumObserved {
        exceeded := true;
      }
      stream := stream + chunk;
      o := Outcome(|chunk|, added, observedBytes > retainedBytes, exceeded && !was, exceeded);
    }
  }

  // ---------------------------------------------------------------- a whole stream

  function Concat(chunks: seq<Bytes>): Bytes {
    if chunks == [] then [] else Concat(chunks[..|chunks| - 1]) + chunks[|chunks| - 1]
  }

  /** The chunk with which a stream first exceeds the observed cap. */
  ghost predicate Crosses(l: Limits, chunks: seq<Bytes>, k: nat) {
    k < |chunks| && |Concat(chunks[..k])| <= l.maximumObserved < |Concat(chunks[..k + 1])|
  }

  lemma {:induction false} ConcatGrows(chunks: seq<Bytes>, i: nat, j: nat)
    requires i <= j <= |chunks|
    ensures |Concat(chunks[..i])| <= |Concat(chunks[..j])|
    decreases j
  {
    if i < j {
      ConcatGrows(chunks, i, j - 1);
      assert chunks[..j][..j - 1] == chunks[..j - 1];
    }
  }

  lemma {:induction false} FindCrossing(l: Limits, chunks: seq<Bytes>, n: nat) returns (k: nat)
    requires n <= |chunks| && |Concat(chunks[..n])| > l.maximumObserved
    ensures Crosses(l, chunks, k)
    decreases n
  {
    if n > 0 && |Concat(chunks[..n - 1])| > l.maximumObserved {
      k := FindCrossing(l, chunks, n - 1);
    } else {
      k := n - 1;
    }
  }

  /** Exactly one chunk crosses the cap if the stream exceeds it, else none. */
  lemma OneCrossing(l: Limits, chunks: seq<Bytes>)
    ensures (exists k: nat :: Crosses(l, chunks, k)) <==> |Concat(chunks)| > l.maximumObserved
    ensures forall j: nat, k: nat :: Crosses(l, chunks, j) && Crosses(l, chunks, k) ==> j == k
  {
    assert chunks[..|chunks|] == chunks;
    if |Concat(chunks)| > l.maximumObserved {
      var k := FindCrossing(l, chunks, |chunks|);
    }
    forall k: nat | Crosses(l, chunks, k) ensures |Concat(chunks)| > l.maximumObserved {
      ConcatGrows(chunks, k + 1, |chunks|);
    }
    forall j: nat, k: nat | Crosses(l, chunks, j) && Crosses(l, chunks, k) ensures j == k {
      if j < k {
        ConcatGrows(chunks, j + 1, k);
      } else if k < j {
        ConcatGrows(chunks, k + 1, j);
      }
    }
  }

  /** The evidence file of one stream; a failed write is remembered once. */
  class StreamCapture {
    const accumulator: Accumulator
    var file: Bytes
    var error: bool
    var capEvent: bool

    constructor (l: Limits)
      ensures fresh(accumulator) && accumulator.Valid() && accumulator.stream == []
      ensures accumulator.limits == l && !accumulator.keep && file == [] && !error && !capEvent
    {
      var a := new Accumulator(l, false);
      accumulator := a;
      file, error, capEvent := [], false, false;
      new;
      assert a.Valid() && accumulator == a;
    }

    /** One chunk; `written` says whether its file write succeeds. */
    method Take(chunk: Bytes, written: bool)
      requires accumulator.Valid()
      modifies this, accumulator
      ensures accumulator.Valid() && accumulator.stream == old(accumulator.stream) + chunk
      ensures !error ==> !old(error)
      ensures !error && old(file == Prefix(accumulator.stream, accumulator.limits.maximumRetained)) ==>
                file == Prefix(accumulator.stream, accumulator.limits.maximumRetained)
      ensures old(capEvent <==> |accumulator.stream| > accumulator.limits.maximumObserved) ==>
                (capEvent <==> |accumulator.stream| > accumulator.limits.maximumObserved)
    {
      var o := accumulator.Append(chunk);
      if o.retainedAdded > 0 {
        if written {
          file := file + chunk[..o.retainedAdded];
        } else {
          error := true;
        }
      }
      if o.crossed {
        capEvent := true;
      }
    }

    /** Drains a stream chunk by chunk; `writes` says which file writes succeed.
        The report depends only on the concatenation, and without a failed write
        the file is the retained prefix. */
    method Drain(chunks: seq<Bytes>, writes: seq<bool>)
      requires accumulator.Valid() && accumulator.stream == [] && file == [] && !error && !capEvent
      requires |writes| == |chunks|
      modifies this, accumulator
      ensures accumulator.Valid() && accumulator.Now() == SnapshotOf(accumulator.limits, accumulator.keep, Concat(chunks))
      ensures !error ==> file == Prefix(Concat(chunks), accumulator.limits.maximumRetained)
      ensures capEvent <==> |Concat(chunks)| > accumulator.limits.maximumObserved
    {
      for k := 0 to |chunks|
        invariant accumulator.Valid() && accumulator.stream == Concat(chunks[..k])
        invariant !error ==> file == Prefix(accumulator.stream, accumulator.limits.maximumRetained)
        invariant capEvent <==> |accumulator.stream| > accumulator.limits.maximumObserved
      {
        assert chunks[..k + 1][..k] == chunks[..k];
        Take(chunks[k], writes[k]);
      }
      assert chunks[..|chunks|] == chunks;
    }
  }

  // ---------------------------------------------------------------- the agent transport's own evidence

  /** A slice of the last `n` items, which for 0 is everything. */
  function LastSlice(s: Bytes, n: nat): Bytes {
    if n == 0 || n >= |s| then s else s[|s| - n..]
  }

  class BoundedEvidence {
    const maximumObserved: nat
    const maximumRetained: nat
    const tailBytes: nat
    var observedBytes: nat
    var retainedBytes: nat
    var file: Bytes
    var tail: Bytes
    var truncated: bool
    var capExceeded: bool
    var writeFailed: bool
    ghost var stream: Bytes

    ghost predicate Valid()
      reads this
    {
      && observedBytes == |stream|
      && tail == LastSlice(stream, tailBytes)
      && (capExceeded <==> |stream| > maximumObserved)
      && (!writeFailed ==>
            && file == Prefix(stream, maximumRetained) && retainedBytes == |file|
            && (truncated <==> |stream| > maximumRetained))
      && retainedBytes <= maximumRetained
    }

    constructor (observed: nat, retained: nat, tailCap: nat)
      ensures Valid() && stream == [] && maximumObserved == observed && maximumRetained == retained
      ensures tailBytes == Min(tailCap, retained) && !writeFailed
    {
      maximumObserved, maximumRetained, tailBytes := observed, retained, Min(tailCap, retained);
      observedBytes, retainedBytes, file, tail := 0, 0, [], [];
      truncated, capExceeded, writeFailed := false, false, false;
      stream := [];
    }

    method Append(raw: Bytes, ok: bool)
      requires Valid()
      modifies this
      ensures Valid() && stream == old(stream) + raw
      ensures writeFailed ==> old(writeFailed) || !ok
    {
      PrefixGrows(stream, raw, maximumRetained);
      observedBytes := observedBytes + |raw|;
      LastSliceStep(stream, raw, tailBytes);
      if raw != [] {
        tail := LastSlice(tail + raw, tailBytes);
      } else {
        assert stream + raw == stream;
      }
      var room := maximumRetained - retainedBytes;
      var kept := raw[..Min(|raw|, room)];
      if kept != [] {
        if ok {
          file := file + kept;
          retainedBytes := retainedBytes + |kept|;
        } else {
          writeFailed := true;
        }
      }
      if |kept| != |raw| {
        truncated := true;
      }
      stream := stream + raw;
      if observedBytes > maximumObserved {
        capExceeded := true;
      }
    }
  }

  lemma LastSliceStep(s: Bytes, raw: Bytes, n: nat)
    ensures LastSlice(LastSlice(s, n) + raw, n) == LastSlice(s + raw, n)
  {
  }

  /** The two captures agree on the tail exactly when the tail is bounded at all
      or there is nothing to bound. */
  lemma TailsAgreeIff(s: Bytes, n: nat)
    ensures LastSlice(s, n) == Suffix(s, n) <==> n > 0 || s == []
  {
  }

  /** The two captures on one stream: with the same caps, and while the
      transport's writes succeed, they hold the same bytes and the same flags,
      and the same tail exactly when it is bounded or there is none. */
  lemma CapturesAgree(a: Accumulator, b: BoundedEvidence)
    requires a.Valid() && b.Valid() && a.stream == b.stream && a.keep && !b.writeFailed
    requires b.maximumObserved == a.limits.maximumObserved && b.maximumRetained == a.limits.maximumRetained
    ensures a.retained == b.file && a.observedBytes == b.observedBytes && a.retainedBytes == b.retainedBytes
    ensures a.Now().truncated == b.truncated && a.exceeded == b.capExceeded
    ensures b.tailBytes == a.limits.tailBytes ==> a.tail == b.tail
    ensures b.tailBytes == 0 ==> (a.tail == b.tail <==> |a.stream| <= a.limits.tailBytes)
  {
    TailsAgreeIff(a.stream, b.tailBytes);
  }
}
