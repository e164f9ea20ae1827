/**
 How long the records of a v6 stream are (payloadLimitFor and Write in snellv6/shaped.go):
 while the stream is lively the chunk size grows by one step a record up to its maximum, and
 after idling it starts again.
 */
module ShapedPacing {
  import opened Arithmetic
  import opened Bytes
  import opened Profile
  import opened ShapedCodec
  import opened ShapedStream

  /** The clock has been running, and the last record was not too long ago. */
  predicate Lively(p: Shape, w: Pacing, now: int) {
    now > 0 && (w.lastWriteUnix != 0 ==> now - w.lastWriteUnix <= p.idleResetSec)
  }

  /** The chunk size of the n-th record of a lively stream. */
  function SizeAt(p: Shape, n: nat): nat { Min(p.chunkInitial + n * p.chunkStep, p.chunkMax) }

  /** The state of a stream that has been lively for n records. */
  predicate Grown(p: Shape, w: Pacing, n: nat) {
    if n == 0 then w.lastWriteUnix == 0 else w.lastWriteUnix > 0 && w.chunkSize == SizeAt(p, n)
  }

  /** One more record of a lively stream: the size in force, and the state behind it. */
  lemma GrowsOn(p: Shape, w: Pacing, n: nat, now: int)
    requires Grown(p, w, n) && Lively(p, w, now)
    ensures ChunkInForce(p, w, now) == SizeAt(p, n) && Grown(p, AfterLimit(p, w, now), n + 1)
  {
    TimesNext(n, p.chunkStep);
    assert n * p.chunkStep >= 0;
  }

  /** After idling the next record is like the first: the initial size is in force, and grows from there. */
  lemma StartsAgain(p: Shape, w: Pacing, now: int)
    requires w.lastWriteUnix != 0 && now - w.lastWriteUnix > p.idleResetSec && now > 0
    ensures ChunkInForce(p, w, now) == p.chunkInitial && Grown(p, AfterLimit(p, w, now), 1)
  {
    assert SizeAt(p, 1) == Min(p.chunkInitial + p.chunkStep, p.chunkMax);
  }

  /** The largest payload of a record with this number that is the n-th of a lively stretch. */
  function LimitAt(p: Shape, seqNo: uint32, n: nat): (limit: nat)
    ensures 0x40 <= limit <= p.chunkMax
  {
    var drawn := ChunkPayloadLimit(p, seqNo, SizeAt(p, n));
    if seqNo == 0 then Min(drawn, p.firstRecordCap) else drawn
  }

  lemma LimitIs(p: Shape, w: Pacing, n: nat, now: int)
    requires Grown(p, w, n) && Lively(p, w, now)
    ensures PayloadLimit(p, w, now) == LimitAt(p, w.s.seqNo, n)
  {
    hide ChunkPayloadLimit;
    GrowsOn(p, w, n, now);
  }

  /** The records of one write: all but the last as long as their limits, the last no longer. */
  ghost predicate Cut(p: Shape, payloads: seq<seq<byte>>, seqNo: uint32, n: nat)
    decreases |payloads|
  {
    payloads == []
    || (&& 0 < |payloads[0]| <= LimitAt(p, seqNo, n)
        && (|payloads| > 1 ==> |payloads[0]| == LimitAt(p, seqNo, n))
        && Cut(p, payloads[1..], NextSeq(seqNo), n + 1))
  }

  lemma {:induction false} SplitIsCut(p: Shape, w: Pacing, n: nat, now: int, data: seq<byte>)
    requires Grown(p, w, n) && Lively(p, w, now)
    ensures var done := Split(p, w, now, data);
            && Cut(p, done.payloads, w.s.seqNo, n) && Grown(p, done.after, n + |done.payloads|)
            && (done.payloads != [] ==> done.after.lastWriteUnix == now)
    decreases |data|
  {
    hide LimitAt, PayloadLimit, NextSeq;
    if data != [] {
      LimitIs(p, w, n, now);
      GrowsOn(p, w, n, now);
      var k := Min(|data|, PayloadLimit(p, w, now));
      var ready := AfterLimit(p, w, now);
      var next := ready.(s := Step(ready.s, data[..k]));
      StillLively(p, w, now, next);
      SplitIsCut(p, next, n + 1, now, data[k..]);
      var later := Split(p, next, now, data[k..]).payloads;
      TailAppend([data[..k]], later);
      if k < |data| {
        assert data[k..] != [];
      } else {
        assert later == [];
      }
    }
  }

  lemma StillLively(p: Shape, w: Pacing, now: int, next: Pacing)
    requires now > 0 && next.lastWriteUnix == now
    ensures Lively(p, next, now)
  {
  }

  // ------------------------------------------------------------ whole runs

  /** Every operation of the run finds the stream lively. */
  ghost predicate LivelyRun(p: Shape, w: Pacing, ops: seq<Op>)
    decreases |ops|
  {
    ops == []
    || (&& !ops[0].WritePacket? && Lively(p, w, ops[0].now)
        && LivelyRun(p, Perform(p, w, ops[0]).after, ops[1..]))
  }

  /** Every record is within the limit of its place in the stream. */
  ghost predicate Within(p: Shape, payloads: seq<seq<byte>>, seqNo: uint32, n: nat)
    decreases |payloads|
  {
    payloads == [] || (|payloads[0]| <= LimitAt(p, seqNo, n) && Within(p, payloads[1..], NextSeq(seqNo), n + 1))
  }

  lemma {:induction false} CutIsWithin(p: Shape, payloads: seq<seq<byte>>, seqNo: uint32, n: nat)
    requires Cut(p, payloads, seqNo, n)
    ensures Within(p, payloads, seqNo, n)
    decreases |payloads|
  {
    hide LimitAt, NextSeq;
    if payloads != [] {
      CutIsWithin(p, payloads[1..], NextSeq(seqNo), n + 1);
    }
  }

  lemma {:induction false} WithinAppend(p: Shape, a: seq<seq<byte>>, b: seq<seq<byte>>, s: Counters, n: nat)
    requires Within(p, a, s.seqNo, n) && Within(p, b, StepAll(s, a).seqNo, n + |a|)
    ensures Within(p, a + b, s.seqNo, n)
    decreases |a|
  {
    hide LimitAt, NextSeq;
    if a == [] {
      AppendNothing(b);
    } else {
      TailAppend(a, b);
      WithinAppend(p, a[1..], b, Step(s, a[0]), n + 1);
    }
  }

  lemma OpIsWithin(p: Shape, w: Pacing, n: nat, op: Op)
    requires Grown(p, w, n) && Lively(p, w, op.now) && !op.WritePacket?
    ensures var done := Perform(p, w, op);
            Within(p, done.payloads, w.s.seqNo, n) && Grown(p, done.after, n + |done.payloads|)
  {
    hide LimitAt, PayloadLimit, Split, Cut;
    match op
    case Write(data, now) =>
      SplitIsCut(p, w, n, now, data);
      CutIsWithin(p, Split(p, w, now, data).payloads, w.s.seqNo, n);
    case WriteBuffer(data, now) =>
      SplitIsCut(p, w, n, now, data);
      CutIsWithin(p, Split(p, w, now, data).payloads, w.s.seqNo, n);
    case ZeroChunk(now) =>
      GrowsOn(p, w, n, now);
  }

  /**
   However a lively stream is cut into writes and zero chunks, its n-th record is within the
   limit drawn for the size min(initial + n * step, maximum), the very first also within the cap.
   */
  lemma {:induction false} LivelyRunIsWithin(p: Shape, w: Pacing, n: nat, ops: seq<Op>)
    requires Grown(p, w, n) && LivelyRun(p, w, ops)
    ensures var done := PerformAll(p, w, ops);
            Within(p, done.payloads, w.s.seqNo, n) && Grown(p, done.after, n + |done.payloads|)
    decreases |ops|
  {
    hide LimitAt, Perform, Within, Grown, Lively;
    if ops == [] {
      NothingIsWithin(p, w.s.seqNo, n);
    } else {
      OpIsWithin(p, w, n, ops[0]);
      var first := Perform(p, w, ops[0]);
      PerformSays(p, w, ops[0]);
      LivelyRunIsWithin(p, first.after, n + |first.payloads|, ops[1..]);
      WithinAppend(p, first.payloads, PerformAll(p, first.after, ops[1..]).payloads, w.s, n);
    }
  }

  lemma NothingIsWithin(p: Shape, seqNo: uint32, n: nat)
    ensures Within(p, [], seqNo, n)
  {
  }

  lemma NewIsGrown(p: Shape)
    ensures Grown(p, NewStream(), 0)
  {
  }
}
