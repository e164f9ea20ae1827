/**
 What the v5 pacing means for the records a stream is sent in: every one of them is as long
 as the limit at its own offset, the end of its write and the end of its virtual batch allow.
 */
module StreamPacing {
  import opened Bytes
  import opened LegacyCodec
  import opened LegacyWriter
  import opened PacingV5
  import opened WriterV5

  /** How long the record at an offset is, in a write that goes on to end. */
  function LenAt(padding: InitialPadding, at: nat, end: nat): (n: nat)
    requires at < end
    ensures 0 < n <= end - at && n <= LimitAt(padding, at)
  {
    Min(LimitAt(padding, at), Min(end - at, BATCH - at % BATCH))
  }

  /** The records of one write, from its offset to its end. */
  ghost predicate Paced(xs: seq<Piece>, padding: InitialPadding, at: nat, end: nat)
    decreases |xs|
  {
    if xs == [] then at == end
    else at < end && |xs[0].payload| == LenAt(padding, at, end) && Paced(xs[1..], padding, at + |xs[0].payload|, end)
  }

  lemma {:induction false} PacedAppend(a: seq<Piece>, b: seq<Piece>, padding: InitialPadding, at: nat, end: nat)
    requires PacedUntil(a, padding, at, end) && Paced(b, padding, at + |PiecesData(a)|, end)
    ensures Paced(a + b, padding, at, end)
    decreases |a|
  {
    hide LenAt;
    if a == [] {
      AppendNothing(b);
    } else {
      TailAppend(a, b);
      PacedAppend(a[1..], b, padding, at + |a[0].payload|, end);
    }
  }

  /** The first of those records, as far as xs goes. */
  ghost predicate PacedUntil(xs: seq<Piece>, padding: InitialPadding, at: nat, end: nat)
    decreases |xs|
  {
    xs == [] || (at < end && |xs[0].payload| == LenAt(padding, at, end)
      && PacedUntil(xs[1..], padding, at + |xs[0].payload|, end))
  }

  /** A batch cut at the limit of its first offset is paced all through. */
  lemma {:induction false} CutPaced(data: seq<byte>, limit: nat, pad: seq<byte>, padding: InitialPadding, at: nat,
      end: nat)
    requires limit == LimitAt(padding, at) > 0
    requires at + |data| <= end && |data| == Min(end - at, BATCH - at % BATCH)
    ensures PacedUntil(CutPieces(data, limit, pad), padding, at, end)
    decreases |data|
  {
    if data != [] {
      var n := Min(|data|, limit);
      var first, rest := Piece(data[..n], pad), CutPieces(data[n..], limit, []);
      SplitAppend([first], rest);
      if data[n..] == [] {
      } else {
        SameWindow(padding, at, at + n);
        AddInWindow(at, n);
        CutPaced(data[n..], limit, [], padding, at + n, end);
      }
    }
  }

  /** The clock readings a stream write takes are less than 31 seconds after its last frame. */
  ghost predicate LivelyWrite(p: Pace, data: seq<byte>, clock: nat -> Tick, i: nat)
    decreases |data|
  {
    data == [] || (Lively(p, clock(i))
      && LivelyWrite(AfterBatch(p, |data|, clock(i)), data[BatchLen(p, |data|, clock(i))..], clock, i + 1))
  }

  /** A lively stream write from any offset is sent in exactly those records. */
  lemma {:induction false} WritePaced(p: Pace, k: nat, data: seq<byte>, clock: nat -> Tick, i: nat, pad: seq<byte>)
    requires Sane(p) && Reached(p, k) && LivelyWrite(p, data, clock, i)
    ensures var plan := PlanStream(p, data, clock, i, pad);
            && Paced(plan.pieces, p.initialPaddingLen, k, k + |data|)
            && Reached(plan.after, k + |data|) && plan.after.initialPaddingLen == p.initialPaddingLen
    decreases |data|
  {
    hide LimitAt, BatchLen, BatchLimit, AfterBatch, Reached, Lively, Paced, PacedUntil, CutPieces, Sane;
    if data == [] {
      NothingPaced(p.initialPaddingLen, k);
    } else {
      var o := Offer(|data|, clock(i));
      PaceStaysSane(p, |data|, clock(i));
      BatchReaches(p, k, o);
      KeepsPadding(p, o);
      BatchIsWindow(p, k, o);
      var n := BatchLen(p, |data|, clock(i));
      var limit, q := BatchLimit(p, clock(i)), AfterBatch(p, |data|, clock(i));
      CutPaced(data[..n], limit, pad, p.initialPaddingLen, k, k + |data|);
      CutData(data[..n], limit, pad);
      WritePaced(q, k + n, data[n..], clock, i + 1, []);
      PacedAppend(CutPieces(data[..n], limit, pad), PlanStream(q, data[n..], clock, i + 1, []).pieces,
        p.initialPaddingLen, k, k + |data|);
    }
  }

  lemma NothingPaced(padding: InitialPadding, at: nat)
    ensures Paced([], padding, at, at)
  {
  }

  lemma {:induction false} CutData(data: seq<byte>, limit: nat, pad: seq<byte>)
    requires limit > 0
    ensures PiecesData(CutPieces(data, limit, pad)) == data
    decreases |data|
  {
    if data != [] {
      var n := Min(|data|, limit);
      CutData(data[n..], limit, []);
      SplitAppend([Piece(data[..n], pad)], CutPieces(data[n..], limit, []));
      assert data == data[..n] + data[n..];
    }
  }

  /** A batch takes what is left of the write or of its window, whichever is less. */
  lemma BatchIsWindow(p: Pace, k: nat, o: Offer)
    requires Reached(p, k) && o.dataLen > 0 && Lively(p, o.tick)
    ensures BatchLen(p, o.dataLen, o.tick) == Min(o.dataLen, BATCH - k % BATCH)
  {
  }

  // ------------------------------------------------------------ runs of writes

  ghost predicate LivelyRun(p: Pace, ops: seq<Op>)
    requires Sane(p)
    decreases |ops|
  {
    ops == [] || (ops[0].Data? && LivelyWrite(p, ops[0].data, ops[0].clock, 0)
      && LivelyRun(PlanOp(p, ops[0]).after, ops[1..]))
  }

  /** Every record is within the limit at its own offset. */
  ghost predicate WithinLimits(xs: seq<Piece>, padding: InitialPadding, at: nat)
    decreases |xs|
  {
    xs == [] || (|xs[0].payload| <= LimitAt(padding, at) && WithinLimits(xs[1..], padding, at + |xs[0].payload|))
  }

  lemma {:induction false} PacedIsWithin(xs: seq<Piece>, padding: InitialPadding, at: nat, end: nat)
    requires Paced(xs, padding, at, end)
    ensures WithinLimits(xs, padding, at) && at + |PiecesData(xs)| == end
    decreases |xs|
  {
    hide LimitAt;
    if xs != [] {
      PacedIsWithin(xs[1..], padding, at + |xs[0].payload|, end);
    }
  }

  lemma {:induction false} WithinAppend(a: seq<Piece>, b: seq<Piece>, padding: InitialPadding, at: nat)
    requires WithinLimits(a, padding, at) && WithinLimits(b, padding, at + |PiecesData(a)|)
    ensures WithinLimits(a + b, padding, at)
    decreases |a|
  {
    hide LimitAt;
    if a == [] {
      AppendNothing(b);
    } else {
      TailAppend(a, b);
      WithinAppend(a[1..], b, padding, at + |a[0].payload|);
    }
  }

  /** However a lively stream is cut into writes, every record the writer plans is
      within the limit at its own stream offset. */
  lemma {:induction false} PlannedWithinLimits(p: Pace, k: nat, ops: seq<Op>)
    requires Sane(p) && Reached(p, k) && LivelyRun(p, ops)
    ensures WithinLimits(PlanAll(p, ops), p.initialPaddingLen, k)
    decreases |ops|
  {
    hide Reached, WithinLimits, LivelyWrite, PlanStream, Paced, Sane;
    if ops == [] {
      NothingWithin(p.initialPaddingLen, k);
    } else {
      var o := ops[0];
      WritePaced(p, k, o.data, o.clock, 0, o.padding);
      var plan := PlanOp(p, o);
      PacedIsWithin(plan.pieces, p.initialPaddingLen, k, k + |o.data|);
      PlannedWithinLimits(plan.after, k + |o.data|, ops[1..]);
      WithinAppend(plan.pieces, PlanAll(plan.after, ops[1..]), p.initialPaddingLen, k);
    }
  }

  lemma NothingWithin(padding: InitialPadding, at: nat)
    ensures WithinLimits([], padding, at)
  {
  }
}
