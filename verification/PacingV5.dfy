/**
 How long a v5 record may be (snellv5/record.go): the limit grows by one step for every
 virtual batch of 192 KiB of stream data, and falls back after 31 idle seconds. The clock
 is read anew at every call, and gives positive times.
 */
module PacingV5 {
  import opened Bytes
  import opened LegacyCodec

  const BATCH := 196608

  datatype Pace = Pace(
    initialPaddingLen: InitialPadding,
    lastFrameUnix: int,
    framePayloadLen: nat,
    streamPayloadLen: nat,
    streamPayloadLeft: nat
  )

  function NewPace(padding: InitialPadding): Pace { Pace(padding, 0, 0, 0, 0) }

  /** The limit a record written now would have. */
  function LimitNow(p: Pace, now: int): nat
  {
    if p.lastFrameUnix == 0 then FirstLimit(p.initialPaddingLen)
    else if now - p.lastFrameUnix < RESET_INTERVAL && p.framePayloadLen != 0 then p.framePayloadLen
    else STEP
  }

  /** nextPayloadLimit's effect, and WritePacketBuffer's but for the batch. */
  function AfterRecord(p: Pace, now: int): Pace
  {
    p.(lastFrameUnix := now, framePayloadLen := Min(LimitNow(p, now) + STEP, MAX_PAYLOAD_LEN))
  }

  /** The two clock readings of one batch: its own, and the one nextPayloadLimit takes if it is called. */
  datatype Tick = Tick(now: int, later: int)

  function NewBatch(p: Pace, now: int): bool
  {
    p.streamPayloadLeft == 0 || (p.lastFrameUnix != 0 && now - p.lastFrameUnix >= RESET_INTERVAL)
  }

  function BatchLimit(p: Pace, t: Tick): nat
  {
    if NewBatch(p, t.now) then LimitNow(p, t.later) else p.streamPayloadLen
  }

  function BatchLen(p: Pace, dataLen: nat, t: Tick): (n: nat)
    ensures n <= dataLen && (dataLen > 0 ==> n > 0)
  {
    Min(dataLen, if NewBatch(p, t.now) then BATCH else p.streamPayloadLeft)
  }

  function AfterBatch(p: Pace, dataLen: nat, t: Tick): Pace
  {
    var q := if NewBatch(p, t.now) then
      AfterRecord(p, t.later).(streamPayloadLen := LimitNow(p, t.later), streamPayloadLeft := BATCH)
             else p.(lastFrameUnix := t.now);
    q.(streamPayloadLeft := q.streamPayloadLeft - BatchLen(p, dataLen, t))
  }

  // ------------------------------------------------------------ the limits in range

  /** No limit ever leaves the range that the record format and the panics allow. */
  predicate Sane(p: Pace) {
    && (p.framePayloadLen == 0 || SaneLimit(p.framePayloadLen))
    && (p.streamPayloadLeft > 0 ==> SaneLimit(p.streamPayloadLen))
    && p.streamPayloadLeft <= BATCH
  }

  lemma PaceStaysSane(p: Pace, dataLen: nat, t: Tick)
    requires Sane(p)
    ensures SaneLimit(LimitNow(p, t.now)) && SaneLimit(BatchLimit(p, t))
    ensures Sane(AfterRecord(p, t.now)) && Sane(AfterBatch(p, dataLen, t))
  {
  }

  // ------------------------------------------------------------ independence of how a stream is cut

  /** The limit at stream offset k, for a stream never idle for long. */
  function LimitAt(padding: InitialPadding, k: nat): nat
  {
    Min(FirstLimit(padding) + k / BATCH * STEP, MAX_PAYLOAD_LEN)
  }

  /** One batch of a stream: how much there was to write, and when. */
  datatype Offer = Offer(dataLen: nat, tick: Tick)

  /** Every reading is positive and less than 31 seconds after the last frame. */
  predicate Lively(p: Pace, t: Tick) {
    0 < t.now && 0 < t.later && (p.lastFrameUnix != 0 ==>
      t.now - p.lastFrameUnix < RESET_INTERVAL && t.later - p.lastFrameUnix < RESET_INTERVAL)
  }

  ghost predicate AllLively(p: Pace, offers: seq<Offer>)
    decreases |offers|
  {
    offers == [] || (offers[0].dataLen > 0 && Lively(p, offers[0].tick)
      && AllLively(AfterBatch(p, offers[0].dataLen, offers[0].tick), offers[1..]))
  }

  datatype Span = Span(from: nat, to: nat, limit: nat)

  /** The stretches of the stream the batches covered, and the limit each was cut with. */
  function Spans(p: Pace, at: nat, offers: seq<Offer>): seq<Span>
    decreases |offers|
  {
    if offers == [] then []
    else
      var n := BatchLen(p, offers[0].dataLen, offers[0].tick);
      [Span(at, at + n, BatchLimit(p, offers[0].tick))]
        + Spans(AfterBatch(p, offers[0].dataLen, offers[0].tick), at + n, offers[1..])
  }

  /** A pace that has written the first k octets of a stream and never rested. */
  predicate Reached(p: Pace, k: nat) {
    if k == 0 then p == NewPace(p.initialPaddingLen)
    else
      && p.lastFrameUnix > 0
      && p.streamPayloadLeft == (if k % BATCH == 0 then 0 else BATCH - k % BATCH)
      && p.streamPayloadLen == LimitAt(p.initialPaddingLen, k - 1)
      && p.framePayloadLen == Min(LimitAt(p.initialPaddingLen, k - 1) + STEP, MAX_PAYLOAD_LEN)
  }

  lemma NextWindow(padding: InitialPadding, k: nat)
    requires k > 0 && k % BATCH == 0
    ensures Min(LimitAt(padding, k - 1) + STEP, MAX_PAYLOAD_LEN) == LimitAt(padding, k)
  {
    var m := k / BATCH;
    assert k == m * BATCH;
    assert (k - 1) / BATCH == m - 1;
  }

  lemma SameWindow(padding: InitialPadding, k: nat, j: nat)
    requires k <= j < k + BATCH - k % BATCH
    ensures LimitAt(padding, j) == LimitAt(padding, k)
  {
    assert k == k / BATCH * BATCH + k % BATCH;
    assert j / BATCH == k / BATCH;
  }

  lemma BatchReaches(p: Pace, k: nat, o: Offer)
    requires Reached(p, k) && o.dataLen > 0 && Lively(p, o.tick)
    ensures var n := BatchLen(p, o.dataLen, o.tick);
            && Reached(AfterBatch(p, o.dataLen, o.tick), k + n)
            && n <= BATCH - k % BATCH
            && BatchLimit(p, o.tick) == LimitAt(p.initialPaddingLen, k)
  {
    hide LimitAt;
    var n := BatchLen(p, o.dataLen, o.tick);
    if k == 0 {
      FreshLimit(p.initialPaddingLen);
    } else if k % BATCH == 0 {
      NextWindow(p.initialPaddingLen, k);
    } else {
      SameWindow(p.initialPaddingLen, k - 1, k);
    }
    SameWindow(p.initialPaddingLen, k, k + n - 1);
    AddInWindow(k, n);
  }

  lemma FreshLimit(padding: InitialPadding)
    ensures LimitAt(padding, 0) == FirstLimit(padding)
  {
  }

  lemma AddInWindow(k: nat, n: nat)
    requires 0 < n <= BATCH - k % BATCH
    ensures (k + n) % BATCH == if n == BATCH - k % BATCH then 0 else k % BATCH + n
  {
    var r := k % BATCH + n;
    assert k + n == k / BATCH * BATCH + r;
  }

  /**
   However a stream is cut into writes less than 31 seconds apart, every octet at offset j
   goes out in a record limited to LimitAt(j).
   */
  lemma {:induction false} LimitIgnoresPartition(p: Pace, k: nat, offers: seq<Offer>, i: nat, j: nat)
    requires Reached(p, k) && AllLively(p, offers)
    requires i < |Spans(p, k, offers)| && Spans(p, k, offers)[i].from <= j < Spans(p, k, offers)[i].to
    ensures Spans(p, k, offers)[i].limit == LimitAt(p.initialPaddingLen, j)
    decreases |offers|
  {
    hide LimitAt, BatchLimit, BatchLen, AfterBatch, Reached, Lively;
    var o := offers[0];
    var n := BatchLen(p, o.dataLen, o.tick);
    BatchReaches(p, k, o);
    KeepsPadding(p, o);
    if i == 0 {
      SameWindow(p.initialPaddingLen, k, j);
    } else {
      LimitIgnoresPartition(AfterBatch(p, o.dataLen, o.tick), k + n, offers[1..], i - 1, j);
    }
  }

  lemma KeepsPadding(p: Pace, o: Offer)
    ensures AfterBatch(p, o.dataLen, o.tick).initialPaddingLen == p.initialPaddingLen
  {
  }

  // ------------------------------------------------------------ after idling

  /** The limit k octets behind a restart. */
  function LimitBehind(k: nat): nat { Min(STEP + k / BATCH * STEP, MAX_PAYLOAD_LEN) }

  /** A pace that has written k octets since it last rested. */
  predicate ReachedBehind(p: Pace, k: nat) {
    && k > 0 && p.lastFrameUnix > 0
    && p.streamPayloadLeft == (if k % BATCH == 0 then 0 else BATCH - k % BATCH)
    && p.streamPayloadLen == LimitBehind(k - 1)
    && p.framePayloadLen == Min(LimitBehind(k - 1) + STEP, MAX_PAYLOAD_LEN)
  }

  predicate Rested(p: Pace, t: Tick) {
    p.lastFrameUnix != 0 && t.now - p.lastFrameUnix >= RESET_INTERVAL
    && t.later - p.lastFrameUnix >= RESET_INTERVAL && t.later > 0
  }

  /** After 31 idle seconds a batch begins anew, with the limit of one step, whatever was left of the last. */
  lemma RestartsAfterIdle(p: Pace, o: Offer)
    requires Rested(p, o.tick) && o.dataLen > 0
    ensures NewBatch(p, o.tick.now) && BatchLimit(p, o.tick) == STEP == LimitBehind(0)
    ensures ReachedBehind(AfterBatch(p, o.dataLen, o.tick), BatchLen(p, o.dataLen, o.tick))
  {
    var n := BatchLen(p, o.dataLen, o.tick);
    AddInWindow(0, n);
    assert (n - 1) / BATCH == 0;
  }

  lemma BehindNextWindow(k: nat)
    requires k > 0
    ensures if k % BATCH == 0 then Min(LimitBehind(k - 1) + STEP, MAX_PAYLOAD_LEN) == LimitBehind(k)
            else LimitBehind(k - 1) == LimitBehind(k)
  {
    var m := k / BATCH;
    assert k == m * BATCH + k % BATCH;
    if k % BATCH == 0 {
      assert (k - 1) / BATCH == m - 1;
    } else {
      assert (k - 1) / BATCH == m;
    }
  }

  lemma BehindSameWindow(k: nat, j: nat)
    requires k <= j < k + BATCH - k % BATCH
    ensures LimitBehind(j) == LimitBehind(k)
  {
    assert k == k / BATCH * BATCH + k % BATCH;
    assert j / BATCH == k / BATCH;
  }

  /** And from there it grows by a step for each batch again. */
  lemma GrowsAfterIdle(p: Pace, k: nat, o: Offer)
    requires ReachedBehind(p, k) && o.dataLen > 0 && Lively(p, o.tick)
    ensures var n := BatchLen(p, o.dataLen, o.tick);
            && ReachedBehind(AfterBatch(p, o.dataLen, o.tick), k + n)
            && n <= BATCH - k % BATCH && BatchLimit(p, o.tick) == LimitBehind(k)
  {
    hide LimitBehind;
    var n := BatchLen(p, o.dataLen, o.tick);
    BehindNextWindow(k);
    BehindSameWindow(k, k + n - 1);
    AddInWindow(k, n);
  }

  /** The ceiling is first reached at offset 11 * 196608, whatever the initial padding. */
  lemma CeilingAt(padding: InitialPadding, k: nat)
    ensures LimitAt(padding, k) == MAX_PAYLOAD_LEN <==> k >= 11 * BATCH
  {
    var m := k / BATCH;
    assert k == m * BATCH + k % BATCH;
    assert m >= 11 <==> k >= 11 * BATCH;
    if m >= 11 {
      assert m * STEP >= 11 * STEP;
    } else {
      assert m * STEP <= 10 * STEP;
    }
  }
}
