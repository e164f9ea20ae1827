/**
 What the draws of a v6 profile can come to (snellv6/profile.go). A length that is drawn from
 a range reaches all of the range, each policy shapes the chunk size in its own way, and
 padding follows the counts, the sizes and the write targets.
 */
module ProfileLaws {
  import opened Arithmetic
  import opened Bytes
  import opened Aead
  import opened Profile

  /** A keyed function whose every draw is the same. */
  function Always(v: uint32): Prf { Prf((a, b, c) => v, (a, b) => 0, a => 0, (a, b, c) => 0) }

  function Keyed(p: Shape, prf: Prf): Shape { p.(prf := prf) }

  lemma PickReaches(lo: int, hi: int, r: int)
    requires lo <= r <= hi && hi - lo < 0x1_0000_0000
    ensures Pick(r - lo, lo, hi) == r
  {
    SmallMod(r - lo, hi - lo + 1);
  }

  // ------------------------------------------------------------ the fields

  /** Fields that are drawn each on its own. */
  datatype Fields = Fields(
    padMin: int, padCount: int, padInterval: int, smallLimit: int, mixMode: int, mixRounds: int, mixStride: int,
    mixOffsetBase: int, mixBlock: int, chunkPolicy: int, chunkInitial: int, idleResetSec: int, writePolicy: int,
    writeFirst: int, writeJitter: int, writeJitterPct: int, mixStrideHandshake: int, mixRoundsHandshake: int
  )

  predicate Drawable(f: Fields) {
    && 0x18 <= f.padMin <= 0xa0 && 2 <= f.padCount <= 8 && 2 <= f.padInterval <= 0x0b && 0x60 <= f.smallLimit <= 0x300
    && 0 <= f.mixMode < 3 && 1 <= f.mixRounds <= 3 && 2 <= f.mixStride <= 13 && 0 <= f.mixOffsetBase <= 15
    && 8 <= f.mixBlock <= 0x40 && 0 <= f.chunkPolicy < 3 && 0x200 <= f.chunkInitial <= 0x05b4
    && 0x0c <= f.idleResetSec <= 0x5a && 0 <= f.writePolicy < 3 && 4 <= f.writeFirst <= 8
    && 8 <= f.writeJitter <= 0x60 && 8 <= f.writeJitterPct <= 0x30
    && 0x11 <= f.mixStrideHandshake <= 0xfb && 1 <= f.mixRoundsHandshake <= 4
  }

  /** What to draw for each purpose. */
  function DrawFor(f: Fields, purpose: nat, domain: nat): uint32
    requires Drawable(f)
  {
    if domain == MIX_HANDSHAKE_DOMAIN then
      if purpose == LABEL_MIX_STRIDE then f.mixStrideHandshake - 0x11
      else if purpose == LABEL_MIX_ROUNDS then f.mixRoundsHandshake - 1
      else 0
    else if domain == 0x504c then if purpose == LABEL_WRITE_POLICY then f.writeJitterPct - 8 else 0
    else if domain != 0 then 0
    else if purpose == LABEL_PAD_MIN then f.padMin - 0x18
    else if purpose == LABEL_PAD_COUNT then f.padCount - 2
    else if purpose == LABEL_PAD_INTERVAL then f.padInterval - 2
    else if purpose == LABEL_SMALL_LIMIT then f.smallLimit - 0x60
    else if purpose == LABEL_MIX_MODE then f.mixMode
    else if purpose == LABEL_MIX_ROUNDS then f.mixRounds - 1
    else if purpose == LABEL_MIX_STRIDE then f.mixStride - 2
    else if purpose == LABEL_MIX_OFFSET_BASE then f.mixOffsetBase
    else if purpose == LABEL_MIX_BLOCK then f.mixBlock - 8
    else if purpose == LABEL_CHUNK_POLICY then f.chunkPolicy
    else if purpose == LABEL_CHUNK_INITIAL then f.chunkInitial - 0x200
    else if purpose == LABEL_IDLE_RESET then f.idleResetSec - 0x0c
    else if purpose == LABEL_WRITE_POLICY then f.writePolicy
    else if purpose == LABEL_WRITE_FIRST then f.writeFirst - 4
    else if purpose == LABEL_WRITE_JITTER then f.writeJitter - 8
    else 0
  }

  function FieldsOf(p: Profile): Fields
  {
    Fields(p.padMin, p.padCount, p.padInterval, p.smallLimit, p.mixMode, p.mixRounds, p.mixStride, p.mixOffsetBase,
      p.mixBlock, p.chunkPolicy, p.chunkInitial, p.idleResetSec, p.writePolicy, p.writeFirst, p.writeJitter,
      p.writeJitterPct, p.mixStrideHandshake, p.mixRoundsHandshake)
  }

  /** Every combination of these fields within their ranges is the one of some profile: no draw decides two of them. */
  lemma FieldsAreIndependent(f: Fields) returns (prf: Prf)
    requires Drawable(f)
    ensures FieldsOf(NewProfile(prf)) == f
  {
    hide Pick, Draws;
    prf := Prf((a, b, c) => if Drawable(f) then DrawFor(f, a, c) else 0, (a, b) => 0, a => 0, (a, b, c) => 0);
    SmallMod(f.mixMode, 3);
    SmallMod(f.chunkPolicy, 3);
    SmallMod(f.writePolicy, 3);
    PickReaches(0x18, 0xa0, f.padMin);
    PickReaches(2, 8, f.padCount);
    PickReaches(2, 0x0b, f.padInterval);
    PickReaches(0x60, 0x300, f.smallLimit);
    PickReaches(1, 3, f.mixRounds);
    PickReaches(2, 13, f.mixStride);
    PickReaches(0, 15, f.mixOffsetBase);
    PickReaches(8, 0x40, f.mixBlock);
    PickReaches(0x200, 0x05b4, f.chunkInitial);
    PickReaches(0x0c, 0x5a, f.idleResetSec);
    PickReaches(4, 8, f.writeFirst);
    PickReaches(8, 0x60, f.writeJitter);
    PickReaches(8, 0x30, f.writeJitterPct);
    PickReaches(0x11, 0xfb, f.mixStrideHandshake);
    PickReaches(1, 4, f.mixRoundsHandshake);
  }

  /** Sizes that are drawn and then kept within each other. */
  datatype Sizes = Sizes(
    padMax: int, prefixMin: int, prefixMax: int, saltBlockLen: int, firstRecordCap: int, chunkMax: int,
    chunkStep: int, chunkJitter: int, chunkBuckets: seq<int>, writeBuckets: seq<int>, writeSeq: seq<int>
  )

  predicate EightWithin(s: seq<int>, lo: int, hi: int) { |s| == 8 && AllWithin(s, lo, hi) }

  /** What can go together, beside the smallest padMin and chunkInitial. */
  predicate Feasible(z: Sizes) {
    && 0x18 + 0xa0 <= z.padMax <= MAX_EXTRA_PADDING
    && 8 <= z.prefixMin <= 0x50 && z.prefixMin + 0x10 <= z.prefixMax <= 0x80 && 32 <= z.saltBlockLen <= 144
    && 0x100 <= z.firstRecordCap <= 0x200 && 0x2000 <= z.chunkMax <= 0x3fff && 0x400 <= z.chunkStep <= 0x0b68
    && 0x10 <= z.chunkJitter <= 0xb6 && EightWithin(z.chunkBuckets, 0x1000, z.chunkMax)
    && EightWithin(z.writeBuckets, 0x140, 0x05b4) && EightWithin(z.writeSeq, 0x168, 0x05b4)
  }

  function SizeDraw(z: Sizes, purpose: nat, domain: nat): uint32
    requires Feasible(z)
  {
    if purpose == LABEL_PAD_MAX && domain == 0 then z.padMax - 0x18 - 0xa0
    else if purpose == LABEL_PREFIX_MIN && domain == 0 then z.prefixMin - 8
    else if purpose == LABEL_PREFIX_MAX && domain == 0 then z.prefixMax - z.prefixMin - 0x10
    else if purpose == LABEL_PREFIX_MAX && domain == HANDSHAKE_DOMAIN then 0x60
    else if purpose == LABEL_RECORD_PREFIX && domain == HANDSHAKE_DOMAIN then z.saltBlockLen - SALT_LEN - 0x10
    else if purpose == LABEL_CHUNK_FIRST_CAP && domain == CHUNK_INITIAL_DOMAIN then z.firstRecordCap - 0x100
    else if purpose == LABEL_CHUNK_MAX && domain == 0 then z.chunkMax - 0x2000
    else if purpose == LABEL_CHUNK_STEP && domain == 0 then z.chunkStep - 0x400
    else if purpose == LABEL_CHUNK_JITTER && domain == 0 then z.chunkJitter - 0x10
    else if purpose == LABEL_CHUNK_BUCKET && domain < 8 then z.chunkBuckets[domain] - 0x1000
    else if purpose == LABEL_WRITE_BUCKET && domain < 8 then z.writeBuckets[domain] - 0x140
    else if purpose == LABEL_WRITE_SEQ && domain < 8 then z.writeSeq[domain] - 0x168
    else 0
  }

  function SizesOf(p: Profile): Sizes
  {
    Sizes(p.padMax, p.prefixMinRecord, p.prefixMaxRecord, p.saltBlockLen, p.firstRecordCap, p.chunkMax, p.chunkStep,
      p.chunkJitter, p.chunkBuckets, p.writeBuckets, p.writeSeq)
  }

  function SizeDrawing(z: Sizes): Prf
    requires Feasible(z)
  {
    Prf((a, b, c) => if Feasible(z) then SizeDraw(z, a, c) else 0, (a, b) => 0, a => 0, (a, b, c) => 0)
  }

  lemma DrawsReach(prf: Prf, purpose: nat, values: seq<int>, lo: int, hi: int)
    requires EightWithin(values, lo, hi) && 0 <= hi - lo < 0x1_0000_0000
    requires forall i :: 0 <= i < 8 ==> Static(prf, purpose, i) as int == values[i] - lo
    ensures Draws(prf, purpose, 8, lo, hi) == values
  {
    forall i | 0 <= i < 8 ensures Draws(prf, purpose, 8, lo, hi)[i] == values[i] {
      PickReaches(lo, hi, values[i]);
    }
  }

  lemma PaddingSizes(z: Sizes)
    requires Feasible(z)
    ensures var p := NewProfile(SizeDrawing(z));
            p.padMax == z.padMax && p.prefixMinRecord == z.prefixMin && p.prefixMaxRecord == z.prefixMax
            && p.saltBlockLen == z.saltBlockLen
  {
    hide Pick, Draws, EightWithin, AllWithin;
    PickReaches(0x18, 0xa0, 0x18);
    PickReaches(0xa0, 0x3c0, z.padMax - 0x18);
    PickReaches(0x10, 0x60, 0x10);
    PickReaches(0x10, 0xa0, 0x70);
    PickReaches(0x10, 0x80, z.saltBlockLen - SALT_LEN);
    PickReaches(0x08, 0x50, z.prefixMin);
    PickReaches(0x10, 0xa0, z.prefixMax - z.prefixMin);
  }

  lemma ChunkSizes(z: Sizes)
    requires Feasible(z)
    ensures var p := NewProfile(SizeDrawing(z));
            p.firstRecordCap == z.firstRecordCap && p.chunkMax == z.chunkMax && p.chunkStep == z.chunkStep
            && p.chunkJitter == z.chunkJitter
            && p.chunkBuckets == Draws(p.prf, LABEL_CHUNK_BUCKET, 8, 0x1000, p.chunkMax)
            && p.prf == SizeDrawing(z)
  {
    hide Pick, Draws, EightWithin, AllWithin;
    PickReaches(0x200, 0x05b4, 0x200);
    PickReaches(0x100, 0x300, z.firstRecordCap);
    PickReaches(0x2000, 0x3fff, z.chunkMax);
    PickReaches(0x400, 0x1000, z.chunkStep);
    PickReaches(0x10, 0xc0, z.chunkJitter);
  }

  lemma WriteSizes(z: Sizes)
    requires Feasible(z)
    ensures var prf := SizeDrawing(z);
            && NewProfile(prf).writeBuckets == Draws(prf, LABEL_WRITE_BUCKET, 8, 0x140, 0x05b4)
            && NewProfile(prf).writeSeq == Draws(prf, LABEL_WRITE_SEQ, 8, 0x168, 0x05b4)
  {
    hide Pick, Draws, SizeDraw, EightWithin, AllWithin;
  }

  /** These sizes too, in every feasible combination, are the ones of some profile. */
  lemma SizesAreIndependent(z: Sizes) returns (prf: Prf)
    requires Feasible(z)
    ensures SizesOf(NewProfile(prf)) == z
  {
    hide NewProfile, Draws;
    prf := SizeDrawing(z);
    PaddingSizes(z);
    ChunkSizes(z);
    WriteSizes(z);
    DrawsReach(prf, LABEL_CHUNK_BUCKET, z.chunkBuckets, 0x1000, z.chunkMax);
    DrawsReach(prf, LABEL_WRITE_BUCKET, z.writeBuckets, 0x140, 0x05b4);
    DrawsReach(prf, LABEL_WRITE_SEQ, z.writeSeq, 0x168, 0x05b4);
  }

  lemma PrefixReaches(p: Shape, seqNo: uint32, n: int)
    requires p.prefixMinRecord <= n <= p.prefixMaxRecord
    ensures RecordPrefixLen(Keyed(p, Always(n - p.prefixMinRecord)), seqNo) == n
  {
    PickReaches(p.prefixMinRecord, p.prefixMaxRecord, n);
  }

  // ------------------------------------------------------------ chunk sizes

  /** What each policy makes of a chunk size: itself, one of eight buckets, or a value a jitter away from it. */
  lemma ChunkLimitByPolicy(p: Shape, seqNo: uint32, size: nat)
    requires 0x200 <= size <= p.chunkMax
    ensures var limit := ChunkPayloadLimit(p, seqNo, size);
            && (p.chunkPolicy == 0 ==> limit == size)
            && (p.chunkPolicy == 1 ==> limit in p.chunkBuckets)
            && (p.chunkPolicy == 2 ==> size - p.chunkJitter <= limit <= size + p.chunkJitter)
  {
  }

  /** No size yet is the initial size. */
  lemma NoSizeIsInitial(p: Shape, seqNo: uint32)
    ensures ChunkPayloadLimit(p, seqNo, 0) == ChunkPayloadLimit(p, seqNo, p.chunkInitial)
    ensures NextChunkSize(p, 0) == p.chunkInitial
  {
  }

  /** And each reaches all of that. */
  lemma ChunkLimitReaches(p: Shape, seqNo: uint32, size: nat, bucket: nat, jitter: int)
    requires 0x200 <= size <= p.chunkMax && bucket < 8 && -p.chunkJitter <= jitter <= p.chunkJitter
    ensures p.chunkPolicy == 1 ==> ChunkPayloadLimit(Keyed(p, Always(bucket)), seqNo, size) == p.chunkBuckets[bucket]
    ensures p.chunkPolicy == 2 ==>
              ChunkPayloadLimit(Keyed(p, Always(jitter + p.chunkJitter)), seqNo, size) ==
              Min(size + jitter, p.chunkMax)
  {
    SmallMod(bucket, 8);
    SmallMod(jitter + p.chunkJitter, p.chunkJitter * 2 + 1);
  }

  // ------------------------------------------------------------ write targets

  /** The first records aim at the write sequence, later ones at a bucket, with jitter under policy 2 only. */
  lemma TargetBy(p: Shape, seqNo: uint32, frameLen: nat)
    ensures var target := DrawnTarget(p, seqNo, frameLen);
            var early := seqNo < p.writeFirst;
            && (p.writePolicy != 2 && early ==> target == p.writeSeq[seqNo])
            && (p.writePolicy != 2 && !early ==> target in p.writeBuckets)
            && (p.writePolicy == 2 && early ==>
                  p.writeSeq[seqNo] - p.writeJitter <= target <= p.writeSeq[seqNo] + p.writeJitter)
            && (p.writePolicy == 2 && !early ==>
                  exists k :: 0 <= k < 8
                    && p.writeBuckets[k] - p.writeJitter <= target <= p.writeBuckets[k] + p.writeJitter)
  {
    var k := p.prf.draw(LABEL_WRITE_TARGET, seqNo, frameLen) as int % 8;
    assert p.writeBuckets[k] in p.writeBuckets;
  }

  /** Draws that tell the bucket from the jitter. */
  function TargetDraws(bucket: nat, jitter: nat): Prf
    requires bucket < 8 && jitter < 0x1_0000_0000
  {
    Prf((a, b, c) => if a == LABEL_WRITE_TARGET then if bucket < 8 then bucket else 0
                     else if jitter < 0x1_0000_0000 then jitter else 0,
        (a, b) => 0, a => 0, (a, b, c) => 0)
  }

  /** Every bucket is reached, and under policy 2 every distance of the jitter from it. */
  lemma TargetReaches(p: Shape, seqNo: uint32, frameLen: nat, bucket: nat, jitter: int)
    requires bucket < 8 && -p.writeJitter <= jitter <= p.writeJitter
    ensures var q := Keyed(p, TargetDraws(bucket, jitter + p.writeJitter));
            DrawnTarget(q, seqNo, frameLen) ==
            (if seqNo < p.writeFirst then p.writeSeq[seqNo] else p.writeBuckets[bucket])
            + if p.writePolicy == 2 then jitter else 0
  {
    SmallMod(bucket, 8);
    SmallMod(jitter + p.writeJitter, p.writeJitter * 2 + 1);
  }

  /** A target that is too small grows to a drawn bucket above it, any one, or by padMax if the bucket is not. */
  lemma NextTargetIs(p: Shape, seqNo: uint32, target: nat, bucket: nat)
    requires bucket < 8
    ensures NextTarget(p, seqNo, target) in p.writeBuckets || NextTarget(p, seqNo, target) == target + p.padMax
    ensures NextTarget(Keyed(p, Always(bucket)), seqNo, target) ==
            if p.writeBuckets[bucket] > target then p.writeBuckets[bucket] else target + p.padMax
  {
    SmallMod(bucket, 8);
  }

  /** The spread goes on top of a drawn target, or half of it is taken off where it can be. */
  lemma InitialTargetIs(p: Shape, seqNo: uint32, frameLen: nat)
    requires frameLen <= 0x05b3
    ensures var target := DrawnTarget(p, seqNo, frameLen);
            var spread := Min(MAX_EXTRA_PADDING, frameLen * p.writeJitterPct / 100);
            var initial := InitialTarget(p, seqNo, frameLen);
            initial == target + spread || initial == if target > spread / 2 then target - spread / 2 else target
  {
    hide DrawnTarget;
  }

  /** Which of the two it is goes by a draw's parity; here all draws are the same, and every bucket is reached. */
  lemma InitialTargetReaches(p: Shape, seqNo: uint32, frameLen: nat, bucket: nat)
    requires frameLen <= 0x05b3 && bucket < 8
    ensures var q := Keyed(p, Always(bucket));
            var target := DrawnTarget(q, seqNo, frameLen);
            var spread := Min(MAX_EXTRA_PADDING, frameLen * p.writeJitterPct / 100);
            InitialTarget(q, seqNo, frameLen) ==
            if bucket in {0, 2, 4, 6} then target + spread
            else if target > spread / 2 then target - spread / 2 else target
  {
    hide DrawnTarget;
  }

  // ------------------------------------------------------------ padding

  /** The records that draw padding: the first ones, small ones, and every so many. */
  predicate Counted(p: Shape, seqNo: uint32, payloadLen: nat) {
    seqNo < p.padCount || 0 < payloadLen <= p.smallLimit || seqNo as int % p.padInterval as int == 0
  }

  function FrameLen(prefixLen: nat, payloadLen: nat, padding: nat): nat
  {
    prefixLen + HEADER_CIPHER_LEN + padding + payloadLen + if payloadLen > 0 then TAG_LEN else 0
  }

  /** What a later record adds to drawn padding on its way to its write target. */
  function Growth(p: Shape, seqNo: uint32, frameLen: nat): nat
  {
    Max(0, Min(WriteTarget(p, seqNo, frameLen) - frameLen, MAX_EXTRA_PADDING))
  }

  /** The padding of a later record: what it draws, if it does, and its growth to the target. */
  lemma LaterPadding(p: Shape, seqNo: uint32, payloadLen: nat, prefixLen: nat)
    returns (drawn: nat)
    ensures if Counted(p, seqNo, payloadLen) then p.padMin <= drawn <= p.padMax else drawn == 0
    ensures PaddingLen(p, seqNo, payloadLen, prefixLen, 0, 0) ==
            drawn + Growth(p, seqNo, FrameLen(prefixLen, payloadLen, drawn))
  {
    hide WriteTarget;
    drawn := if Padded(p, seqNo, payloadLen) then
               Pick(p.prf.draw(LABEL_PAYLOAD_PAD, seqNo, payloadLen % 0x1_0000_0000), p.padMin, p.padMax)
             else 0;
  }

  /** A frame over 0x5b3 octets does not grow: its padding is drawn, all amounts are, or there is none. */
  lemma LongRecordPadding(p: Shape, seqNo: uint32, payloadLen: nat, prefixLen: nat, amount: int)
    requires 0x05b3 < FrameLen(prefixLen, payloadLen, 0) && FrameLen(prefixLen, payloadLen, p.padMax) <= 0xffff
    requires p.padMin <= amount <= p.padMax
    ensures !Counted(p, seqNo, payloadLen) ==> PaddingLen(p, seqNo, payloadLen, prefixLen, 0, 0) == 0
    ensures Counted(p, seqNo, payloadLen) ==>
              PaddingLen(Keyed(p, Always(amount - p.padMin)), seqNo, payloadLen, prefixLen, 0, 0) == amount
  {
    PickReaches(p.padMin, p.padMax, amount);
  }

  lemma CountedIsPadded(p: Shape, seqNo: uint32, payloadLen: nat, prefixLen: nat)
    requires Counted(p, seqNo, payloadLen)
    ensures PaddingLen(p, seqNo, payloadLen, prefixLen, 0, 0) >= p.padMin
  {
    hide PaddingLen, Counted, Growth;
    var drawn := LaterPadding(p, seqNo, payloadLen, prefixLen);
  }

  /** Among any padInterval records in a row, one has at least padMin octets of padding. */
  lemma SomeRecordIsPadded(p: Shape, first: nat) returns (seqNo: uint32)
    requires first + p.padInterval <= 0x1_0000_0000
    ensures first <= seqNo as nat < first + p.padInterval
    ensures forall payloadLen: nat, prefixLen: nat :: PaddingLen(p, seqNo, payloadLen, prefixLen, 0, 0) >= p.padMin
  {
    hide PaddingLen;
    var n := p.padInterval as nat;
    var gap := (n - first % n) % n;
    NextMultiple(first, n);
    seqNo := first + gap;
    assert seqNo as int % n == 0;
    forall payloadLen: nat, prefixLen: nat
      ensures PaddingLen(p, seqNo, payloadLen, prefixLen, 0, 0) >= p.padMin
    {
      CountedIsPadded(p, seqNo, payloadLen, prefixLen);
    }
  }

  lemma NextMultiple(a: nat, n: nat)
    requires n > 0
    ensures (n - a % n) % n < n && (a + (n - a % n) % n) % n == 0
  {
    Decompose(a, n);
    var q, r := a / n, a % n;
    ModOf(0, 0, n);
    if r == 0 {
      ModOf(1, 0, n);
    } else {
      SmallMod(n - r, n);
      TimesNext(q, n);
      ModOf(q + 1, 0, n);
    }
  }

  /** A first record's padding rises to what hides the handshake, and no further than the headroom. */
  lemma FirstPaddingIs(p: Shape, paddingLen: nat, prefixLen: nat, saltPrefixLen: nat, payloadLen: nat)
    requires paddingLen <= p.padMaxHeadroom
    ensures FirstRecordPaddingLen(p, paddingLen, prefixLen, saltPrefixLen, payloadLen) ==
            Min(Max(paddingLen, PaddingThreshold(payloadLen) - saltPrefixLen - prefixLen), p.padMaxHeadroom)
  {
    hide PaddingThreshold;
  }

  /** So the first record's padding is drawn and grows like any other's, with its salt block in the frame, and rises. */
  lemma FirstPadding(p: Shape, seqNo: uint32, payloadLen: nat, prefixLen: nat)
    returns (drawn: nat)
    ensures if Counted(p, seqNo, payloadLen) then p.padMin <= drawn <= p.padMax else drawn == 0
    ensures var grown := drawn + Growth(p, seqNo, p.saltBlockLen + FrameLen(prefixLen, payloadLen, drawn));
            PaddingLen(p, seqNo, payloadLen, prefixLen, p.saltBlockLen - SALT_LEN, p.saltBlockLen) ==
            Min(Max(grown, PaddingThreshold(payloadLen) - (p.saltBlockLen - SALT_LEN) - prefixLen), p.padMaxHeadroom)
  {
    hide WriteTarget, PaddingThreshold, FirstRecordPaddingLen;
    drawn := if Padded(p, seqNo, payloadLen) then
               Pick(p.prf.draw(LABEL_PAYLOAD_PAD, seqNo, payloadLen % 0x1_0000_0000), p.padMin, p.padMax)
             else 0;
    var frameLen := p.saltBlockLen + FrameLen(prefixLen, payloadLen, drawn);
    FirstPaddingIs(p, drawn + Growth(p, seqNo, frameLen), prefixLen, p.saltBlockLen - SALT_LEN, payloadLen);
  }

  /** The threshold is a third of the payload and its overhead, rounded up, and at least 0xc0. */
  lemma ThresholdIs(payloadLen: nat)
    ensures var overhead := if payloadLen == 0 then 0x27 else 0x37;
            var least := PaddingThreshold(payloadLen);
            least >= 0xc0 && least * 3 >= payloadLen + overhead
            && (least > 0xc0 ==> (least - 1) * 3 < payloadLen + overhead)
  {
    ThirdRoundedUp(payloadLen + if payloadLen == 0 then 0x27 else 0x37);
  }
}
