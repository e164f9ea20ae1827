/**
 The v6 traffic profile (snellv6/profile.go): every length a shaped record uses is
 drawn from a keyed pseudo-random function, which stays uninterpreted here.
 */
module Profile {
  import opened Bytes
  import opened Aead

  const SALT_LEN := 16
  const HEADER_PLAIN_LEN := 7
  const HEADER_CIPHER_LEN := HEADER_PLAIN_LEN + TAG_LEN
  const MAX_EXTRA_PADDING := 0x02da
  const MAX_PAYLOAD := 0xffff

  const LABEL_MIX_OFFSET := 3
  const LABEL_PAD_MIN := 7
  const LABEL_PAD_MAX := 8
  const LABEL_PAD_COUNT := 9
  const LABEL_PAD_INTERVAL := 10
  const LABEL_SMALL_LIMIT := 11
  const LABEL_PREFIX_MIN := 14
  const LABEL_PREFIX_MAX := 15
  const LABEL_MIX_MODE := 16
  const LABEL_MIX_ROUNDS := 17
  const LABEL_MIX_STRIDE := 18
  const LABEL_MIX_OFFSET_BASE := 19
  const LABEL_MIX_BLOCK := 20
  const LABEL_CHUNK_POLICY := 21
  const LABEL_CHUNK_INITIAL := 22
  const LABEL_CHUNK_FIRST_CAP := 22
  const LABEL_CHUNK_MAX := 23
  const LABEL_CHUNK_STEP := 24
  const LABEL_CHUNK_JITTER := 25
  const LABEL_CHUNK_BUCKET := 26
  const LABEL_IDLE_RESET := 27
  const LABEL_WRITE_POLICY := 28
  const LABEL_WRITE_FIRST := 29
  const LABEL_WRITE_BUCKET := 30
  const LABEL_WRITE_SEQ := 31
  const LABEL_WRITE_JITTER := 32
  const LABEL_RECORD_PREFIX := 33
  const LABEL_PAYLOAD_PAD := 34
  const LABEL_WRITE_TARGET := 35
  const LABEL_WRITE_JITTER_V := 36
  const LABEL_WRITE_NEXT := 37
  const LABEL_CHUNK_SIZE := 38
  const LABEL_CHUNK_JITTER_V := 39

  const HANDSHAKE_DOMAIN := 0x7053
  const MIX_HANDSHAKE_DOMAIN := 0x51a7
  const CHUNK_INITIAL_DOMAIN := 0xf17c

  /**
   The keyed functions the profile draws from. A static draw is Draw(label, 0, domain).
   Shuffle and Mask belong to the salt block; Filler gives the octets of fillPadding,
   of which only the count matters.
   */
  datatype Prf = Prf(
    draw: (nat, nat, nat) -> uint32,
    shuffle: (nat, nat) -> uint32,
    mask: nat -> byte,
    filler: (nat, nat, nat) -> byte
  )

  datatype Profile = Profile(
    prf: Prf,
    padMin: int, padMax: int, padCount: uint32, padInterval: uint32, smallLimit: int,
    prefixMinRecord: int, prefixMaxRecord: int,
    mixMode: uint32, mixRounds: uint32, mixStride: int, mixOffsetBase: int, mixBlock: int,
    chunkPolicy: uint32, chunkInitial: int, firstRecordCap: int, chunkMax: int,
    chunkStep: int, chunkJitter: int, idleResetSec: int,
    writePolicy: uint32, writeFirst: uint32,
    chunkBuckets: seq<int>, writeBuckets: seq<int>, writeSeq: seq<int>,
    writeJitter: int, writeJitterPct: int,
    saltBlockLen: int, mixStrideHandshake: int, mixRoundsHandshake: uint32,
    recordPrefixMax: int, padMaxHeadroom: int
  )

  /** The source panics on an inverted range, so a range in order is what it demands. */
  function Pick(raw: uint32, lo: int, hi: int): (r: int)
    requires lo <= hi
    ensures lo <= r <= hi
  {
    lo + raw as int % (hi - lo + 1)
  }

  function Static(prf: Prf, purpose: nat, domain: nat): uint32 { prf.draw(purpose, 0, domain) }

  predicate AllWithin(s: seq<int>, lo: int, hi: int) {
    forall i :: 0 <= i < |s| ==> lo <= s[i] <= hi
  }

  /** The ranges every profile lies in. */
  ghost predicate InRange(p: Profile) {
    && 0x18 <= p.padMin <= 0xa0 && p.padMin < p.padMax <= MAX_EXTRA_PADDING
    && 2 <= p.padCount <= 8 && 2 <= p.padInterval <= 0x0b && 0x60 <= p.smallLimit <= 0x300
    && 8 <= p.prefixMinRecord <= p.prefixMaxRecord <= 0x80 && p.recordPrefixMax == p.prefixMaxRecord
    && p.mixMode < 3 && 1 <= p.mixRounds <= 3 && 2 <= p.mixStride <= 13
    && 0 <= p.mixOffsetBase <= 15 && 8 <= p.mixBlock <= 0x40
    && 0x200 <= p.chunkInitial <= 0x05b4 && 0x100 <= p.firstRecordCap <= 0x300 && p.firstRecordCap <= p.chunkInitial
    && 0x2000 <= p.chunkMax <= 0x3fff && 0x400 <= p.chunkStep <= 0x0b68 && 0x10 <= p.chunkJitter <= 0xb6
    && 0x0c <= p.idleResetSec <= 0x5a
    && 4 <= p.writeFirst <= 8 && 8 <= p.writeJitter <= 0x60 && 8 <= p.writeJitterPct <= 0x30
    && |p.chunkBuckets| == 8 && AllWithin(p.chunkBuckets, 0x1000, p.chunkMax)
    && |p.writeBuckets| == 8 && AllWithin(p.writeBuckets, 0x140, 0x05b4)
    && |p.writeSeq| == 8 && AllWithin(p.writeSeq, 0x168, 0x05b4)
    && 32 <= p.saltBlockLen <= 144
    && 0x11 <= p.mixStrideHandshake <= 0xfb && 1 <= p.mixRoundsHandshake <= 4
    && p.padMaxHeadroom == p.padMax + MAX_EXTRA_PADDING
  }

  function Draws(prf: Prf, purpose: nat, n: nat, lo: int, hi: int): (r: seq<int>)
    requires lo <= hi
    ensures |r| == n && AllWithin(r, lo, hi)
  {
    seq(n, i requires 0 <= i < n => Pick(Static(prf, purpose, i), lo, hi))
  }

  /** No range handed to pick is inverted, and the profile lies in the ranges above. */
  function NewProfile(prf: Prf): (p: Profile)
    ensures InRange(p)
  {
    var padMin := Pick(Static(prf, LABEL_PAD_MIN, 0), 0x18, 0xa0);
    var padMax := Min(padMin + Pick(Static(prf, LABEL_PAD_MAX, 0), 0xa0, 0x3c0), MAX_EXTRA_PADDING);

    var prefixMinDrawn := Pick(Static(prf, LABEL_PREFIX_MIN, HANDSHAKE_DOMAIN), 0x10, 0x60);
    var prefixMaxHandshake :=
      Min(prefixMinDrawn + Pick(Static(prf, LABEL_PREFIX_MAX, HANDSHAKE_DOMAIN), 0x10, 0xa0), 0x80);
    var prefixMinHandshake := Min(prefixMinDrawn, prefixMaxHandshake);
    var saltPrefixLen :=
      Pick(Static(prf, LABEL_RECORD_PREFIX, HANDSHAKE_DOMAIN), prefixMinHandshake, prefixMaxHandshake);

    var prefixMinRaw := Pick(Static(prf, LABEL_PREFIX_MIN, 0), 0x08, 0x50);
    var prefixMaxRecord := Min(prefixMinRaw + Pick(Static(prf, LABEL_PREFIX_MAX, 0), 0x10, 0xa0), 0x80);

    var chunkInitial := Max(0x60, Min(Pick(Static(prf, LABEL_CHUNK_INITIAL, 0), 0x200, 0x05b4), 0x05b4));
    var firstRecordCap :=
      Max(0x100, Min(Pick(Static(prf, LABEL_CHUNK_FIRST_CAP, CHUNK_INITIAL_DOMAIN), 0x100, 0x300),
        Min(chunkInitial, 0x300)));
    var chunkMax := Max(Pick(Static(prf, LABEL_CHUNK_MAX, 0), 0x2000, 0x3fff), chunkInitial);

    Profile(
      prf := prf,
      padMin := padMin, padMax := padMax,
      padCount := Pick(Static(prf, LABEL_PAD_COUNT, 0), 2, 8),
      padInterval := Pick(Static(prf, LABEL_PAD_INTERVAL, 0), 2, 0x0b),
      smallLimit := Pick(Static(prf, LABEL_SMALL_LIMIT, 0), 0x60, 0x300),
      prefixMinRecord := Min(prefixMinRaw, prefixMaxRecord), prefixMaxRecord := prefixMaxRecord,
      mixMode := Static(prf, LABEL_MIX_MODE, 0) as int % 3,
      mixRounds := Pick(Static(prf, LABEL_MIX_ROUNDS, 0), 1, 3),
      mixStride := Pick(Static(prf, LABEL_MIX_STRIDE, 0), 2, 13),
      mixOffsetBase := Pick(Static(prf, LABEL_MIX_OFFSET_BASE, 0), 0, 15),
      mixBlock := Pick(Static(prf, LABEL_MIX_BLOCK, 0), 8, 0x40),
      chunkPolicy := Static(prf, LABEL_CHUNK_POLICY, 0) as int % 3,
      chunkInitial := chunkInitial, firstRecordCap := firstRecordCap, chunkMax := chunkMax,
      chunkStep := Min(Pick(Static(prf, LABEL_CHUNK_STEP, 0), 0x400, 0x1000), 0x0b68),
      chunkJitter := Min(Pick(Static(prf, LABEL_CHUNK_JITTER, 0), 0x10, 0xc0), 0x0b6),
      idleResetSec := Pick(Static(prf, LABEL_IDLE_RESET, 0), 0x0c, 0x5a),
      writePolicy := Static(prf, LABEL_WRITE_POLICY, 0) as int % 3,
      writeFirst := Pick(Static(prf, LABEL_WRITE_FIRST, 0), 4, 8),
      chunkBuckets := Draws(prf, LABEL_CHUNK_BUCKET, 8, 0x1000, chunkMax),
      writeBuckets := Draws(prf, LABEL_WRITE_BUCKET, 8, 0x140, 0x05b4),
      writeSeq := Draws(prf, LABEL_WRITE_SEQ, 8, 0x168, 0x05b4),
      writeJitter := Pick(Static(prf, LABEL_WRITE_JITTER, 0), 0x08, 0x60),
      writeJitterPct := Pick(Static(prf, LABEL_WRITE_POLICY, 0x504c), 8, 0x30),
      saltBlockLen := SALT_LEN + saltPrefixLen,
      mixStrideHandshake := Pick(Static(prf, LABEL_MIX_STRIDE, MIX_HANDSHAKE_DOMAIN), 0x11, 0xfb),
      mixRoundsHandshake := Pick(Static(prf, LABEL_MIX_ROUNDS, MIX_HANDSHAKE_DOMAIN), 1, 4),
      recordPrefixMax := prefixMaxRecord, padMaxHeadroom := padMax + MAX_EXTRA_PADDING)
  }

  /** The profiles in use: exactly the shape NewProfile gives. */
  type Shape = p: Profile | InRange(p)
    ghost witness NewProfile(Prf((a, b, c) => 0, (a, b) => 0, a => 0, (a, b, c) => 0))

  /** fillPadding: some octets that depend on the sequence number and the length only. */
  function FillPadding(p: Profile, seqNo: uint32, n: nat): (s: seq<byte>)
    ensures |s| == n
  {
    seq<byte>(n, i requires 0 <= i < n => p.prf.filler(seqNo, n, i))
  }

  function RecordPrefixLen(p: Shape, seqNo: uint32): (n: nat)
    ensures 8 <= n <= p.recordPrefixMax
  {
    Pick(p.prf.draw(LABEL_RECORD_PREFIX, seqNo, 0), p.prefixMinRecord, p.prefixMaxRecord)
  }

  // ---------------------------------------------------------------- chunk sizes

  function ChunkPayloadLimit(p: Shape, seqNo: uint32, chunkSize: nat): (limit: nat)
    ensures 0x40 <= limit <= p.chunkMax
  {
    var size := if chunkSize == 0 then p.chunkInitial else chunkSize;
    var shaped :=
      if p.chunkPolicy == 1 then
        p.chunkBuckets[p.prf.draw(LABEL_CHUNK_SIZE, seqNo, size % 0x1_0000_0000) as int % 8]
      else if p.chunkPolicy == 2 then
        size + p.prf.draw(LABEL_CHUNK_JITTER_V, seqNo, size % 0x1_0000_0000) as int % (p.chunkJitter * 2 + 1)
          - p.chunkJitter
      else
        size;
    Max(0x40, Min(shaped, p.chunkMax))
  }

  function NextChunkSize(p: Shape, chunkSize: nat): (n: nat)
    ensures n <= p.chunkMax
  {
    if chunkSize == 0 then p.chunkInitial else Min(chunkSize + p.chunkStep, p.chunkMax)
  }

  // ---------------------------------------------------------------- write targets

  function DrawnTarget(p: Shape, seqNo: uint32, frameLen: nat): (t: nat)
    ensures 1 <= t <= 0x5b4 + 0x60
  {
    var drawn :=
      if seqNo < p.writeFirst then p.writeSeq[seqNo]
      else p.writeBuckets[p.prf.draw(LABEL_WRITE_TARGET, seqNo, frameLen) as int % 8];
    if p.writePolicy == 2 then
      var jitter := p.prf.draw(LABEL_WRITE_JITTER_V, seqNo, 0) as int % (p.writeJitter * 2 + 1) - p.writeJitter;
      Max(drawn + jitter, 1)
    else
      drawn
  }

  lemma ShareAtMost(n: nat, percent: nat)
    requires n <= 0x05b3 && percent <= 0x30
    ensures 0 <= n * percent <= 0x05b3 * 0x30
  {
    assert n * (0x30 - percent) >= 0;
  }

  function Spread(p: Shape, frameLen: nat): (s: nat)
    requires frameLen <= 0x05b3
    ensures s <= 700
  {
    ShareAtMost(frameLen, p.writeJitterPct);
    Min(MAX_EXTRA_PADDING, frameLen * p.writeJitterPct / 100)
  }

  /** The target the growth loop starts from; the source's 0xffff branch is never taken. */
  function InitialTarget(p: Shape, seqNo: uint32, frameLen: nat): (t: nat)
    requires frameLen <= 0x05b3
    ensures 1 <= t <= 2256
  {
    var target, spread := DrawnTarget(p, seqNo, frameLen), Spread(p, frameLen);
    if p.prf.draw(LABEL_WRITE_TARGET, seqNo, spread) as int % 2 == 0 then
      assert target + spread <= 0xffff;
      target + spread
    else if target > spread / 2 then
      target - spread / 2
    else
      target
  }

  /** One step of the growth loop: the next bucket, or padMax more when it is no larger. */
  function NextTarget(p: Shape, seqNo: uint32, target: nat): (next: nat)
    ensures next > target
  {
    var bucket := p.writeBuckets[p.prf.draw(LABEL_WRITE_NEXT, seqNo, target % 0x1_0000_0000) as int % 8];
    if bucket <= target then target + p.padMax else bucket
  }

  function GrowTarget(p: Shape, seqNo: uint32, frameLen: nat, target: nat): (t: nat)
    requires frameLen <= 0x05b3 && target <= 2256
    ensures frameLen <= t <= 2256
    decreases frameLen - target
  {
    if frameLen > target then GrowTarget(p, seqNo, frameLen, NextTarget(p, seqNo, target)) else target
  }

  function WriteTarget(p: Shape, seqNo: uint32, frameLen: nat): nat
  {
    if frameLen > 0x05b3 then Min(frameLen, 0xffff)
    else GrowTarget(p, seqNo, frameLen, InitialTarget(p, seqNo, frameLen))
  }

  /**
   The growth loop ends for every pseudo-random function, because the target rises at
   each turn; what it ends with covers the frame and stays far below 0xffff, so the
   saturating branch in the loop is never taken.
   */
  method ComputeWriteTarget(p: Shape, seqNo: uint32, frameLen: nat) returns (targetLen: nat)
    ensures targetLen == WriteTarget(p, seqNo, frameLen)
    ensures frameLen <= 0xffff ==> frameLen <= targetLen
    ensures frameLen <= 0x05b3 ==> targetLen <= 2256
  {
    if frameLen > 0x05b3 {
      return if frameLen <= 0xffff then frameLen else 0xffff;
    }
    targetLen := InitialTarget(p, seqNo, frameLen);
    while frameLen > targetLen
      invariant targetLen <= 2256
      invariant GrowTarget(p, seqNo, frameLen, targetLen) == WriteTarget(p, seqNo, frameLen)
      decreases frameLen - targetLen
    {
      var nextLen := p.writeBuckets[p.prf.draw(LABEL_WRITE_NEXT, seqNo, targetLen % 0x1_0000_0000) as int % 8];
      if nextLen <= targetLen {
        nextLen := targetLen + p.padMax;
        if nextLen > 0xffff {
          assert false;
        }
      }
      targetLen := nextLen;
    }
  }

  // ---------------------------------------------------------------- padding

  function PaddingThreshold(payloadLen: nat): nat
  {
    Max(((if payloadLen == 0 then payloadLen + 0x27 else payloadLen + 0x37) * 25 + 0x4a) / 75, 0xc0)
  }

  function FirstRecordPaddingLen(p: Shape, paddingLen: nat, prefixLen: nat, saltPrefixLen: nat,
      payloadLen: nat): (n: nat)
    requires paddingLen <= p.padMaxHeadroom
    ensures n <= p.padMaxHeadroom
  {
    var threshold := PaddingThreshold(payloadLen);
    if saltPrefixLen + prefixLen + paddingLen >= threshold then paddingLen
    else
      var wanted := threshold - saltPrefixLen - prefixLen;
      var target := if p.padMax + MAX_EXTRA_PADDING <= wanted then p.padMax + MAX_EXTRA_PADDING else wanted;
      if target > 0xfffe then paddingLen else target
  }

  predicate Padded(p: Shape, seqNo: uint32, payloadLen: nat)
  {
    || seqNo < p.padCount
    || (payloadLen > 0 && payloadLen <= p.smallLimit)
    || (p.padInterval > 0 && seqNo as int % p.padInterval as int == 0)
  }

  /** Padding of one record; totalLen is the salt block length, 0 on later records. */
  function PaddingLen(p: Shape, seqNo: uint32, payloadLen: nat, prefixLen: nat, saltPrefixLen: nat,
      totalLen: nat): (n: nat)
    ensures n <= p.padMaxHeadroom <= 0x5b4
  {
    var drawn :=
      if Padded(p, seqNo, payloadLen) then
        Pick(p.prf.draw(LABEL_PAYLOAD_PAD, seqNo, payloadLen % 0x1_0000_0000), p.padMin, p.padMax)
      else 0;
    var payloadTagLen := if payloadLen > 0 then TAG_LEN else 0;
    var frameLen := totalLen + prefixLen + HEADER_CIPHER_LEN + drawn + payloadLen + payloadTagLen;
    var targetLen := WriteTarget(p, seqNo, frameLen);
    var grown := if targetLen > frameLen then drawn + Min(targetLen - frameLen, MAX_EXTRA_PADDING) else drawn;
    var padding := if totalLen > 0 then FirstRecordPaddingLen(p, grown, prefixLen, saltPrefixLen, payloadLen)
                   else grown;
    Min(padding, 0xffff)
  }

  /** What a first record hides its handshake behind, octets of salt block included. */
  function Cover(p: Shape, seqNo: uint32, payloadLen: nat): nat
  {
    var prefixLen := RecordPrefixLen(p, seqNo);
    var saltPrefixLen := p.saltBlockLen - SALT_LEN;
    saltPrefixLen + prefixLen + PaddingLen(p, seqNo, payloadLen, prefixLen, saltPrefixLen, p.saltBlockLen)
  }

  /** Rounding up a third, as the source's integer expression does it. */
  lemma ThirdRoundedUp(x: nat)
    ensures (x * 25 + 0x4a) / 75 == (x + 2) / 3
  {
  }

  /**
   A first record no longer than the cap covers its handshake with at least a third of
   the payload plus its overhead, and never with fewer than 0xc0 octets.
   */
  lemma FirstRecordCover(p: Shape, seqNo: uint32, payloadLen: nat)
    requires payloadLen <= p.firstRecordCap
    ensures Cover(p, seqNo, payloadLen) >= 0xc0
    ensures payloadLen > 0 ==> Cover(p, seqNo, payloadLen) >= (payloadLen + 0x37 + 2) / 3
    ensures payloadLen == 0 ==> Cover(p, seqNo, payloadLen) >= (0x27 + 2) / 3
  {
    ThirdRoundedUp(payloadLen + 0x37);
    ThirdRoundedUp(0x27);
    assert PaddingThreshold(payloadLen) <= 275;
  }
}
