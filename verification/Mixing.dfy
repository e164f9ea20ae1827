/**
 Mixing padding octets into the payload ciphertext (snellv6/mixing.go). Every round
 exchanges equal positions of the two strings; which positions depends on lengths and
 the sequence number only. All three modes are one pattern: blocks of a width, a step
 apart, from an offset.
 */
module Mixing {
  import opened Arithmetic
  import opened Bytes
  import opened Profile

  datatype Pair = Pair(padding: seq<byte>, cipher: seq<byte>)

  /** Number of positions the two strings share. */
  function Shared(x: Pair): nat { Min(|x.padding|, |x.cipher|) }

  ghost predicate SameLengths(x: Pair, y: Pair) { |x.padding| == |y.padding| && |x.cipher| == |y.cipher| }

  datatype Strip = Strip(off: nat, step: nat, width: nat)

  /** Never 1 for a profile in range, so the source's branches for a stride of 1 are dead. */
  function Stride(p: Shape, round: nat): (stride: nat)
    ensures stride >= 2
  {
    Max(p.mixStride + round % 3, 1)
  }

  function RoundStrip(p: Shape, seqNo: uint32, round: nat): (s: Strip)
    ensures 0 < s.width <= s.step
  {
    var stride := Stride(p, round);
    if p.mixMode == 0 then
      Strip(p.mixOffsetBase % stride, stride, 1)
    else if p.mixMode == 1 then
      Strip(round % 2 * p.mixBlock, p.mixBlock * 2, p.mixBlock)
    else
      var off := (p.prf.draw(LABEL_MIX_OFFSET, seqNo, round) + p.mixOffsetBase) as int % stride;
      Strip(off, stride, 1)
  }

  function SwapOne(x: Pair, i: nat): (y: Pair)
    requires i < Shared(x)
    ensures SameLengths(x, y)
  {
    Pair(x.padding[i := x.cipher[i]], x.cipher[i := x.padding[i]])
  }

  function SwapBlock(x: Pair, i: nat, end: nat): (y: Pair)
    requires i <= end <= Shared(x)
    ensures SameLengths(x, y)
    decreases end - i
  {
    if i == end then x else SwapBlock(SwapOne(x, i), i + 1, end)
  }

  function SwapStrip(x: Pair, off: nat, step: nat, width: nat): (y: Pair)
    requires 0 < width <= step
    ensures SameLengths(x, y)
    decreases Shared(x) - off
  {
    if off + width > Shared(x) then x else SwapStrip(SwapBlock(x, off, off + width), off + step, step, width)
  }

  function MixFrom(p: Shape, seqNo: uint32, x: Pair, round: nat): (y: Pair)
    requires round <= p.mixRounds
    ensures SameLengths(x, y)
    decreases p.mixRounds - round
  {
    if round == p.mixRounds then x
    else
      var s := RoundStrip(p, seqNo, round);
      MixFrom(p, seqNo, SwapStrip(x, s.off, s.step, s.width), round + 1)
  }

  /** mixPaddingPayload as a function of the two strings. */
  function Mix(p: Shape, seqNo: uint32, x: Pair): (y: Pair)
    ensures SameLengths(x, y)
  {
    MixFrom(p, seqNo, x, 0)
  }

  // ------------------------------------------------ which positions change places

  /** Position k lies in a block at or behind off. */
  predicate Hit(off: nat, step: nat, width: nat, n: nat, k: nat)
    requires 0 < width <= step
    decreases n - off
  {
    off + width <= n && (off <= k < off + width || Hit(off + step, step, width, n, k))
  }

  /** Position k is exchanged by an odd number of the rounds from this one on. */
  predicate Odd(p: Shape, seqNo: uint32, n: nat, k: nat, round: nat)
    requires round <= p.mixRounds
    decreases p.mixRounds - round
  {
    round < p.mixRounds &&
    var s := RoundStrip(p, seqNo, round);
    Hit(s.off, s.step, s.width, n, k) != Odd(p, seqNo, n, k, round + 1)
  }

  /** y is x with position k exchanged exactly when flip. */
  ghost predicate At(x: Pair, y: Pair, k: nat, flip: bool)
    requires SameLengths(x, y) && k < Shared(x)
  {
    if flip then y.padding[k] == x.cipher[k] && y.cipher[k] == x.padding[k]
    else y.padding[k] == x.padding[k] && y.cipher[k] == x.cipher[k]
  }

  ghost predicate TailKept(x: Pair, y: Pair)
    requires SameLengths(x, y)
  {
    x.padding[Shared(x)..] == y.padding[Shared(x)..] && x.cipher[Shared(x)..] == y.cipher[Shared(x)..]
  }

  lemma {:induction false} HitBehind(off: nat, step: nat, width: nat, n: nat, k: nat)
    requires 0 < width <= step && Hit(off, step, width, n, k)
    ensures off <= k < n
    decreases n - off
  {
    if !(off <= k < off + width) {
      HitBehind(off + step, step, width, n, k);
    }
  }

  lemma {:induction false} SwapBlockAt(x: Pair, i: nat, end: nat, k: nat)
    requires i <= end <= Shared(x) && k < Shared(x)
    ensures At(x, SwapBlock(x, i, end), k, i <= k < end)
    ensures TailKept(x, SwapBlock(x, i, end))
    decreases end - i
  {
    if i < end {
      SwapBlockAt(SwapOne(x, i), i + 1, end, k);
    }
  }

  lemma {:induction false} SwapStripAt(x: Pair, off: nat, step: nat, width: nat, k: nat)
    requires 0 < width <= step && k < Shared(x)
    ensures At(x, SwapStrip(x, off, step, width), k, Hit(off, step, width, Shared(x), k))
    ensures TailKept(x, SwapStrip(x, off, step, width))
    decreases Shared(x) - off
  {
    if off + width <= Shared(x) {
      SwapBlockAt(x, off, off + width, k);
      SwapStripAt(SwapBlock(x, off, off + width), off + step, step, width, k);
      if Hit(off + step, step, width, Shared(x), k) {
        HitBehind(off + step, step, width, Shared(x), k);
      }
    }
  }

  lemma {:induction false} MixFromAt(p: Shape, seqNo: uint32, x: Pair, round: nat, k: nat)
    requires round <= p.mixRounds && k < Shared(x)
    ensures At(x, MixFrom(p, seqNo, x, round), k, Odd(p, seqNo, Shared(x), k, round))
    ensures TailKept(x, MixFrom(p, seqNo, x, round))
    decreases p.mixRounds - round
  {
    if round < p.mixRounds {
      var s := RoundStrip(p, seqNo, round);
      SwapStripAt(x, s.off, s.step, s.width, k);
      MixFromAt(p, seqNo, SwapStrip(x, s.off, s.step, s.width), round + 1, k);
    }
  }

  lemma {:induction false} MixFromNothing(p: Shape, seqNo: uint32, x: Pair, round: nat)
    requires round <= p.mixRounds && Shared(x) == 0
    ensures MixFrom(p, seqNo, x, round) == x
    decreases p.mixRounds - round
  {
    if round < p.mixRounds {
      MixFromNothing(p, seqNo, x, round + 1);
    }
  }

  /**
   Mixing twice gives both strings back, for every mode, stride, block, round count and
   sequence number, though the second pass runs its rounds in the same order.
   */
  lemma MixIsInvolution(p: Shape, seqNo: uint32, x: Pair)
    ensures Mix(p, seqNo, Mix(p, seqNo, x)) == x
  {
    var y := Mix(p, seqNo, x);
    var z := Mix(p, seqNo, y);
    if Shared(x) == 0 {
      MixFromNothing(p, seqNo, x, 0);
    } else {
      MixFromAt(p, seqNo, x, 0, 0);
      MixFromAt(p, seqNo, y, 0, 0);
      forall k | 0 <= k < Shared(x)
        ensures z.padding[k] == x.padding[k] && z.cipher[k] == x.cipher[k]
      {
        MixFromAt(p, seqNo, x, 0, k);
        MixFromAt(p, seqNo, y, 0, k);
      }
      TailsMeet(x.padding, z.padding, Shared(x));
      TailsMeet(x.cipher, z.cipher, Shared(x));
    }
  }

  lemma TailsMeet(s: seq<byte>, t: seq<byte>, n: nat)
    requires n <= |s| == |t| && s[n..] == t[n..]
    requires forall k :: 0 <= k < n ==> t[k] == s[k]
    ensures s == t
  {
    assert s == s[..n] + s[n..] && t == t[..n] + t[n..];
  }

  // ------------------------------------------------ the same, by arithmetic

  predicate HitAt(off: nat, step: nat, width: nat, n: nat, k: nat)
    requires step > 0
  {
    k >= off && (k - off) % step < width && k - (k - off) % step + width <= n
  }

  /** A position is hit if it stands in the front of its step and its block ends within n. */
  lemma {:induction false} HitIff(off: nat, step: nat, width: nat, n: nat, k: nat)
    requires 0 < width <= step
    ensures Hit(off, step, width, n, k) <==> HitAt(off, step, width, n, k)
    decreases n - off
  {
    if off + width <= n {
      HitIff(off + step, step, width, n, k);
      if k >= off + step {
        ModStep(k - off, step);
      } else if k >= off {
        SmallMod(k - off, step);
      }
    } else if k >= off {
      ModAtMost(k - off, step);
    }
  }

  /** Which of the first n positions a round exchanges, mode by mode. */
  predicate Exchanges(p: Shape, seqNo: uint32, round: nat, n: nat, k: nat)
  {
    var stride := p.mixStride + round % 3;
    if p.mixMode == 0 then k % stride == p.mixOffsetBase % stride
    else if p.mixMode == 1 then k / p.mixBlock % 2 == round % 2 && (k / p.mixBlock + 1) * p.mixBlock <= n
    else k % stride == (p.prf.draw(LABEL_MIX_OFFSET, seqNo, round) as int + p.mixOffsetBase) % stride
  }

  lemma StrideHits(off: nat, stride: nat, n: nat, k: nat)
    requires off < stride && k < n
    ensures Hit(off, stride, 1, n, k) <==> k % stride == off
  {
    HitIff(off, stride, 1, n, k);
    if k >= off {
      OffsetMod(k, off, stride);
    } else {
      SmallMod(k, stride);
    }
  }

  lemma OffsetMod(k: nat, off: nat, stride: nat)
    requires off < stride && off <= k
    ensures (k - off) % stride == 0 <==> k % stride == off
  {
    var q, r := k / stride, k % stride;
    assert k == q * stride + r;
    if r >= off {
      ModOf(q, r - off, stride);
    } else {
      TimesNext(q - 1, stride);
      ModOf(q - 1, r - off + stride, stride);
    }
  }

  lemma BlockHits(parity: nat, block: nat, n: nat, k: nat)
    requires parity < 2 && block > 0 && k < n
    ensures Hit(parity * block, block * 2, block, n, k) <==>
            k / block % 2 == parity && (k / block + 1) * block <= n
  {
    hide HitAt, Hit;
    HitIff(parity * block, block * 2, block, n, k);
    Decompose(k, block);
    BlockHitAt(k / block / 2, k / block % 2, parity, block, k % block, n, k, k / block);
  }

  lemma BlockHitAt(half: nat, odd: nat, parity: nat, block: nat, r: nat, n: nat, k: nat, q: nat)
    requires odd < 2 && parity < 2 && r < block && q == 2 * half + odd && k == q * block + r
    ensures HitAt(parity * block, block * 2, block, n, k) <==> odd == parity && (q + 1) * block <= n
  {
    Halves(half, odd, parity, block, r, k, q);
    TimesNext(q, block);
  }

  /** The remainder of the distance to the offset, by the parity of the block k is in. */
  lemma Halves(half: nat, odd: nat, parity: nat, block: nat, r: nat, k: nat, q: nat)
    requires odd < 2 && parity < 2 && r < block && q == 2 * half + odd && k == q * block + r
    ensures k < parity * block ==> odd != parity
    ensures k >= parity * block ==>
              (k - parity * block) % (block * 2) == if odd == parity then r else r + block
  {
    assert q * block == half * (block * 2) + odd * block by { Regroup(half, odd, block); }
    if odd == parity {
      assert k - parity * block == half * (block * 2) + r by { assert odd * block == parity * block; }
      ModOf(half, r, block * 2);
      assert half * (block * 2) >= 0;
    } else if odd == 1 {
      assert parity * block == 0 && odd * block == block;
      ModOf(half, r + block, block * 2);
    } else {
      assert parity * block == block && odd * block == 0;
      if k >= block {
        TimesNext(half - 1, block * 2);
        ModOf(half - 1, r + block, block * 2);
      }
    }
  }

  lemma Regroup(half: nat, odd: nat, block: nat)
    ensures (2 * half + odd) * block == half * (block * 2) + odd * block
  {
  }

  lemma RoundHits(p: Shape, seqNo: uint32, round: nat, n: nat, k: nat)
    requires k < n
    ensures var s := RoundStrip(p, seqNo, round);
            Hit(s.off, s.step, s.width, n, k) <==> Exchanges(p, seqNo, round, n, k)
  {
    hide Hit;
    var s := RoundStrip(p, seqNo, round);
    if p.mixMode == 1 {
      BlockHits(round % 2, p.mixBlock, n, k);
    } else {
      StrideHits(s.off, s.step, n, k);
    }
  }

  /** How many of the rounds from this one on exchange position k. */
  function Times(p: Shape, seqNo: uint32, n: nat, k: nat, round: nat): nat
    requires round <= p.mixRounds
    decreases p.mixRounds - round
  {
    if round == p.mixRounds then 0
    else (if Exchanges(p, seqNo, round, n, k) then 1 else 0) + Times(p, seqNo, n, k, round + 1)
  }

  lemma {:induction false} OddTimes(p: Shape, seqNo: uint32, n: nat, k: nat, round: nat)
    requires round <= p.mixRounds && k < n
    ensures Odd(p, seqNo, n, k, round) <==> Times(p, seqNo, n, k, round) % 2 == 1
    decreases p.mixRounds - round
  {
    hide Hit, Exchanges, RoundStrip;
    if round < p.mixRounds {
      RoundHits(p, seqNo, round, n, k);
      OddTimes(p, seqNo, n, k, round + 1);
    }
  }

  /** Mixing exchanges the positions that an odd number of its rounds exchange, and nothing else. */
  lemma MixExchanges(p: Shape, seqNo: uint32, x: Pair, k: nat)
    requires k < Shared(x)
    ensures At(x, Mix(p, seqNo, x), k, Times(p, seqNo, Shared(x), k, 0) % 2 == 1)
    ensures TailKept(x, Mix(p, seqNo, x))
  {
    MixFromAt(p, seqNo, x, 0, k);
    OddTimes(p, seqNo, Shared(x), k, 0);
  }

  // ------------------------------------------------ the loops, in place

  /** The two regions as they stand in memory; they may lie in one buffer. */
  function Regions(a: array<byte>, ao: nat, al: nat, b: array<byte>, bo: nat, bl: nat): (x: Pair)
    requires ao + al <= a.Length && bo + bl <= b.Length
    reads a, b
  {
    Pair(a[ao..ao + al], b[bo..bo + bl])
  }

  predicate Apart(a: array<byte>, ao: nat, al: nat, b: array<byte>, bo: nat, bl: nat) {
    && ao + al <= a.Length && bo + bl <= b.Length
    && (a != b || ao + al <= bo || bo + bl <= ao)
  }

  /** Only the two regions may have changed. */
  twostate predicate OnlyRegions(a: array<byte>, ao: nat, al: nat, b: array<byte>, bo: nat, bl: nat)
    reads a, b
  {
    && (forall k :: 0 <= k < a.Length && !(ao <= k < ao + al) && !(a == b && bo <= k < bo + bl) ==> a[k] == old(a[k]))
    && (forall k :: 0 <= k < b.Length && !(bo <= k < bo + bl) && !(a == b && ao <= k < ao + al) ==> b[k] == old(b[k]))
  }

  method SwapOneInPlace(a: array<byte>, ao: nat, al: nat, b: array<byte>, bo: nat, bl: nat, i: nat)
    requires Apart(a, ao, al, b, bo, bl) && i < al && i < bl
    modifies a, b
    ensures Regions(a, ao, al, b, bo, bl) == SwapOne(old(Regions(a, ao, al, b, bo, bl)), i)
    ensures OnlyRegions(a, ao, al, b, bo, bl)
  {
    ghost var x := Regions(a, ao, al, b, bo, bl);
    a[ao + i], b[bo + i] := b[bo + i], a[ao + i];
    assert a[ao..ao + al] == x.padding[i := x.cipher[i]];
    assert b[bo..bo + bl] == x.cipher[i := x.padding[i]];
  }

  method SwapBlockInPlace(off: nat, end: nat, a: array<byte>, ao: nat, al: nat, b: array<byte>, bo: nat, bl: nat)
    requires Apart(a, ao, al, b, bo, bl) && off <= end <= Min(al, bl)
    modifies a, b
    ensures Regions(a, ao, al, b, bo, bl) == SwapBlock(old(Regions(a, ao, al, b, bo, bl)), off, end)
    ensures OnlyRegions(a, ao, al, b, bo, bl)
  {
    hide SwapOne;
    ghost var x := Regions(a, ao, al, b, bo, bl);
    var i := off;
    while i < end
      invariant off <= i <= end
      invariant SwapBlock(Regions(a, ao, al, b, bo, bl), i, end) == SwapBlock(x, off, end)
      invariant OnlyRegions(a, ao, al, b, bo, bl)
    {
      SwapOneInPlace(a, ao, al, b, bo, bl, i);
      i := i + 1;
    }
  }

  method SwapStripInPlace(s: Strip, a: array<byte>, ao: nat, al: nat, b: array<byte>, bo: nat, bl: nat)
    requires Apart(a, ao, al, b, bo, bl) && 0 < s.width <= s.step
    modifies a, b
    ensures Regions(a, ao, al, b, bo, bl) == SwapStrip(old(Regions(a, ao, al, b, bo, bl)), s.off, s.step, s.width)
    ensures OnlyRegions(a, ao, al, b, bo, bl)
  {
    hide SwapBlock;
    ghost var x := Regions(a, ao, al, b, bo, bl);
    var off := s.off;
    while off + s.width <= Min(al, bl)
      invariant SwapStrip(Regions(a, ao, al, b, bo, bl), off, s.step, s.width) == SwapStrip(x, s.off, s.step, s.width)
      invariant OnlyRegions(a, ao, al, b, bo, bl)
      decreases Min(al, bl) - off
    {
      SwapBlockInPlace(off, off + s.width, a, ao, al, b, bo, bl);
      off := off + s.step;
    }
  }

  /** mixPaddingPayload on padding := a[ao..], cipher := b[bo..]. */
  method MixPaddingPayload(p: Shape, seqNo: uint32, a: array<byte>, ao: nat, al: nat, b: array<byte>, bo: nat, bl: nat)
    requires Apart(a, ao, al, b, bo, bl)
    modifies a, b
    ensures Regions(a, ao, al, b, bo, bl) == Mix(p, seqNo, old(Regions(a, ao, al, b, bo, bl)))
    ensures OnlyRegions(a, ao, al, b, bo, bl)
  {
    ghost var x := Regions(a, ao, al, b, bo, bl);
    if Min(al, bl) == 0 {
      MixFromNothing(p, seqNo, x, 0);
      return;
    }
    var round := 0;
    while round < p.mixRounds
      invariant 0 <= round <= p.mixRounds
      invariant MixFrom(p, seqNo, Regions(a, ao, al, b, bo, bl), round) == Mix(p, seqNo, x)
      invariant OnlyRegions(a, ao, al, b, bo, bl)
    {
      SwapStripInPlace(RoundStrip(p, seqNo, round), a, ao, al, b, bo, bl);
      round := round + 1;
    }
  }
}
