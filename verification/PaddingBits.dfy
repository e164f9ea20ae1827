/**
 Padding with an exact number of set bits (fillPaddingWithBitCount in snellv4/record.go and
 snellv5/record.go): ones first, a shuffle with a biased but bounded index, then packed
 into octets. How many ones are wanted comes from a ratio that is not modelled; any number
 that passes the range guard will do. The random numbers are any 31-bit numbers.
 */
module PaddingBits {
  import opened Arithmetic
  import opened Bytes

  const RAND_MAX := 0x7fff_ffff

  type Rand31 = n: int | 0 <= n <= RAND_MAX

  /** The shuffle index stays inside what remains, for every random number: the divisor is rounded up. */
  lemma SwapIndexInRange(random: Rand31, remaining: nat)
    requires remaining > 0
    ensures 0 <= random / (RAND_MAX / remaining + 1) < remaining
  {
    var d := RAND_MAX / remaining;
    var q := random / (d + 1);
    assert RAND_MAX == d * remaining + RAND_MAX % remaining;
    assert (d + 1) * remaining > RAND_MAX;
    assert q * (d + 1) <= random;
    TimesAtLeast(q, remaining, d + 1);
  }

  lemma TimesAtLeast(q: nat, n: nat, d: nat)
    ensures q >= n ==> q * d >= n * d
  {
  }

  function Sum(bits: seq<byte>): nat
  {
    if bits == [] then 0 else bits[0] as nat + Sum(bits[1..])
  }

  lemma {:induction false} SumAppend(a: seq<byte>, b: seq<byte>)
    ensures Sum(a + b) == Sum(a) + Sum(b)
  {
    if a == [] {
      AppendNothing(b);
    } else {
      TailAppend(a, b);
      SumAppend(a[1..], b);
    }
  }

  lemma {:induction false} SumUpdate(bits: seq<byte>, i: nat, v: byte)
    requires i < |bits|
    ensures Sum(bits[i := v]) + bits[i] as nat == Sum(bits) + v as nat
  {
    if i > 0 {
      SumUpdate(bits[1..], i - 1, v);
      assert bits[i := v][1..] == bits[1..][i - 1 := v];
    }
  }

  lemma SumSwap(bits: seq<byte>, i: nat, j: nat)
    requires i < |bits| && j < |bits|
    ensures Sum(bits[i := bits[j]][j := bits[i]]) == Sum(bits)
  {
    SumUpdate(bits, i, bits[j]);
    SumUpdate(bits[i := bits[j]], j, bits[i]);
  }

  lemma {:induction false} SumOfOnes(bits: seq<byte>, ones: nat)
    requires ones <= |bits|
    requires forall i :: 0 <= i < |bits| ==> bits[i] == if i < ones then 1 else 0
    ensures Sum(bits) == ones
  {
    if bits != [] {
      SumOfOnes(bits[1..], if ones > 0 then ones - 1 else 0);
    }
  }

  ghost predicate AllBits(bits: seq<byte>) { forall i :: 0 <= i < |bits| ==> bits[i] <= 1 }

  // ------------------------------------------------------------ packing

  /** The number whose n low bits are bits[at:at+n]. */
  function Packed(bits: seq<byte>, at: nat, n: nat): nat
    requires at + n <= |bits|
    decreases n
  {
    if n == 0 then 0 else bits[at] as nat + 2 * Packed(bits, at + 1, n - 1)
  }

  lemma {:induction false} PackedBound(bits: seq<byte>, at: nat, n: nat)
    requires at + n <= |bits| && AllBits(bits)
    ensures Packed(bits, at, n) < TwoTo(n)
    decreases n
  {
    if n > 0 {
      PackedBound(bits, at + 1, n - 1);
    }
  }

  lemma {:induction false} PackedNext(bits: seq<byte>, at: nat, n: nat)
    requires at + n < |bits| && AllBits(bits)
    ensures Packed(bits, at, n + 1) == Packed(bits, at, n) + if bits[at + n] == 1 then TwoTo(n) else 0
    decreases n
  {
    if n > 0 {
      PackedNext(bits, at + 1, n - 1);
      assert Packed(bits, at, n + 1) == bits[at] as nat + 2 * Packed(bits, at + 1, n);
    } else {
      assert Packed(bits, at + 1, 0) == 0;
    }
  }

  function Ones(b: nat): nat
  {
    if b == 0 then 0 else b % 2 + Ones(b / 2)
  }

  function OnesIn(octets: seq<byte>): nat
  {
    if octets == [] then 0 else Ones(octets[0]) + OnesIn(octets[1..])
  }

  lemma {:induction false} PackedOnes(bits: seq<byte>, at: nat, n: nat)
    requires at + n <= |bits| && AllBits(bits)
    ensures Ones(Packed(bits, at, n)) == Sum(bits[at..at + n])
    decreases n
  {
    if n > 0 {
      PackedOnes(bits, at + 1, n - 1);
      var b, y := bits[at] as nat, Packed(bits, at + 1, n - 1);
      BitBelow(b, y);
      assert bits[at..at + n][1..] == bits[at + 1..at + n];
    }
  }

  /** octets is bits packed eight to an octet, low bit first. */
  ghost predicate IsPacked(octets: seq<byte>, bits: seq<byte>) {
    |bits| == 8 * |octets| && forall j :: 0 <= j < |octets| ==> octets[j] as nat == Packed(bits, 8 * j, 8)
  }

  lemma PackedTail(octets: seq<byte>, bits: seq<byte>)
    requires IsPacked(octets, bits) && octets != []
    ensures IsPacked(octets[1..], bits[8..])
  {
    forall j | 0 <= j < |octets| - 1 ensures octets[1..][j] as nat == Packed(bits[8..], 8 * j, 8) {
      PackedShift(bits, 8 * j, 8);
      assert octets[1..][j] == octets[j + 1];
    }
  }

  lemma {:induction false} PackedCount(octets: seq<byte>, bits: seq<byte>)
    requires IsPacked(octets, bits) && AllBits(bits)
    ensures OnesIn(octets) == Sum(bits)
    decreases |octets|
  {
    if octets != [] {
      hide Packed, Ones;
      assert octets[0] as nat == Packed(bits, 8 * 0, 8);
      PackedOnes(bits, 0, 8);
      PackedTail(octets, bits);
      PackedCount(octets[1..], bits[8..]);
      SumAppend(bits[..8], bits[8..]);
      assert bits == bits[..8] + bits[8..] && bits[0..0 + 8] == bits[..8];
    }
  }

  lemma {:induction false} PackedShift(bits: seq<byte>, at: nat, n: nat)
    requires 8 + at + n <= |bits|
    ensures Packed(bits[8..], at, n) == Packed(bits, 8 + at, n)
    decreases n
  {
    if n > 0 {
      PackedShift(bits, at + 1, n - 1);
    }
  }

  /** b | 1 << k */
  function OrBit(b: nat, k: nat): nat
  {
    if b / TwoTo(k) % 2 == 1 then b else b + TwoTo(k)
  }

  lemma OrNewBit(b: nat, k: nat)
    requires b < TwoTo(k)
    ensures OrBit(b, k) == b + TwoTo(k)
  {
    SmallQuotient(b, TwoTo(k));
  }

  lemma SmallQuotient(b: nat, d: nat)
    requires b < d
    ensures b / d == 0
  {
  }

  lemma SmallPower(k: nat)
    requires k < 8
    ensures 2 * TwoTo(k) <= 256
  {
    assert TwoTo(7) == 128 by { assert TwoTo(4) == 16; }
    PowerGrows(k, 7);
  }

  lemma {:induction false} PowerGrows(a: nat, b: nat)
    requires a <= b
    ensures TwoTo(a) <= TwoTo(b)
    decreases b - a
  {
    if a < b { PowerGrows(a, b - 1); }
  }

  // ------------------------------------------------------------ the shuffle

  /** Which of the remaining places a random number picks. */
  function SwapIndex(random: Rand31, remaining: nat): (j: nat)
    requires remaining > 0
    ensures j < remaining
  {
    SwapIndexInRange(random, remaining);
    random / (RAND_MAX / remaining + 1)
  }

  function SwapAt(bits: seq<byte>, i: nat, j: nat): (r: seq<byte>)
    requires i < |bits| && j < |bits|
    ensures |r| == |bits|
  {
    bits[i := bits[j]][j := bits[i]]
  }

  function Shuffled(bits: seq<byte>, random: nat -> Rand31, position: nat): (r: seq<byte>)
    requires position < |bits|
    ensures |r| == |bits|
    decreases |bits| - position
  {
    if position == |bits| - 1 then bits
    else
      var j := position + SwapIndex(random(position), |bits| - position);
      Shuffled(SwapAt(bits, position, j), random, position + 1)
  }

  lemma SwapKeepsBits(bits: seq<byte>, i: nat, j: nat)
    requires i < |bits| && j < |bits| && AllBits(bits)
    ensures AllBits(SwapAt(bits, i, j)) && Sum(SwapAt(bits, i, j)) == Sum(bits)
  {
    SumSwap(bits, i, j);
  }

  /** The shuffle keeps the number of ones. */
  lemma {:induction false} ShuffleKeepsOnes(bits: seq<byte>, random: nat -> Rand31, position: nat)
    requires position < |bits| && AllBits(bits)
    ensures AllBits(Shuffled(bits, random, position)) && Sum(Shuffled(bits, random, position)) == Sum(bits)
    decreases |bits| - position
  {
    hide SwapAt;
    if position < |bits| - 1 {
      var j := position + SwapIndex(random(position), |bits| - position);
      SwapKeepsBits(bits, position, j);
      ShuffleKeepsOnes(SwapAt(bits, position, j), random, position + 1);
    }
  }

  /** The random number that picks a place: there is one for each, as long as there are not too many places. */
  lemma SwapIndexReaches(remaining: nat, j: nat) returns (random: Rand31)
    requires j < remaining && remaining * remaining <= RAND_MAX
    ensures SwapIndex(random, remaining) == j
  {
    var d := RAND_MAX / remaining;
    Decompose(RAND_MAX, remaining);
    AtMost(remaining, d, RAND_MAX % remaining);
    TimesAtLeast(remaining - 1, j, d + 1);
    TimesNext(remaining - 1, d + 1);
    assert remaining * (d + 1) == d * remaining + remaining;
    random := j * (d + 1);
    ModOf(j, 0, d + 1);
  }

  lemma AtMost(n: nat, d: nat, r: nat)
    requires n * n <= d * n + r && r < n
    ensures d >= n - 1
  {
    if d + 1 < n {
      TimesAtLeast(n - 1, d + 1, n);
      TimesNext(d, n);
      TimesNext(n - 1, n);
    }
  }

  /** The random numbers, one for each position. */
  function Numbers(randoms: seq<Rand31>): nat -> Rand31 { (i: nat) => if i < |randoms| then randoms[i] else 0 }

  lemma {:induction false} OneOf(bits: seq<byte>, v: byte) returns (j: nat)
    requires AllBits(bits) && v <= 1 && (if v == 1 then Sum(bits) > 0 else Sum(bits) < |bits|)
    ensures j < |bits| && bits[j] == v
  {
    if bits[0] == v {
      j := 0;
    } else {
      j := OneOf(bits[1..], v);
      j := j + 1;
    }
  }

  lemma {:induction false} SumAtMost(bits: seq<byte>)
    requires AllBits(bits)
    ensures Sum(bits) <= |bits|
  {
    if bits != [] {
      SumAtMost(bits[1..]);
    }
  }

  lemma RestSums(bits: seq<byte>, target: seq<byte>, position: nat)
    requires |bits| == |target| && position <= |bits| && bits[..position] == target[..position]
    requires Sum(bits) == Sum(target)
    ensures Sum(bits[position..]) == Sum(target[position..])
  {
    assert bits == bits[..position] + bits[position..] && target == target[..position] + target[position..];
    SumAppend(bits[..position], bits[position..]);
    SumAppend(target[..position], target[position..]);
  }

  /** The next place that holds what is wanted. */
  lemma Wanted(bits: seq<byte>, target: seq<byte>, position: nat) returns (j: nat)
    requires AllBits(bits) && AllBits(target) && |bits| == |target| && position < |bits|
    requires bits[..position] == target[..position] && Sum(bits) == Sum(target)
    ensures position <= j < |bits| && bits[j] == target[position]
  {
    RestSums(bits, target, position);
    SumAtMost(target[position + 1..]);
    assert target[position..][1..] == target[position + 1..];
    j := OneOf(bits[position..], target[position]);
    j := position + j;
  }

  lemma FrontGrows(bits: seq<byte>, target: seq<byte>, position: nat, j: nat)
    requires |bits| == |target| && position <= j < |bits| && bits[..position] == target[..position]
    requires bits[j] == target[position]
    ensures SwapAt(bits, position, j)[..position + 1] == target[..position + 1]
  {
    forall k | 0 <= k <= position ensures SwapAt(bits, position, j)[k] == target[k] {
      if k < position { assert bits[..position][k] == target[..position][k]; }
    }
  }

  /** Every arrangement of the ones comes out for some random numbers. */
  lemma {:induction false} EveryArrangement(bits: seq<byte>, target: seq<byte>, position: nat, front: seq<Rand31>)
    returns (randoms: seq<Rand31>)
    requires AllBits(bits) && AllBits(target) && |bits| == |target| && |bits| * |bits| <= RAND_MAX
    requires position < |bits| && bits[..position] == target[..position] && Sum(bits) == Sum(target)
    requires |front| == position
    ensures front <= randoms && Shuffled(bits, Numbers(randoms), position) == target
    decreases |bits| - position
  {
    hide SwapIndex, SwapAt;
    var j := Wanted(bits, target, position);
    if position == |bits| - 1 {
      randoms := front;
      assert bits == bits[..position] + [bits[position]] && target == target[..position] + [target[position]];
    } else {
      var remaining := |bits| - position;
      Squares(remaining, |bits|);
      var random := SwapIndexReaches(remaining, j - position);
      SwapKeepsBits(bits, position, j);
      FrontGrows(bits, target, position, j);
      randoms := EveryArrangement(SwapAt(bits, position, j), target, position + 1, front + [random]);
      assert randoms[position] == (front + [random])[position];
    }
  }

  lemma Squares(a: nat, b: nat)
    requires a <= b
    ensures a * a <= b * b
  {
    TimesAtLeast(b, a, b);
    TimesAtLeast(b, a, a);
  }

  /** The shuffle: position runs up, remaining runs down. */
  method Shuffle(bitset: array<byte>, random: nat -> Rand31)
    requires bitset.Length > 0
    modifies bitset
    ensures bitset[..] == Shuffled(old(bitset[..]), random, 0)
  {
    var position, remaining := 0, bitset.Length;
    while remaining != 1
      invariant remaining > 0 && position + remaining == bitset.Length
      invariant Shuffled(bitset[..], random, position) == Shuffled(old(bitset[..]), random, 0)
      decreases remaining
    {
      var divisor := if remaining != 0 then RAND_MAX / remaining else 0;
      SwapIndexInRange(random(position), remaining);
      var swapIndex := position + random(position) / (divisor + 1);
      ghost var before := bitset[..];
      bitset[swapIndex], bitset[position] := bitset[position], bitset[swapIndex];
      assert bitset[..] == SwapAt(before, position, swapIndex);
      position, remaining := position + 1, remaining - 1;
    }
  }

  /** How many bits of octet j have been taken from the first index bits. */
  function Filled(j: nat, index: nat): (n: nat)
    ensures n <= 8
  {
    if index >= 8 * j + 8 then 8 else if index > 8 * j then index - 8 * j else 0
  }

  lemma FilledNext(j: nat, index: nat)
    ensures if j == index / 8 then Filled(j, index) == index % 8 && Filled(j, index + 1) == index % 8 + 1
            else Filled(j, index + 1) == Filled(j, index)
  {
  }

  /** The octets so far, index bits having been taken. */
  ghost predicate PackedSoFar(octets: seq<byte>, bits: seq<byte>, index: nat) {
    |bits| == 8 * |octets| && forall j :: 0 <= j < |octets| ==>
      octets[j] as nat == Packed(bits, 8 * j, Filled(j, index))
  }

  lemma PackedSoFarNext(octets: seq<byte>, after: seq<byte>, bits: seq<byte>, index: nat)
    requires PackedSoFar(octets, bits, index) && AllBits(bits) && index < |bits| && |after| == |octets|
    requires forall j :: 0 <= j < |octets| ==>
      after[j] as nat == octets[j] as nat + if j == index / 8 && bits[index] == 1 then TwoTo(index % 8) else 0
    ensures PackedSoFar(after, bits, index + 1)
  {
    hide Packed, TwoTo, Filled;
    forall j | 0 <= j < |after| ensures after[j] as nat == Packed(bits, 8 * j, Filled(j, index + 1)) {
      FilledNext(j, index);
      if j == index / 8 {
        PackedNext(bits, 8 * j, index % 8);
      }
    }
  }

  /** clear(padding), then one octet after the other takes its bits. */
  method Pack(padding: array<byte>, bitset: array<byte>)
    requires bitset.Length == 8 * padding.Length && AllBits(bitset[..]) && padding != bitset
    modifies padding
    ensures IsPacked(padding[..], bitset[..])
  {
    hide Packed, TwoTo, OrBit;
    ghost var bits := bitset[..];
    forall j | 0 <= j < padding.Length { padding[j] := 0; }
    NothingPacked(padding[..], bits);
    var index := 0;
    while index < bitset.Length
      invariant 0 <= index <= bitset.Length && bitset[..] == bits
      invariant PackedSoFar(padding[..], bits, index)
    {
      ghost var before := padding[..];
      if bitset[index] == 1 {
        var j, k := index / 8, index % 8;
        FilledNext(j, index);
        PackedBound(bits, 8 * j, k);
        OrNewBit(padding[j], k);
        SmallPower(k);
        padding[j] := OrBit(padding[j], k);
      }
      PackedSoFarNext(before, padding[..], bits, index);
      index := index + 1;
    }
  }

  lemma NothingPacked(octets: seq<byte>, bits: seq<byte>)
    requires |bits| == 8 * |octets| && forall j :: 0 <= j < |octets| ==> octets[j] == 0
    ensures PackedSoFar(octets, bits, 0)
  {
  }

  /** Exactly oneBits bits are set, for every sequence of random numbers; empty padding would index out of range. */
  method FillPaddingWithBitCount(padding: array<byte>, oneBits: nat, random: nat -> Rand31)
    requires padding.Length > 0 && oneBits <= 8 * padding.Length
    modifies padding
    ensures OnesIn(padding[..]) == oneBits
  {
    var totalBits := 8 * padding.Length;
    var bitset := new byte[totalBits](i => if i < oneBits then 1 else 0);
    SumOfOnes(bitset[..], oneBits);
    ShuffleKeepsOnes(bitset[..], random, 0);
    Shuffle(bitset, random);
    Pack(padding, bitset);
    PackedCount(padding[..], bitset[..]);
  }
}
