/** The salt of a v6 stream, scattered over a filler block by a keyed shuffle (snellv6/salt.go). */
module SaltBlock {
  import opened Arithmetic
  import opened Bytes
  import opened Profile

  function Swap<T>(s: seq<T>, i: nat, j: nat): (r: seq<T>)
    requires i < |s| && j < |s|
    ensures |r| == |s|
  {
    s[i := s[j]][j := s[i]]
  }

  /** Every entry is a position of s. */
  ghost predicate Positions(s: seq<byte>) {
    forall i :: 0 <= i < |s| ==> s[i] < |s|
  }

  /** s holds every number below |s| exactly once. */
  ghost predicate IsPermutation(s: seq<byte>) {
    && Positions(s)
    && (forall i, j :: 0 <= i < j < |s| ==> s[i] != s[j])
  }

  function Identity(length: nat): (s: seq<byte>)
    requires length <= 256
    ensures |s| == length
  {
    seq<byte>(length, i requires 0 <= i < length => i)
  }

  /** The index drawn for position i of a round: somewhere in i..length-1. */
  function DrawIndex(prf: Prf, domain: nat, i: nat, length: nat): (j: nat)
    requires i < length
    ensures i <= j < length
  {
    i + prf.shuffle(domain, i) as int % (length - i)
  }

  function ShuffleFrom(prf: Prf, domain: nat, s: seq<byte>, i: nat): (r: seq<byte>)
    requires i <= |s|
    ensures |r| == |s|
    decreases |s| - i
  {
    if i == |s| then s
    else ShuffleFrom(prf, domain, Swap(s, i, DrawIndex(prf, domain, i, |s|)), i + 1)
  }

  function ShuffleRounds(prf: Prf, s: seq<byte>, round: nat, rounds: nat): (r: seq<byte>)
    requires round <= rounds
    ensures |r| == |s|
    decreases rounds - round
  {
    if round == rounds then s
    else ShuffleRounds(prf, ShuffleFrom(prf, MIX_HANDSHAKE_DOMAIN + round, s, 0), round + 1, rounds)
  }

  function EffectiveRounds(rounds: byte): nat { if rounds == 0 then 1 else rounds }

  function ShufflePerm(prf: Prf, rounds: byte, length: nat): (r: seq<byte>)
    requires length <= 256
    ensures |r| == length
  {
    ShuffleRounds(prf, Identity(length), 0, EffectiveRounds(rounds))
  }

  lemma SwapKeepsPermutation(s: seq<byte>, i: nat, j: nat)
    requires IsPermutation(s) && i < |s| && j < |s|
    ensures IsPermutation(Swap(s, i, j))
  {
  }

  lemma {:induction false} ShuffleFromPermutes(prf: Prf, domain: nat, s: seq<byte>, i: nat)
    requires IsPermutation(s) && i <= |s|
    ensures IsPermutation(ShuffleFrom(prf, domain, s, i))
    decreases |s| - i
  {
    if i < |s| {
      var j := DrawIndex(prf, domain, i, |s|);
      SwapKeepsPermutation(s, i, j);
      ShuffleFromPermutes(prf, domain, Swap(s, i, j), i + 1);
    }
  }

  lemma {:induction false} ShuffleRoundsPermutes(prf: Prf, s: seq<byte>, round: nat, rounds: nat)
    requires IsPermutation(s) && round <= rounds
    ensures IsPermutation(ShuffleRounds(prf, s, round, rounds))
    decreases rounds - round
  {
    if round < rounds {
      ShuffleFromPermutes(prf, MIX_HANDSHAKE_DOMAIN + round, s, 0);
      ShuffleRoundsPermutes(prf, ShuffleFrom(prf, MIX_HANDSHAKE_DOMAIN + round, s, 0), round + 1, rounds);
    }
  }

  /** For every round count and every length up to 256 the shuffle is a permutation. */
  lemma ShufflePermIsPermutation(prf: Prf, rounds: byte, length: nat)
    requires length <= 256
    ensures IsPermutation(ShufflePerm(prf, rounds, length))
  {
    assert IsPermutation(Identity(length));
    ShuffleRoundsPermutes(prf, Identity(length), 0, EffectiveRounds(rounds));
  }

  // ------------------------------------------------------------ every permutation is drawn

  /** What draws, by domain and position, make of the shuffle. */
  function Drawing(draws: (nat, nat) -> uint32): Prf { Prf((a, b, c) => 0, draws, a => 0, (a, b, c) => 0) }

  /** Draws that only matter in one domain. */
  function OnlyIn(domain: nat, draws: seq<uint32>): (nat, nat) -> uint32
  {
    (d: nat, i: nat) => if d == domain && i < |draws| then draws[i] else 0
  }

  lemma {:induction false} SwapTakesFront(s: seq<byte>, perm: seq<byte>, i: nat, j: nat)
    requires |s| == |perm| && i <= j < |s| && s[..i] == perm[..i] && s[j] == perm[i]
    ensures Swap(s, i, j)[..i + 1] == perm[..i + 1]
  {
    forall k | 0 <= k <= i ensures Swap(s, i, j)[k] == perm[k] {
      if k < i {
        assert s[..i][k] == perm[..i][k];
      }
    }
  }

  /** The values below n, as a set. */
  function Below(n: nat): (r: set<nat>)
    ensures |r| == n && forall v: nat :: v in r <==> v < n
  {
    if n == 0 then {}
    else
      var r := Below(n - 1);
      assert n - 1 !in r;
      r + {n - 1}
  }

  /** The values of s from i on. */
  function Values(s: seq<byte>, i: nat): set<nat>
    requires i <= |s|
    decreases |s| - i
  {
    if i == |s| then {} else {s[i] as nat} + Values(s, i + 1)
  }

  lemma {:induction false} ValuesAre(s: seq<byte>, i: nat, v: nat)
    requires i <= |s|
    ensures v in Values(s, i) <==> exists k :: i <= k < |s| && s[k] as nat == v
    decreases |s| - i
  {
    if i < |s| {
      ValuesAre(s, i + 1, v);
    }
  }

  lemma {:induction false} ValuesDistinct(s: seq<byte>, i: nat)
    requires IsPermutation(s) && i <= |s|
    ensures |Values(s, i)| == |s| - i
    decreases |s| - i
  {
    if i < |s| {
      ValuesDistinct(s, i + 1);
      ValuesAre(s, i + 1, s[i]);
    }
  }

  /** A permutation leaves no value out. */
  lemma Everywhere(s: seq<byte>, v: nat) returns (j: nat)
    requires IsPermutation(s) && v < |s|
    ensures j < |s| && s[j] as nat == v
  {
    ValuesDistinct(s, 0);
    forall w | w in Values(s, 0) ensures w in Below(|s|) {
      ValuesAre(s, 0, w);
    }
    if v !in Values(s, 0) {
      Fewer(Values(s, 0), Below(|s|) - {v});
    }
    ValuesAre(s, 0, v);
    j :| 0 <= j < |s| && s[j] as nat == v;
  }

  lemma {:induction false} Fewer(a: set<nat>, b: set<nat>)
    requires a <= b
    ensures |a| <= |b|
  {
    if a != {} {
      var x :| x in a;
      Fewer(a - {x}, b - {x});
    }
  }

  /** What to draw from position i on to turn s into perm. */
  lemma {:induction false} DrawsFor(s: seq<byte>, perm: seq<byte>, i: nat, domain: nat, front: seq<uint32>)
    returns (draws: seq<uint32>)
    requires IsPermutation(s) && IsPermutation(perm) && |s| == |perm| <= 256
    requires i <= |s| && s[..i] == perm[..i] && |front| == i
    ensures |draws| == |s| && front <= draws
    ensures ShuffleFrom(Drawing(OnlyIn(domain, draws)), domain, s, i) == perm
    decreases |s| - i
  {
    if i == |s| {
      draws := front;
      assert s == s[..i] && perm == perm[..i];
    } else {
      var j := Everywhere(s, perm[i]);
      forall k | 0 <= k < i ensures s[k] == perm[k] {
        assert s[..i][k] == perm[..i][k];
      }
      SwapKeepsPermutation(s, i, j);
      SwapTakesFront(s, perm, i, j);
      draws := DrawsFor(Swap(s, i, j), perm, i + 1, domain, front + [j - i]);
      assert draws[i] == (front + [j - i])[i] == j - i;
      var prf := Drawing(OnlyIn(domain, draws));
      assert prf.shuffle(domain, i) == j - i;
      SmallMod(j - i, |s| - i);
      assert DrawIndex(prf, domain, i, |s|) == j;
    }
  }

  lemma NotMoved(prf: Prf, domain: nat, s: seq<byte>, i: nat)
    requires i < |s| && prf.shuffle(domain, i) == 0
    ensures Swap(s, i, DrawIndex(prf, domain, i, |s|)) == s
  {
    SmallMod(0, |s| - i);
  }

  /** Where nothing but zero is drawn, a round moves nothing. */
  lemma {:induction false} ZeroDraws(prf: Prf, domain: nat, s: seq<byte>, i: nat)
    requires i <= |s| && forall k: nat :: prf.shuffle(domain, k) == 0
    ensures ShuffleFrom(prf, domain, s, i) == s
    decreases |s| - i
  {
    hide DrawIndex, Swap;
    if i < |s| {
      NotMoved(prf, domain, s, i);
      ZeroDraws(prf, domain, s, i + 1);
    }
  }

  lemma {:induction false} OtherRounds(draws: seq<uint32>, own: nat, s: seq<byte>, round: nat, rounds: nat)
    requires round <= rounds && !(round <= own < rounds)
    ensures ShuffleRounds(Drawing(OnlyIn(MIX_HANDSHAKE_DOMAIN + own, draws)), s, round, rounds) == s
    decreases rounds - round
  {
    if round < rounds {
      var prf := Drawing(OnlyIn(MIX_HANDSHAKE_DOMAIN + own, draws));
      ZeroDraws(prf, MIX_HANDSHAKE_DOMAIN + round, s, 0);
      OtherRounds(draws, own, s, round + 1, rounds);
    }
  }

  lemma {:induction false} OwnRound(draws: seq<uint32>, own: nat, s: seq<byte>, round: nat, rounds: nat)
    requires round <= own < rounds
    ensures var prf := Drawing(OnlyIn(MIX_HANDSHAKE_DOMAIN + own, draws));
            ShuffleRounds(prf, s, round, rounds) == ShuffleFrom(prf, MIX_HANDSHAKE_DOMAIN + own, s, 0)
    decreases own - round
  {
    var prf := Drawing(OnlyIn(MIX_HANDSHAKE_DOMAIN + own, draws));
    if round == own {
      OtherRounds(draws, own, ShuffleFrom(prf, MIX_HANDSHAKE_DOMAIN + own, s, 0), round + 1, rounds);
    } else {
      ZeroDraws(prf, MIX_HANDSHAKE_DOMAIN + round, s, 0);
      OwnRound(draws, own, s, round + 1, rounds);
    }
  }

  /**
   The salt may stand anywhere: each single round of the shuffle, by what is drawn in its own
   domain, reaches every permutation, and rounds in which only zero is drawn move nothing.
   */
  lemma EveryPermutationDrawn(perm: seq<byte>, rounds: byte, own: nat) returns (prf: Prf)
    requires IsPermutation(perm) && |perm| <= 256 && own < Max(rounds as nat, 1)
    ensures ShufflePerm(prf, rounds, |perm|) == perm
    ensures forall d: nat, i: nat :: d != MIX_HANDSHAKE_DOMAIN + own ==> prf.shuffle(d, i) == 0
  {
    var s := Identity(|perm|);
    assert IsPermutation(s);
    var draws := DrawsFor(s, perm, 0, MIX_HANDSHAKE_DOMAIN + own, []);
    prf := Drawing(OnlyIn(MIX_HANDSHAKE_DOMAIN + own, draws));
    OwnRound(draws, own, s, 0, EffectiveRounds(rounds));
  }

  /** Nothing drawn but zero: the positions in order, whatever the round count. */
  lemma {:induction false} ZeroDrawsAreIdentity(rounds: byte, length: nat, i: nat)
    requires i < length <= 256
    ensures ShufflePerm(Drawing((d: nat, k: nat) => 0), rounds, length)[i] as nat == i
  {
    ZeroRounds(Identity(length), 0, EffectiveRounds(rounds));
  }

  lemma {:induction false} ZeroRounds(s: seq<byte>, round: nat, rounds: nat)
    requires round <= rounds
    ensures ShuffleRounds(Drawing((d: nat, k: nat) => 0), s, round, rounds) == s
    decreases rounds - round
  {
    if round < rounds {
      ZeroDraws(Drawing((d: nat, k: nat) => 0), MIX_HANDSHAKE_DOMAIN + round, s, 0);
      ZeroRounds(s, round + 1, rounds);
    }
  }

  method Draw(prf: Prf, domain: nat, i: nat, length: nat) returns (j: nat)
    requires i < length
    ensures j == DrawIndex(prf, domain, i, length)
  {
    j := i + prf.shuffle(domain, i) as int % (length - i);
  }

  /** shufflePerm: the same swaps, in place. */
  method ComputeShufflePerm(prf: Prf, rounds: byte, length: nat) returns (out: array<byte>)
    requires length <= 256
    ensures fresh(out) && out[..] == ShufflePerm(prf, rounds, length)
  {
    hide DrawIndex;
    out := new byte[length](i => if 0 <= i < 256 then i else 0);
    assert out[..] == Identity(length);
    if length == 0 {
      return;
    }
    var total := if rounds == 0 then 1 else rounds;
    var round := 0;
    while round < total
      invariant 0 <= round <= total
      invariant ShuffleRounds(prf, out[..], round, total) == ShufflePerm(prf, rounds, length)
    {
      var domain := MIX_HANDSHAKE_DOMAIN + round;
      ghost var before := out[..];
      var i := 0;
      while i < length
        invariant 0 <= i <= length
        invariant ShuffleFrom(prf, domain, out[..], i) == ShuffleFrom(prf, domain, before, 0)
      {
        var j := Draw(prf, domain, i, length);
        ghost var s := out[..];
        out[i], out[j] := out[j], out[i];
        assert out[..] == Swap(s, i, j);
        i := i + 1;
      }
      round := round + 1;
    }
  }

  function StrideTimes(index: nat, stride: int): byte { (index % 256) * (stride % 256) % 256 }

  /** saltMask: the octet of the index times the stride, xored with a keyed octet. */
  function SaltMask(p: Profile, index: nat): byte { Xor(StrideTimes(index, p.mixStrideHandshake), p.prf.mask(index)) }

  /** The sixteen octets under their masks. */
  function Masked(p: Profile, octets: seq<byte>): (r: seq<byte>)
    ensures |r| == |octets|
  {
    seq<byte>(|octets|, i requires 0 <= i < |octets| => Xor(SaltMask(p, i), octets[i]))
  }

  lemma MaskedTwice(p: Profile, octets: seq<byte>)
    ensures Masked(p, Masked(p, octets)) == octets
  {
    forall i | 0 <= i < |octets| {
      XorCancel(SaltMask(p, i), octets[i]);
    }
  }

  /** What the mask of an index is without its keyed octet. */
  function StridePart(p: Profile, index: nat): byte { Xor(p.prf.mask(index), SaltMask(p, index)) }

  /** The part of the masks that is not keyed starts at 0 and rises by the stride, wrapped to an octet. */
  lemma MaskRises(p: Profile, index: nat)
    ensures StridePart(p, 0) == 0
    ensures StridePart(p, index + 1) as int == (StridePart(p, index) as int + p.mixStrideHandshake % 256) % 256
  {
    hide StridePart, StrideTimes;
    StridePartIs(p, 0);
    StridePartIs(p, index);
    StridePartIs(p, index + 1);
    StrideRises(index, p.mixStrideHandshake);
  }

  lemma StridePartIs(p: Profile, index: nat)
    ensures StridePart(p, index) == StrideTimes(index, p.mixStrideHandshake)
  {
    hide StrideTimes;
    var a, b := StrideTimes(index, p.mixStrideHandshake), p.prf.mask(index);
    XorCommutes(a, b);
    XorCancel(b, a);
  }

  lemma StrideRises(index: nat, stride: int)
    ensures StrideTimes(0, stride) == 0
    ensures StrideTimes(index + 1, stride) as int == (StrideTimes(index, stride) as int + stride % 256) % 256
  {
    var k, m := index % 256, stride % 256;
    if k == 255 {
      NextIndex(index, 255);
      WrapsTo(255 * m, m);
      assert 255 * m + m == 256 * m;
    } else {
      NextIndex(index, k);
      WrapsTo(k * m, m);
      TimesNext(k, m);
    }
  }

  lemma NextIndex(index: nat, k: nat)
    requires index % 256 == k
    ensures (index + 1) % 256 == if k == 255 then 0 else k + 1
  {
  }

  lemma WrapsTo(a: nat, b: nat)
    ensures (a + b) % 256 == (a % 256 + b) % 256
  {
  }

  /** The first n values stored through the permutation. */
  function Scatter(perm: seq<byte>, values: seq<byte>, block: seq<byte>, n: nat): (r: seq<byte>)
    requires |perm| == |block| && Positions(perm) && n <= |values| && n <= |block|
    ensures |r| == |block|
    decreases n
  {
    if n == 0 then block
    else Scatter(perm, values, block, n - 1)[perm[n - 1] := values[n - 1]]
  }

  function Gather(perm: seq<byte>, block: seq<byte>, n: nat): (values: seq<byte>)
    requires |perm| == |block| && Positions(perm) && n <= |block|
    ensures |values| == n
  {
    seq<byte>(n, i requires 0 <= i < n => block[perm[i]])
  }

  lemma {:induction false} ScatterAt(perm: seq<byte>, values: seq<byte>, block: seq<byte>, n: nat, i: nat)
    requires |perm| == |block| && IsPermutation(perm) && n <= |values| && n <= |block|
    requires i < n
    ensures Scatter(perm, values, block, n)[perm[i]] == values[i]
    decreases n
  {
    if i < n - 1 {
      ScatterAt(perm, values, block, n - 1, i);
    }
  }

  /** Everything else in the block stays the filler it was. */
  lemma {:induction false} ScatterElsewhere(perm: seq<byte>, values: seq<byte>, block: seq<byte>, n: nat, j: nat)
    requires |perm| == |block| && Positions(perm) && n <= |values| && n <= |block|
    requires j < |block| && forall i :: 0 <= i < n ==> perm[i] as nat != j
    ensures Scatter(perm, values, block, n)[j] == block[j]
    decreases n
  {
    if n > 0 {
      ScatterElsewhere(perm, values, block, n - 1, j);
    }
  }

  function HandshakePerm(p: Shape, length: nat): (perm: seq<byte>)
    requires length <= 256
    ensures |perm| == length && Positions(perm)
  {
    ShufflePermIsPermutation(p.prf, p.mixRoundsHandshake, length);
    ShufflePerm(p.prf, p.mixRoundsHandshake, length)
  }

  function WriteSalt(p: Shape, salt: seq<byte>, block: seq<byte>): (r: seq<byte>)
    requires |salt| == SALT_LEN <= |block| <= 256
    ensures |r| == |block|
  {
    Scatter(HandshakePerm(p, |block|), Masked(p, salt), block, SALT_LEN)
  }

  /** Where the salt stands in the block and under which mask; what the shuffle does not name is filler. */
  lemma SaltStands(p: Shape, salt: seq<byte>, block: seq<byte>, i: nat, j: nat)
    requires |salt| == SALT_LEN <= |block| <= 256 && i < SALT_LEN && j < |block|
    ensures var perm := ShufflePerm(p.prf, p.mixRoundsHandshake, |block|);
            && perm[i] as int < |block|
            && WriteSalt(p, salt, block)[perm[i]] == Xor(SaltMask(p, i), salt[i])
            && ((forall k :: 0 <= k < SALT_LEN ==> perm[k] as nat != j) ==> WriteSalt(p, salt, block)[j] == block[j])
  {
    hide Scatter, SaltMask, ShufflePerm;
    var perm := ShufflePerm(p.prf, p.mixRoundsHandshake, |block|);
    ShufflePermIsPermutation(p.prf, p.mixRoundsHandshake, |block|);
    ScatterAt(perm, Masked(p, salt), block, SALT_LEN, i);
    if forall k :: 0 <= k < SALT_LEN ==> perm[k] as nat != j {
      ScatterElsewhere(perm, Masked(p, salt), block, SALT_LEN, j);
    }
  }

  function ExtractSalt(p: Shape, block: seq<byte>): (salt: seq<byte>)
    requires SALT_LEN <= |block| <= 256
    ensures |salt| == SALT_LEN
  {
    Masked(p, Gather(HandshakePerm(p, |block|), block, SALT_LEN))
  }

  /** Whatever filled the block, extracting after writing gives the salt back. */
  lemma SaltRoundTrip(p: Shape, salt: seq<byte>, block: seq<byte>)
    requires |salt| == SALT_LEN <= |block| <= 256
    ensures ExtractSalt(p, WriteSalt(p, salt, block)) == salt
  {
    var perm := HandshakePerm(p, |block|);
    var written := WriteSalt(p, salt, block);
    ShufflePermIsPermutation(p.prf, p.mixRoundsHandshake, |block|);
    forall i | 0 <= i < SALT_LEN
      ensures Gather(perm, written, SALT_LEN)[i] == Masked(p, salt)[i]
    {
      ScatterAt(perm, Masked(p, salt), block, SALT_LEN, i);
    }
    assert Gather(perm, written, SALT_LEN) == Masked(p, salt);
    MaskedTwice(p, salt);
  }

  /** The first block of a stream: filler for sequence 0xffffffff with the salt written over it. */
  function SaltedBlock(p: Shape, salt: seq<byte>): (r: seq<byte>)
    requires |salt| == SALT_LEN
    ensures |r| == p.saltBlockLen
  {
    WriteSalt(p, salt, FillPadding(p, 0xffffffff, p.saltBlockLen))
  }

  method StoreAt(data: array<byte>, at: nat, length: nat, j: nat, octet: byte)
    requires j < length && at + length <= data.Length
    modifies data
    ensures Slice(data, at, length) == old(Slice(data, at, length))[j := octet]
    ensures OnlySlice(data, at, length)
  {
    data[at + j] := octet;
  }

  /** The loop of writeSaltBlock: value i goes to the position the shuffle gives i. */
  method ScatterInPlace(perm: seq<byte>, values: seq<byte>, data: array<byte>, at: nat, length: nat)
    requires |perm| == length && Positions(perm) && |values| <= length && at + length <= data.Length
    modifies data
    ensures Slice(data, at, length) == Scatter(perm, values, old(Slice(data, at, length)), |values|)
    ensures OnlySlice(data, at, length)
  {
    hide Slice;
    ghost var before := Slice(data, at, length);
    for i := 0 to |values|
      invariant Slice(data, at, length) == Scatter(perm, values, before, i)
      invariant OnlySlice(data, at, length)
    {
      StoreAt(data, at, length, perm[i], values[i]);
    }
  }

  /** writeSaltBlock on block := data[at..at + length], in place. */
  method WriteSaltBlock(p: Shape, salt: seq<byte>, data: array<byte>, at: nat, length: nat)
    requires |salt| == SALT_LEN <= length <= 256 && at + length <= data.Length
    modifies data
    ensures Slice(data, at, length) == WriteSalt(p, salt, old(Slice(data, at, length)))
    ensures OnlySlice(data, at, length)
  {
    hide Slice, Scatter, SaltMask, Masked, ShufflePerm;
    var perm := ComputeShufflePerm(p.prf, p.mixRoundsHandshake, length);
    assert perm[..] == HandshakePerm(p, length);
    ScatterInPlace(perm[..], Masked(p, salt), data, at, length);
  }

  /** The loop of extractSalt, before the masks come off. */
  method GatherValues(perm: seq<byte>, block: seq<byte>, n: nat) returns (values: seq<byte>)
    requires |perm| == |block| && Positions(perm) && n <= |block|
    ensures values == Gather(perm, block, n)
  {
    values := [];
    for i := 0 to n
      invariant values == Gather(perm, block, i)
    {
      values := values + [block[perm[i]]];
    }
  }

  /** extractSalt. */
  method ComputeExtractSalt(p: Shape, block: seq<byte>) returns (salt: seq<byte>)
    requires SALT_LEN <= |block| <= 256
    ensures salt == ExtractSalt(p, block)
  {
    var perm := ComputeShufflePerm(p.prf, p.mixRoundsHandshake, |block|);
    assert perm[..] == HandshakePerm(p, |block|);
    hide SaltMask, ShufflePerm, Gather;
    var values := GatherValues(perm[..], block, SALT_LEN);
    salt := Masked(p, values);
  }
}
