/**
 The two-generation Bloom filter that recognises replayed salts (snellv5/server.go). The hash
 is any function of data and seed, and the filter's size, which the source computes in
 floating point, is any size.
 */
module SaltReplay {
  import opened Bytes

  const GENERATION_SIZE := 500000
  const DEFAULT_SEED: uint32 := 0x9747_b28c

  type Salt = seq<byte>

  datatype Hashing = Hashing(hash: (seq<byte>, uint32) -> uint32, bitCount: uint32, hashCount: nat)

  predicate Usable(h: Hashing) { h.bitCount > 0 }

  // ------------------------------------------------------------ the filters as sets of bits

  /** The hash value of the k-th probe: additions of the step, wrapped to 32 bits. */
  function HashAt(first: uint32, step: uint32, k: nat): uint32
  {
    if k == 0 then first else (HashAt(first, step, k - 1) as int + step as int) % 0x1_0000_0000
  }

  function FirstHash(h: Hashing, salt: Salt): uint32 { h.hash(salt, DEFAULT_SEED) }

  function HashStep(h: Hashing, salt: Salt): uint32 { h.hash(salt, FirstHash(h, salt)) }

  function Probe(h: Hashing, salt: Salt, k: nat): (i: nat)
    requires Usable(h)
    ensures i < h.bitCount
  {
    HashAt(FirstHash(h, salt), HashStep(h, salt), k) % h.bitCount
  }

  function Probes(h: Hashing, salt: Salt, n: nat): set<nat>
    requires Usable(h)
  {
    set k | 0 <= k < n :: Probe(h, salt, k)
  }

  predicate Covers(h: Hashing, bits: set<nat>, salt: Salt)
    requires Usable(h)
  {
    Probes(h, salt, h.hashCount) <= bits
  }

  /** The generation in use, its count, and both generations' bits; the other count is always zero. */
  datatype Memory = Memory(current: nat, count: nat, now: set<nat>, before: set<nat>)

  function NewMemory(): Memory { Memory(0, 0, {}, {}) }

  /** CheckAndAdd: whether the salt is taken for a duplicate, and the memory afterwards. */
  function Check(h: Hashing, m: Memory, salt: Salt): (bool, Memory)
    requires Usable(h)
  {
    if Covers(h, m.now, salt) || Covers(h, m.before, salt) then (true, m)
    else
      var now := m.now + Probes(h, salt, h.hashCount);
      if m.count + 1 >= GENERATION_SIZE then (false, Memory((m.current + 1) % 2, 0, {}, now))
      else (false, m.(count := m.count + 1, now := now))
  }

  function CheckAll(h: Hashing, m: Memory, salts: seq<Salt>): (seq<bool>, Memory)
    requires Usable(h)
    ensures |CheckAll(h, m, salts).0| == |salts|
    decreases |salts|
  {
    if salts == [] then ([], m)
    else
      var (duplicate, after) := Check(h, m, salts[0]);
      var (others, end) := CheckAll(h, after, salts[1..]);
      ([duplicate] + others, end)
  }

  /** How many of these answers accepted their salt. */
  function Accepted(duplicates: seq<bool>): nat
  {
    if duplicates == [] then 0 else (if duplicates[0] then 0 else 1) + Accepted(duplicates[1..])
  }

  /** Where a salt accepted age acceptances ago is kept. */
  predicate Keeps(h: Hashing, m: Memory, salt: Salt, age: nat)
    requires Usable(h)
  {
    && m.count < GENERATION_SIZE
    && (age < m.count ==> Covers(h, m.now, salt))
    && (m.count <= age < m.count + GENERATION_SIZE ==> Covers(h, m.before, salt))
  }

  lemma AcceptedIsKept(h: Hashing, m: Memory, salt: Salt)
    requires Usable(h) && m.count < GENERATION_SIZE && !Check(h, m, salt).0
    ensures Keeps(h, Check(h, m, salt).1, salt, 0)
  {
  }

  /** Bits are cleared only when everything they stood for is a full generation old. */
  lemma StillKept(h: Hashing, m: Memory, salt: Salt, age: nat, other: Salt)
    requires Usable(h) && Keeps(h, m, salt, age)
    ensures var (duplicate, after) := Check(h, m, other); Keeps(h, after, salt, if duplicate then age else age + 1)
  {
  }

  lemma {:induction false} KeptThrough(h: Hashing, m: Memory, salt: Salt, age: nat, others: seq<Salt>)
    requires Usable(h) && Keeps(h, m, salt, age)
    ensures var (answers, after) := CheckAll(h, m, others); Keeps(h, after, salt, age + Accepted(answers))
    decreases |others|
  {
    if others != [] {
      hide Keeps, Check;
      StillKept(h, m, salt, age, others[0]);
      var (duplicate, after) := Check(h, m, others[0]);
      KeptThrough(h, after, salt, if duplicate then age else age + 1, others[1..]);
      var (answers, end) := CheckAll(h, after, others[1..]);
      SplitAppend([duplicate], answers);
    }
  }

  lemma {:induction false} CheckAllAppend(h: Hashing, m: Memory, a: seq<Salt>, b: seq<Salt>)
    requires Usable(h)
    ensures var (first, between) := CheckAll(h, m, a);
            var (second, end) := CheckAll(h, between, b);
            CheckAll(h, m, a + b) == (first + second, end)
    decreases |a|
  {
    hide Check;
    if a == [] {
      AppendNothing(b);
      AppendNothing(CheckAll(h, m, b).0);
    } else {
      TailAppend(a, b);
      var (duplicate, after) := Check(h, m, a[0]);
      CheckAllAppend(h, after, a[1..], b);
      var (first, between) := CheckAll(h, after, a[1..]);
      Assoc([duplicate], first, CheckAll(h, between, b).0);
    }
  }

  lemma {:induction false} CountStaysSmall(h: Hashing, m: Memory, salts: seq<Salt>)
    requires Usable(h) && m.count < GENERATION_SIZE
    ensures CheckAll(h, m, salts).1.count < GENERATION_SIZE
    decreases |salts|
  {
    if salts != [] {
      hide Covers;
      CountStaysSmall(h, Check(h, m, salts[0]).1, salts[1..]);
    }
  }

  /**
   No salt is forgotten inside the window: whatever was checked before, if a salt is
   accepted and comes again when fewer than 500000 others have been accepted since, it is
   reported as a duplicate.
   */
  lemma NeverForgotten(h: Hashing, earlier: seq<Salt>, salt: Salt, between: seq<Salt>)
    requires Usable(h)
    ensures var (_, m) := CheckAll(h, NewMemory(), earlier);
            var (duplicate, after) := Check(h, m, salt);
            var (answers, end) := CheckAll(h, after, between);
            && CheckAll(h, NewMemory(), earlier + ([salt] + (between + [salt]))).0 ==
               CheckAll(h, NewMemory(), earlier).0 + ([duplicate] + (answers + [Check(h, end, salt).0]))
            && (!duplicate && Accepted(answers) < GENERATION_SIZE ==> Check(h, end, salt).0)
  {
    hide Check, Covers;
    CountStaysSmall(h, NewMemory(), earlier);
    var (_, m) := CheckAll(h, NewMemory(), earlier);
    var (duplicate, after) := Check(h, m, salt);
    var (answers, end) := CheckAll(h, after, between);
    CheckAllAppend(h, NewMemory(), earlier, [salt] + (between + [salt]));
    CheckAllAppend(h, m, [salt], between + [salt]);
    CheckAllAppend(h, after, between, [salt]);
    CheckOne(h, m, salt);
    CheckOne(h, end, salt);
    if !duplicate {
      AcceptedIsKept(h, m, salt);
      KeptThrough(h, after, salt, 0, between);
      if Accepted(answers) < GENERATION_SIZE {
        KeptIsFound(h, end, salt, Accepted(answers));
      }
    }
  }

  lemma CheckOne(h: Hashing, m: Memory, salt: Salt)
    requires Usable(h)
    ensures CheckAll(h, m, [salt]) == ([Check(h, m, salt).0], Check(h, m, salt).1)
  {
    hide Check;
    AppendNothing([Check(h, m, salt).0]);
  }

  lemma KeptIsFound(h: Hashing, m: Memory, salt: Salt, age: nat)
    requires Usable(h) && Keeps(h, m, salt, age) && age < GENERATION_SIZE
    ensures Check(h, m, salt).0
  {
  }

  // ------------------------------------------------------------ exactly which salts are remembered

  /** The k-th probe's hash value in closed form. */
  lemma {:induction false} HashAtIs(first: uint32, step: uint32, k: nat)
    ensures HashAt(first, step, k) as int == (first as int + k * step) % 0x1_0000_0000
  {
    if k > 0 {
      HashAtIs(first, step, k - 1);
      NextMultiple(first, step, k);
      assert HashAt(first, step, k) as int == (HashAt(first, step, k - 1) as int + step as int) % 0x1_0000_0000;
    }
  }

  lemma NextMultiple(first: nat, step: nat, k: nat)
    requires k > 0
    ensures ((first + (k - 1) * step) % 0x1_0000_0000 + step) % 0x1_0000_0000 == (first + k * step) % 0x1_0000_0000
  {
    assert (k - 1) * step + step == k * step;
    WrapTwice(first + (k - 1) * step, step);
  }

  lemma WrapTwice(a: nat, b: nat)
    ensures (a % 0x1_0000_0000 + b) % 0x1_0000_0000 == (a + b) % 0x1_0000_0000
  {
  }

  /** The salts of a run that were accepted, in order. */
  function AcceptedSalts(h: Hashing, m: Memory, salts: seq<Salt>): seq<Salt>
    requires Usable(h)
    decreases |salts|
  {
    if salts == [] then []
    else
      var (duplicate, after) := Check(h, m, salts[0]);
      (if duplicate then [] else [salts[0]]) + AcceptedSalts(h, after, salts[1..])
  }

  function ProbesOf(h: Hashing, salts: seq<Salt>): set<nat>
    requires Usable(h)
  {
    if salts == [] then {} else ProbesOf(h, salts[..|salts| - 1]) + Probes(h, salts[|salts| - 1], h.hashCount)
  }

  /** How many of them belong to the generation in use. */
  function Recent(accepted: seq<Salt>): (n: nat)
    ensures n <= |accepted| && n < GENERATION_SIZE
  {
    |accepted| % GENERATION_SIZE
  }

  function ThisGeneration(accepted: seq<Salt>): seq<Salt> { accepted[|accepted| - Recent(accepted)..] }

  /** The full generation before that, if there is one. */
  function LastGeneration(accepted: seq<Salt>): seq<Salt>
  {
    var full := |accepted| - Recent(accepted);
    accepted[Max(0, full - GENERATION_SIZE)..full]
  }

  /** The memory is what the accepted salts make it. */
  ghost predicate Remembers(h: Hashing, m: Memory, accepted: seq<Salt>)
    requires Usable(h)
  {
    && m.count == Recent(accepted) && m.current == |accepted| / GENERATION_SIZE % 2
    && m.now == ProbesOf(h, ThisGeneration(accepted)) && m.before == ProbesOf(h, LastGeneration(accepted))
  }

  lemma NextCount(n: nat)
    ensures if n % GENERATION_SIZE + 1 == GENERATION_SIZE then
              (n + 1) % GENERATION_SIZE == 0 && (n + 1) / GENERATION_SIZE == n / GENERATION_SIZE + 1
              && n + 1 >= GENERATION_SIZE
            else
              (n + 1) % GENERATION_SIZE == n % GENERATION_SIZE + 1
              && (n + 1) / GENERATION_SIZE == n / GENERATION_SIZE
  {
  }

  /** One more salt accepted: it joins its generation, which may be full with it. */
  lemma GenerationsNext(accepted: seq<Salt>, salt: Salt)
    ensures var all := accepted + [salt];
            if Recent(accepted) + 1 == GENERATION_SIZE then
              ThisGeneration(all) == [] && LastGeneration(all) == ThisGeneration(accepted) + [salt]
            else
              && ThisGeneration(all) == ThisGeneration(accepted) + [salt]
              && LastGeneration(all) == LastGeneration(accepted)
  {
    NextCount(|accepted|);
    var all := accepted + [salt];
    var full := |accepted| - Recent(accepted);
    assert all[full..] == accepted[full..] + [salt];
    assert all[Max(0, full - GENERATION_SIZE)..full] == accepted[Max(0, full - GENERATION_SIZE)..full];
  }

  lemma ProbesOfOneMore(h: Hashing, salts: seq<Salt>, salt: Salt)
    requires Usable(h)
    ensures ProbesOf(h, salts + [salt]) == ProbesOf(h, salts) + Probes(h, salt, h.hashCount)
  {
    assert (salts + [salt])[..|salts|] == salts;
  }

  lemma CheckRemembers(h: Hashing, m: Memory, accepted: seq<Salt>, salt: Salt)
    requires Usable(h) && Remembers(h, m, accepted)
    ensures var (duplicate, after) := Check(h, m, salt);
            Remembers(h, after, if duplicate then accepted else accepted + [salt])
  {
    hide Probes, ThisGeneration, LastGeneration;
    NextCount(|accepted|);
    GenerationsNext(accepted, salt);
    ProbesOfOneMore(h, ThisGeneration(accepted), salt);
  }

  lemma {:induction false} RunRemembers(h: Hashing, m: Memory, accepted: seq<Salt>, salts: seq<Salt>)
    requires Usable(h) && Remembers(h, m, accepted)
    ensures Remembers(h, CheckAll(h, m, salts).1, accepted + AcceptedSalts(h, m, salts))
    decreases |salts|
  {
    hide Remembers, Check;
    if salts == [] {
      AppendNothing(accepted);
    } else {
      CheckRemembers(h, m, accepted, salts[0]);
      var (duplicate, after) := Check(h, m, salts[0]);
      var more := if duplicate then [] else [salts[0]];
      AppendNothing(accepted);
      RunRemembers(h, after, accepted + more, salts[1..]);
      Assoc(accepted, more, AcceptedSalts(h, after, salts[1..]));
    }
  }

  lemma NothingRemembered(h: Hashing)
    requires Usable(h)
    ensures Remembers(h, NewMemory(), [])
  {
  }

  /**
   Whatever was checked before, a salt is refused if and only if its probes all fall on those
   of the generation in use, or all on those of the full generation before it. Everything
   older is forgotten.
   */
  lemma RefusedIff(h: Hashing, earlier: seq<Salt>, salt: Salt)
    requires Usable(h)
    ensures var accepted := AcceptedSalts(h, NewMemory(), earlier);
            Check(h, CheckAll(h, NewMemory(), earlier).1, salt).0 <==>
            || Probes(h, salt, h.hashCount) <= ProbesOf(h, ThisGeneration(accepted))
            || Probes(h, salt, h.hashCount) <= ProbesOf(h, LastGeneration(accepted))
  {
    hide ThisGeneration, LastGeneration, Probes;
    NothingRemembered(h);
    RunRemembers(h, NewMemory(), [], earlier);
    AppendNothing(AcceptedSalts(h, NewMemory(), earlier));
  }

  /** A fresh cache takes every salt, unless it never looks at a bit. */
  lemma FreshAcceptsIff(h: Hashing, salt: Salt)
    requires Usable(h)
    ensures Check(h, NewMemory(), salt).0 <==> h.hashCount == 0
  {
    if h.hashCount > 0 {
      ProbeIn(h, salt, 0, h.hashCount);
    } else {
      NoProbes(h, salt);
    }
  }

  // ------------------------------------------------------------ the program

  function Mask(k: nat): bv8
    requires k < 8
  {
    1 << k
  }

  predicate Get(b: bv8, k: nat)
    requires k < 8
  {
    b & Mask(k) != 0
  }

  function Set(b: bv8, k: nat): bv8
    requires k < 8
  {
    b | Mask(k)
  }

  /** Setting one bit of an octet sets that one and no other. */
  lemma SetGet(b: bv8, k: nat, j: nat)
    requires k < 8 && j < 8
    ensures Get(Set(b, k), j) <==> j == k || Get(b, j)
  {
    MaskIs(k);
    MaskIs(j);
  }

  lemma MaskIs(k: nat)
    requires k < 8
    ensures Mask(k) == if k == 0 then 1 else if k == 1 then 2 else if k == 2 then 4 else if k == 3 then 8
                       else if k == 4 then 16 else if k == 5 then 32 else if k == 6 then 64 else 128
  {
  }

  /** bits[i >> 3] & (1 << (i & 7)) != 0 */
  predicate Bit(octets: seq<bv8>, i: nat)
    requires i / 8 < |octets|
  {
    Get(octets[i / 8], i % 8)
  }

  function BitSet(octets: seq<bv8>, n: nat): set<nat>
    requires n <= 8 * |octets|
  {
    set i | 0 <= i < n && Bit(octets, i)
  }

  lemma BitAfter(octets: seq<bv8>, after: seq<bv8>, i: nat, j: nat)
    requires i / 8 < |octets| == |after| && j / 8 < |octets|
    requires after == octets[i / 8 := Set(octets[i / 8], i % 8)]
    ensures Bit(after, j) <==> Bit(octets, j) || j == i
  {
    hide Get, Set;
    if j / 8 == i / 8 {
      SetGet(octets[i / 8], i % 8, j % 8);
    }
  }

  lemma BitSetNext(octets: seq<bv8>, after: seq<bv8>, n: nat, i: nat)
    requires n <= 8 * |octets| && i < n && i / 8 < |octets| == |after|
    requires after == octets[i / 8 := Set(octets[i / 8], i % 8)]
    ensures BitSet(after, n) == BitSet(octets, n) + {i}
  {
    hide Set, Bit;
    forall j | 0 <= j < n ensures j / 8 < |octets| && (Bit(after, j) <==> Bit(octets, j) || j == i) {
      BitAfter(octets, after, i, j);
    }
  }

  class Bloom {
    const h: Hashing
    const bits: array<bv8>

    predicate Valid() { Usable(h) && bits.Length == (h.bitCount + 7) / 8 }

    ghost function State(): set<nat>
      requires Valid()
      reads bits
    {
      BitSet(bits[..], h.bitCount)
    }

    constructor (h: Hashing)
      requires Usable(h)
      ensures Valid() && this.h == h && fresh(bits) && State() == {}
    {
      this.h := h;
      bits := new bv8[(h.bitCount + 7) / 8](i => 0);
      new;
      assert forall i :: 0 <= i < h.bitCount ==> !Bit(bits[..], i);
    }

    method Contains(salt: Salt) returns (found: bool)
      requires Valid()
      ensures found <==> Covers(h, State(), salt)
    {
      hide BitSet, Probes, Get;
      NoProbes(h, salt);
      var first := h.hash(salt, DEFAULT_SEED);
      var step := h.hash(salt, first);
      var hashValue, index := first, 0;
      while index < h.hashCount
        invariant 0 <= index <= h.hashCount && hashValue == HashAt(first, step, index)
        invariant Probes(h, salt, index) <= State()
      {
        var bitIndex := hashValue % h.bitCount;
        assert bitIndex == Probe(h, salt, index);
        InBitSet(bits[..], h.bitCount, bitIndex);
        if !Get(bits[bitIndex / 8], bitIndex % 8) {
          ProbeIn(h, salt, index, h.hashCount);
          return false;
        }
        ProbesNext(h, salt, index);
        hashValue := (hashValue as int + step as int) % 0x1_0000_0000;
        index := index + 1;
      }
      found := true;
    }

    method SetBit(i: nat)
      requires Valid() && i < h.bitCount
      modifies bits
      ensures State() == old(State()) + {i}
    {
      hide Set, Bit;
      ghost var before := bits[..];
      bits[i / 8] := Set(bits[i / 8], i % 8);
      BitSetNext(before, bits[..], h.bitCount, i);
    }

    method Add(salt: Salt)
      requires Valid()
      modifies bits
      ensures State() == old(State()) + Probes(h, salt, h.hashCount)
    {
      hide BitSet, Probes;
      NoProbes(h, salt);
      var first := h.hash(salt, DEFAULT_SEED);
      var step := h.hash(salt, first);
      var hashValue, index := first, 0;
      while index < h.hashCount
        invariant 0 <= index <= h.hashCount && hashValue == HashAt(first, step, index)
        invariant State() == old(State()) + Probes(h, salt, index)
      {
        var bitIndex := hashValue % h.bitCount;
        assert bitIndex == Probe(h, salt, index);
        SetBit(bitIndex);
        ProbesNext(h, salt, index);
        hashValue := (hashValue as int + step as int) % 0x1_0000_0000;
        index := index + 1;
      }
    }

    method Clear()
      requires Valid()
      modifies bits
      ensures State() == {}
    {
      forall i | 0 <= i < bits.Length { bits[i] := 0; }
      assert forall i :: 0 <= i < h.bitCount ==> !Bit(bits[..], i);
    }
  }

  lemma InBitSet(octets: seq<bv8>, n: nat, i: nat)
    requires n <= 8 * |octets| && i < n
    ensures i in BitSet(octets, n) <==> Bit(octets, i)
  {
  }

  lemma ProbeIn(h: Hashing, salt: Salt, k: nat, n: nat)
    requires Usable(h) && k < n
    ensures Probe(h, salt, k) in Probes(h, salt, n)
  {
  }

  lemma NoProbes(h: Hashing, salt: Salt)
    requires Usable(h)
    ensures Probes(h, salt, 0) == {}
  {
  }

  lemma ProbesNext(h: Hashing, salt: Salt, n: nat)
    requires Usable(h)
    ensures Probes(h, salt, n + 1) == Probes(h, salt, n) + {Probe(h, salt, n)}
  {
  }

  class Cache {
    const h: Hashing
    const first: Bloom
    const second: Bloom
    var current: nat
    var counts: (nat, nat)

    ghost predicate Valid()
      reads this
    {
      && Usable(h) && current <= 1
      && first.h == h && second.h == h && first.Valid() && second.Valid() && first.bits != second.bits
      && (if current == 0 then counts.1 else counts.0) == 0
    }

    ghost function State(): Memory
      requires Valid()
      reads this, first.bits, second.bits
    {
      if current == 0 then Memory(0, counts.0, first.State(), second.State())
      else Memory(1, counts.1, second.State(), first.State())
    }

    constructor (h: Hashing)
      requires Usable(h)
      ensures Valid() && this.h == h && State() == NewMemory() && fresh(first.bits) && fresh(second.bits)
    {
      this.h := h;
      first := new Bloom(h);
      second := new Bloom(h);
      current, counts := 0, (0, 0);
    }

    method CheckAndAdd(salt: Salt) returns (duplicate: bool)
      requires Valid()
      modifies this, first.bits, second.bits
      ensures Valid() && (duplicate, State()) == Check(h, old(State()), salt)
    {
      var a := first.Contains(salt);
      var b := second.Contains(salt);
      if a || b {
        return true;
      }
      if current == 0 {
        first.Add(salt);
        counts := (counts.0 + 1, counts.1);
        if counts.0 >= GENERATION_SIZE {
          counts := (0, counts.1);
          current := 1;
          second.Clear();
        }
      } else {
        second.Add(salt);
        counts := (counts.0, counts.1 + 1);
        if counts.1 >= GENERATION_SIZE {
          counts := (counts.0, 0);
          current := 0;
          first.Clear();
        }
      }
      duplicate := false;
    }
  }
}
