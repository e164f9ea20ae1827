/**
 Octets, the fixed-width unsigned integers of the source, and the few byte-string
 helpers every other module uses. Go's int is wide enough never to wrap here, so it
 is modelled by int; uint8, uint16 and uint32 are modelled with explicit bounds.
 */
module Bytes {
  type byte = b: int | 0 <= b < 256
  type uint16 = n: int | 0 <= n < 0x1_0000
  type uint32 = n: int | 0 <= n < 0x1_0000_0000

  datatype Option<+T> = None | Some(value: T)

  function Min(a: int, b: int): int { if a < b then a else b }

  function Max(a: int, b: int): int { if a < b then b else a }

  function Zeros(n: nat): (s: seq<byte>)
    ensures |s| == n
  {
    seq(n, i => 0)
  }

  /** Big-endian uint16(n): the high bits of a larger number are cut off. */
  function Be16(n: nat): (s: seq<byte>)
    ensures |s| == 2
  {
    [n / 256 % 256, n % 256]
  }

  function FromBe16(s: seq<byte>, at: nat): uint16
    requires at + 2 <= |s|
  {
    s[at] as int * 256 + s[at + 1] as int
  }

  /** Reading a big-endian pair back gives the number, cut to 16 bits. */
  lemma Be16RoundTrip(n: nat)
    ensures FromBe16(Be16(n), 0) == n % 0x1_0000
  {
    assert n == 256 * (n / 256) + n % 256;
    assert n / 256 == 256 * (n / 256 / 256) + n / 256 % 256;
  }

  /** Exclusive or of the k low bits. */
  function XorBits(a: nat, b: nat, k: nat): nat
    decreases k
  {
    if k == 0 then 0 else (a % 2 + b % 2) % 2 + 2 * XorBits(a / 2, b / 2, k - 1)
  }

  function TwoTo(k: nat): (p: nat)
    ensures p > 0
  {
    if k == 0 then 1 else 2 * TwoTo(k - 1)
  }

  lemma XorBitsBound(a: nat, b: nat, k: nat)
    ensures XorBits(a, b, k) < TwoTo(k)
  {
  }

  lemma BitBelow(bit: nat, y: nat)
    requires bit < 2
    ensures (bit + 2 * y) % 2 == bit && (bit + 2 * y) / 2 == y
  {
  }

  lemma {:induction false} XorBitsCancel(m: nat, s: nat, k: nat)
    requires s < TwoTo(k)
    ensures XorBits(m, XorBits(m, s, k), k) == s
  {
    if k > 0 {
      XorBitsCancel(m / 2, s / 2, k - 1);
      BitBelow((m % 2 + s % 2) % 2, XorBits(m / 2, s / 2, k - 1));
    }
  }

  function Xor(a: byte, b: byte): byte
  {
    XorBitsBound(a, b, 8);
    assert TwoTo(8) == 256 by { assert TwoTo(4) == 16; }
    XorBits(a, b, 8)
  }

  /** Applying the same mask twice gives the octet back. */
  lemma XorCancel(m: byte, s: byte)
    ensures Xor(m, Xor(m, s)) == s
  {
    assert TwoTo(8) == 256 by { assert TwoTo(4) == 16; }
    XorBitsCancel(m, s, 8);
  }

  lemma {:induction false} XorBitsCommute(a: nat, b: nat, k: nat)
    ensures XorBits(a, b, k) == XorBits(b, a, k)
  {
    if k > 0 {
      XorBitsCommute(a / 2, b / 2, k - 1);
    }
  }

  /** Which of the two is the mask makes no difference. */
  lemma XorCommutes(a: byte, b: byte)
    ensures Xor(a, b) == Xor(b, a)
  {
    XorBitsCommute(a, b, 8);
  }

  function Concat<T>(parts: seq<seq<T>>): seq<T>
  {
    if parts == [] then [] else parts[0] + Concat(parts[1..])
  }

  lemma Assoc<T>(a: seq<T>, b: seq<T>, c: seq<T>)
    ensures a + (b + c) == (a + b) + c
  {
  }

  lemma TailAppend<T>(a: seq<T>, b: seq<T>)
    requires a != []
    ensures a + b != [] && (a + b)[0] == a[0] && (a + b)[1..] == a[1..] + b
  {
  }

  lemma SplitAppend<T>(a: seq<T>, b: seq<T>)
    ensures (a + b)[..|a|] == a && (a + b)[|a|..] == b
  {
  }

  lemma AppendNothing<T>(a: seq<T>)
    ensures a + [] == a && [] + a == a
  {
  }

  lemma {:induction false} ConcatAppend<T>(a: seq<seq<T>>, b: seq<seq<T>>)
    ensures Concat(a + b) == Concat(a) + Concat(b)
  {
    if a == [] {
      AppendNothing(b);
    } else {
      ConcatAppend(a[1..], b);
      TailAppend(a, b);
      Assoc(a[0], Concat(a[1..]), Concat(b));
    }
  }

  // ------------------------------------------------------------ regions of a buffer

  /** data[at:at+n], as a value. */
  function Slice(data: array<byte>, at: nat, n: nat): (s: seq<byte>)
    requires at + n <= data.Length
    reads data
    ensures |s| == n
  {
    data[at..at + n]
  }

  /** Nothing outside data[at:at+n] has changed. */
  twostate predicate OnlySlice(data: array<byte>, at: nat, n: nat)
    reads data
  {
    forall k :: 0 <= k < data.Length && !(at <= k < at + n) ==> data[k] == old(data[k])
  }

  lemma SliceJoin(data: array<byte>, at: nat, n: nat, m: nat)
    requires at + n + m <= data.Length
    ensures Slice(data, at, n + m) == Slice(data, at, n) + Slice(data, at + n, m)
  {
  }

  /** copy(data[at:], s): how the codecs move octets into a buffer. */
  method Put(data: array<byte>, at: nat, s: seq<byte>)
    requires at + |s| <= data.Length
    modifies data
    ensures Slice(data, at, |s|) == s
    ensures OnlySlice(data, at, |s|)
  {
    var i := 0;
    while i < |s|
      invariant 0 <= i <= |s|
      invariant forall k :: 0 <= k < i ==> data[at + k] == s[k]
      invariant OnlySlice(data, at, |s|)
    {
      data[at + i] := s[i];
      i := i + 1;
    }
  }
}
