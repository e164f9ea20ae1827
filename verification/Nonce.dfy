/** The record nonce: a little-endian counter stepped in place (crypto.go). */
module Nonce {
  import opened Bytes

  const NONCE_LEN := 12

  /** The number a nonce stands for, least significant octet first. */
  function Value(n: seq<byte>): nat
  {
    if n == [] then 0 else n[0] + 256 * Value(n[1..])
  }

  function Modulus(len: nat): (m: nat)
    ensures m > 0
  {
    if len == 0 then 1 else 256 * Modulus(len - 1)
  }

  function Increase(n: seq<byte>): (r: seq<byte>)
    ensures |r| == |n|
  {
    if n == [] then []
    else if n[0] == 255 then [0] + Increase(n[1..])
    else [n[0] + 1] + n[1..]
  }

  function Advance(n: seq<byte>, steps: nat): (r: seq<byte>)
    ensures |r| == |n|
    decreases steps
  {
    if steps == 0 then n else Advance(Increase(n), steps - 1)
  }

  lemma {:induction false} ValueBound(n: seq<byte>)
    ensures Value(n) < Modulus(|n|)
  {
    if n != [] {
      ValueBound(n[1..]);
    }
  }

  /** The carry loop adds one, and wraps to zero only from the largest value. */
  lemma {:induction false} IncreaseIsSuccessor(n: seq<byte>)
    ensures Value(Increase(n)) == if Value(n) + 1 == Modulus(|n|) then 0 else Value(n) + 1
  {
    if n != [] {
      ValueBound(n[1..]);
      if n[0] == 255 {
        IncreaseIsSuccessor(n[1..]);
        assert Increase(n)[1..] == Increase(n[1..]);
      } else {
        assert Increase(n)[1..] == n[1..];
      }
    }
  }

  lemma {:induction false} AdvanceValue(n: seq<byte>, steps: nat)
    requires steps < Modulus(|n|)
    ensures Value(Advance(n, steps)) ==
            if Value(n) + steps < Modulus(|n|) then Value(n) + steps else Value(n) + steps - Modulus(|n|)
    decreases steps
  {
    ValueBound(n);
    if steps > 0 {
      AdvanceValue(Increase(n), steps - 1);
      IncreaseIsSuccessor(n);
    }
  }

  lemma {:induction false} AdvanceAdd(n: seq<byte>, a: nat, b: nat)
    ensures Advance(Advance(n, a), b) == Advance(n, a + b)
    decreases a
  {
    if a > 0 {
      AdvanceAdd(Increase(n), a - 1, b);
    }
  }

  /** Fewer than 256^|n| steps apart, two nonces of one stream differ. */
  lemma NoncesDistinct(n: seq<byte>, i: nat, j: nat)
    requires i < j < i + Modulus(|n|)
    ensures Advance(n, i) != Advance(n, j)
  {
    AdvanceAdd(n, i, j - i);
    AdvanceValue(Advance(n, i), j - i);
    ValueBound(Advance(n, i));
  }

  /** IncreaseNonce: the loop stops at the first octet that did not wrap. */
  method IncreaseNonce(nonce: array<byte>)
    modifies nonce
    ensures nonce[..] == Increase(old(nonce[..]))
  {
    var index := 0;
    while index < nonce.Length
      invariant 0 <= index <= nonce.Length
      invariant forall k :: 0 <= k < index ==> old(nonce[k]) == 255
      invariant forall k :: 0 <= k < index ==> nonce[k] == 0
      invariant forall k :: index <= k < nonce.Length ==> nonce[k] == old(nonce[k])
    {
      nonce[index] := (nonce[index] as int + 1) % 256;
      if nonce[index] != 0 {
        CarryStops(old(nonce[..]), nonce[..], index);
        return;
      }
      index := index + 1;
    }
    AllCarry(old(nonce[..]), nonce[..]);
  }

  lemma {:induction false} CarryStops(before: seq<byte>, after: seq<byte>, index: nat)
    requires |after| == |before| && index < |before| && before[index] < 255
    requires forall k :: 0 <= k < index ==> before[k] == 255 && after[k] == 0
    requires after[index] == before[index] + 1
    requires forall k :: index < k < |before| ==> after[k] == before[k]
    ensures after == Increase(before)
    decreases index
  {
    if index > 0 {
      CarryStops(before[1..], after[1..], index - 1);
      assert after == [0] + after[1..];
    }
  }

  lemma {:induction false} AllCarry(before: seq<byte>, after: seq<byte>)
    requires |after| == |before|
    requires forall k :: 0 <= k < |before| ==> before[k] == 255 && after[k] == 0
    ensures after == Increase(before)
  {
    if before != [] {
      AllCarry(before[1..], after[1..]);
      assert after == [0] + after[1..];
    }
  }
}
