/**
 The authenticated cipher, known only by its laws: opening what was sealed under the
 same nonce and associated data gives the plaintext back, and what is sealed is 16
 octets longer than what was there before. Key derivation (Argon2id) and AES-GCM are not modelled;
 every theorem holds for all ciphers that obey these laws.
 */
module Aead {
  import opened Bytes

  const TAG_LEN := 16

  datatype CipherFunctions = CipherFunctions(
    seal: (seq<byte>, seq<byte>, seq<byte>) -> seq<byte>,        // nonce, associated data, plaintext
    open: (seq<byte>, seq<byte>, seq<byte>) -> Option<seq<byte>> // nonce, associated data, ciphertext
  )

  ghost predicate Lawful(c: CipherFunctions) {
    && (forall nonce, aad, plain ::
          && |c.seal(nonce, aad, plain)| == |plain| + TAG_LEN
          && c.open(nonce, aad, c.seal(nonce, aad, plain)) == Some(plain))
    && (forall nonce, aad, sealed ::
          c.open(nonce, aad, sealed).Some? ==> |sealed| == |c.open(nonce, aad, sealed).value| + TAG_LEN)
  }

  /** A cipher that obeys the laws exists: a constant tag behind the plaintext. */
  function ConstantTag(): (c: CipherFunctions)
    ensures Lawful(c)
  {
    CipherFunctions(
      (nonce, aad, plain) => plain + Zeros(TAG_LEN),
      (nonce, aad, sealed) => if |sealed| < TAG_LEN then None else Some(sealed[..|sealed| - TAG_LEN]))
  }

  type Cipher = c: CipherFunctions | Lawful(c) ghost witness ConstantTag()

  /** Key derivation: one cipher for every salt (the pre-shared key is fixed). */
  type Keyed = seq<byte> -> Cipher
}
