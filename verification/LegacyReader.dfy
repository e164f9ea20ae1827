/**
 The v4 and v5 record readers (snellv4/record.go, snellv5/record.go). A v4 reader reads the
 salt when it is first used; for v5 the server does so and makes the reader (snellv5/server.go).
 */
module LegacyReader {
  import opened Bytes
  import opened Aead
  import opened Nonce
  import opened Profile
  import opened ShapedCodec
  import opened LegacyCodec

  class Reader {
    const version: Version
    const keyed: Keyed
    var cipher: Option<Cipher>
    const nonce: array<byte>
    /** The octets the connection still has to give. */
    var upstream: seq<byte>

    function State(): LegacyReading
      reads this, nonce
    {
      LegacyReading(nonce[..], upstream)
    }

    function Receiving(): LegacyReceiving
      reads this, nonce
    {
      LegacyReceiving(cipher, State())
    }

    constructor (version: Version, keyed: Keyed, upstream: seq<byte>)
      ensures fresh(nonce) && this.version == version && this.keyed == keyed && Fresh()
      ensures Receiving() == LegacyReceiving(None, LegacyReading(Zeros(NONCE_LEN), upstream))
    {
      this.version, this.keyed, this.upstream, cipher := version, keyed, upstream, None;
      nonce := new byte[NONCE_LEN](i => 0);
      new;
      assert nonce[..] == Zeros(NONCE_LEN);
    }

    /** The nonce has not been used before there is a cipher. */
    predicate Fresh()
      reads this, nonce
    {
      cipher.None? ==> nonce[..] == Zeros(NONCE_LEN)
    }

    method Initialize() returns (stopped: Option<ReadResult>)
      requires Fresh()
      modifies `upstream, `cipher
      ensures Fresh() && (stopped.None? <==> cipher.Some?)
      ensures old(cipher).Some? ==> Receiving() == old(Receiving())
      ensures old(cipher).None? ==>
        && upstream == Drop(old(upstream), SALT_LEN)
        && match TakeFull(old(upstream), SALT_LEN)
           case Short(result) => stopped == Some(result) && cipher == None
           case Taken(salt) => cipher == Some(keyed(salt))
    {
      stopped := None;
      if cipher.None? {
        var salt := ReadFull(SALT_LEN);
        if salt.Short? {
          return Some(salt.result);
        }
        cipher := Some(keyed(salt.data));
      }
    }

    method ReadFull(n: nat) returns (t: Taken)
      modifies `upstream
      ensures t == TakeFull(old(upstream), n) && upstream == Drop(old(upstream), n)
    {
      t := TakeFull(upstream, n);
      upstream := Drop(upstream, n);
    }

    /** Padding and payload, exchanged back in a buffer and opened. */
    method ReadBody(k: Cipher, paddingLen: nat, payloadLen: nat) returns (result: ReadResult)
      modifies `upstream, nonce
      ensures (result, State()) == ReadPayload(k, old(State()), paddingLen, payloadLen)
    {
      hide EvenSwapped, Increase;
      var padding := [];
      if paddingLen > 0 {
        var t := ReadFull(paddingLen);
        if t.Short? {
          return t.result;
        }
        padding := t.data;
      }
      var body := ReadFull(payloadLen + TAG_LEN);
      if body.Short? {
        return body.result;
      }
      var cipher := Unswap(padding, body.data);
      var data := k.open(nonce[..], [], cipher);
      if data.None? {
        return Failed(PayloadTag);
      }
      IncreaseNonce(nonce);
      result := Payload(data.value);
    }

    method ReadRecordWith(k: Cipher, buffered: nat) returns (result: ReadResult)
      modifies `upstream, nonce
      ensures (result, State()) == ReadPiece(version, k, old(State()), buffered)
    {
      hide EvenSwapped, Increase, ReadPayload;
      var head := ReadFull(HEADER_CIPHER_LEN);
      if head.Short? {
        return head.result;
      }
      var header := k.open(nonce[..], [], head.data);
      if header.None? {
        return Failed(HeaderTag);
      }
      IncreaseNonce(nonce);
      if header.value[0] != HEADER_VERSION {
        return Failed(BadVersion(header.value[0]));
      }
      var paddingLen, payloadLen := FromBe16(header.value, 3), FromBe16(header.value, 5);
      if payloadLen == 0 {
        return if version.V4? && buffered > 0 then Failed(TrailingData) else EndOfStream;
      }
      result := ReadBody(k, paddingLen, payloadLen);
    }

    /** buffered is how many octets behind the header have already arrived; only v4 asks. */
    method ReadRecord(buffered: nat) returns (result: ReadResult)
      requires Fresh()
      modifies `upstream, `cipher, nonce
      ensures Fresh() && (result, Receiving()) == ReadLegacy(version, keyed, old(Receiving()), buffered)
    {
      hide ReadPiece;
      var stopped := Initialize();
      if stopped.Some? {
        return stopped.value;
      }
      result := ReadRecordWith(cipher.value, buffered);
    }
  }

  /** The payload's even octets taken back from the padding. */
  method Unswap(padding: seq<byte>, body: seq<byte>) returns (cipher: seq<byte>)
    ensures cipher == EvenSwapped(body, padding)
  {
    hide EvenSwapped;
    var data := new byte[|padding| + |body|](i => 0);
    Put(data, 0, padding);
    ghost var p := Slice(data, 0, |padding|);
    Put(data, |padding|, body);
    assert Slice(data, 0, |padding|) == p;
    SwapEven(data, 0, |padding|, |body|);
    cipher := data[|padding|..];
    assert cipher == Slice(data, |padding|, |body|);
  }
}
