/** The v6 stream reader and its entry points (snellv6/shaped.go, baseReader in snellv6/record.go). */
module ShapedReader {
  import opened Bytes
  import opened Aead
  import opened Nonce
  import opened Profile
  import opened SaltBlock
  import opened Mixing
  import opened ShapedCodec
  import opened ShapedStream

  class ShapedReader {
    const c: Codec
    const nonce: array<byte>
    /** The octets the connection still has to give. */
    var upstream: seq<byte>
    var cipher: Option<Cipher>
    var seqNo: uint32
    var cache: Option<seq<byte>>

    function State(): Reading
      reads this, nonce
    {
      Reading(cipher, seqNo, nonce[..], upstream)
    }

    function Holding(): Cached
      reads this, nonce
    {
      Cached(cache, State())
    }

    constructor (c: Codec, upstream: seq<byte>)
      ensures fresh(nonce) && this.c == c
      ensures Holding() == Cached(None, Reading(None, 0, Zeros(NONCE_LEN), upstream))
    {
      this.c, this.upstream := c, upstream;
      nonce := new byte[NONCE_LEN](i => 0);
      cipher, seqNo, cache := None, 0, None;
      new;
      assert nonce[..] == Zeros(NONCE_LEN);
    }

    method ReadFull(n: nat) returns (t: Taken)
      modifies this`upstream
      ensures t == TakeFull(old(upstream), n) && upstream == Drop(old(upstream), n)
    {
      t := TakeFull(upstream, n);
      upstream := Drop(upstream, n);
    }

    method Initialize() returns (stopped: Option<ReadResult>)
      modifies this`upstream, this`cipher
      ensures (stopped, State()) == OpenStream(c, old(State()))
    {
      hide ExtractSalt;
      stopped := None;
      if cipher.None? {
        var block := ReadFull(c.p.saltBlockLen);
        if block.Short? {
          return Some(block.result);
        }
        var salt := ComputeExtractSalt(c.p, block.data);
        cipher := Some(c.keyed(salt));
      }
    }

    method Header() returns (h: HeaderResult)
      requires cipher.Some?
      modifies this`upstream, this`seqNo, nonce
      ensures (h, State()) == ReadHeader(c, old(State()))
    {
      hide RecordPrefixLen, Increase;
      var prefixLen := RecordPrefixLen(c.p, seqNo);
      var head := ReadFull(prefixLen + HEADER_CIPHER_LEN);
      if head.Short? {
        return HeaderFailed(head.result);
      }
      var plain := cipher.value.open(nonce[..], head.data[..prefixLen], head.data[prefixLen..]);
      if plain.None? {
        return HeaderFailed(Failed(HeaderTag));
      }
      IncreaseNonce(nonce);
      var header := plain.value;
      if header[0] != HEADER_VERSION {
        return HeaderFailed(Failed(BadVersion(header[0])));
      }
      seqNo := (seqNo as int + 1) % 0x1_0000_0000;
      return HeaderResult.Header(FromBe16(header, 3), FromBe16(header, 5));
    }

    /** Undo the mixing on two buffers of their own and open what comes out. */
    method OpenMixed(number: uint32, padding: seq<byte>, body: seq<byte>) returns (data: Option<seq<byte>>)
      requires cipher.Some?
      ensures var x := Mix(c.p, number, Pair(padding, body));
              data == cipher.value.open(nonce[..], x.padding, x.cipher)
    {
      hide Mix;
      var a, b := new byte[|padding|], new byte[|body|];
      Put(a, 0, padding);
      Put(b, 0, body);
      assert Regions(a, 0, a.Length, b, 0, b.Length) == Pair(padding, body);
      MixPaddingPayload(c.p, number, a, 0, a.Length, b, 0, b.Length);
      data := cipher.value.open(nonce[..], a[..], b[..]);
      assert a[..] == a[0..a.Length] && b[..] == b[0..b.Length];
    }

    method Body(number: uint32, paddingLen: nat, payloadLen: nat) returns (result: ReadResult)
      requires cipher.Some?
      modifies this`upstream, nonce
      ensures (result, State()) == ReadBody(c, old(State()), number, paddingLen, payloadLen)
    {
      hide Mix, Increase;
      var padding := ReadFull(paddingLen);
      if padding.Short? {
        return padding.result;
      }
      if payloadLen == 0 {
        return EndOfStream;
      }
      var body := ReadFull(payloadLen + TAG_LEN);
      if body.Short? {
        return body.result;
      }
      var data := OpenMixed(number, padding.data, body.data);
      if data.None? {
        return Failed(PayloadTag);
      }
      IncreaseNonce(nonce);
      return Payload(data.value);
    }

    /** read: one record off the connection. */
    method ReadRecord() returns (result: ReadResult)
      modifies this`upstream, this`cipher, this`seqNo, nonce
      ensures (result, State()) == ShapedCodec.ReadRecord(c, old(State()))
    {
      hide ReadHeader, ReadBody, OpenStream;
      var stopped := Initialize();
      if stopped.Some? {
        return stopped.value;
      }
      var number := seqNo;
      var h := Header();
      if h.HeaderFailed? {
        return h.result;
      }
      result := Body(number, h.paddingLen, h.payloadLen);
    }

    /** NextRecord: what is left of the record cut into, or the next one. */
    method NextRecord() returns (result: ReadResult)
      modifies this, nonce
      ensures (result, Holding()) == Entry(c, old(Holding()), Call.NextRecord)
    {
      hide ShapedCodec.ReadRecord;
      var record := cache;
      if record.Some? {
        cache := None;
        if record.value != [] {
          return Payload(record.value);
        }
      }
      result := ReadRecord();
    }

    /** WaitReadBuffer: the same, looping past an empty cache (the headroom copy keeps the octets). */
    method WaitReadBuffer() returns (result: ReadResult)
      modifies this, nonce
      ensures (result, Holding()) == Entry(c, old(Holding()), Call.WaitReadBuffer)
    {
      hide ShapedCodec.ReadRecord;
      while true
        invariant Entry(c, old(Holding()), Call.WaitReadBuffer) == Entry(c, Holding(), Call.WaitReadBuffer)
        decreases if cache.Some? then 1 else 0
      {
        if cache.None? {
          result := ReadRecord();
          return;
        }
        var buffer := cache.value;
        cache := None;
        if buffer == [] {
          continue;
        }
        return Payload(buffer);
      }
    }

    /** Read and ReadBuffer: at most n octets, from the cache or from a record fetched into it. */
    method ReadUpTo(n: nat) returns (result: ReadResult)
      modifies this, nonce
      ensures (result, Holding()) == UpTo(c, old(Holding()), n)
    {
      ghost var fetched := false;
      while true
        invariant !fetched ==> UpTo(c, old(Holding()), n) == UpTo(c, Holding(), n)
        invariant fetched ==>
                  cache.Some? && cache.value != [] && UpTo(c, old(Holding()), n) == CopyOut(cache.value, State(), n)
        decreases !fetched
      {
        hide ShapedCodec.ReadRecord;
        if cache.Some? {
          if cache.value == [] {
            cache := None;
          } else {
            var k := Min(|cache.value|, n);
            result := Payload(cache.value[..k]);
            cache := Some(cache.value[k..]);
            return;
          }
        }
        PayloadsNotEmpty(State());
        result := ReadRecord();
        if !result.Payload? {
          return;
        }
        cache := Some(result.data);
        fetched := true;
      }
    }

    method Read(len: nat) returns (result: ReadResult)
      modifies this, nonce
      ensures (result, Holding()) == Entry(c, old(Holding()), Call.Read(len))
    {
      result := ReadUpTo(len);
    }

    method ReadBuffer(free: nat) returns (result: ReadResult)
      modifies this, nonce
      ensures (result, Holding()) == Entry(c, old(Holding()), Call.ReadBuffer(free))
    {
      result := ReadUpTo(free);
    }

    /** A record that is read as a payload is never empty, so the reading loops end. */
    lemma PayloadsNotEmpty(r: Reading)
      ensures ShapedCodec.ReadRecord(c, r).0.Payload? ==> ShapedCodec.ReadRecord(c, r).0.data != []
    {
    }
  }
}
