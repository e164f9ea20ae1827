/**
 The v6 stream writer (snellv6/shaped.go): records are built either in a buffer of
 their own or in place around a payload that has room in front of it, and both ways
 give the octets and the state of the record function.
 */
module ShapedWriter {
  import opened Bytes
  import opened Aead
  import opened Nonce
  import opened Profile
  import opened SaltBlock
  import opened Mixing
  import opened ShapedCodec
  import opened ShapedStream

  /** A buffer with room on both sides: data[start:end] is what it holds. */
  class Buffer {
    const data: array<byte>
    var start: nat
    var end: nat

    ghost predicate Valid()
      reads this
    {
      start <= end <= data.Length
    }

    function Contents(): (s: seq<byte>)
      requires Valid()
      reads this, data
    {
      Slice(data, start, end - start)
    }

    constructor (data: array<byte>, start: nat, end: nat)
      requires start <= end <= data.Length
      ensures Valid() && this.data == data && this.start == start && this.end == end
    {
      this.data, this.start, this.end := data, start, end;
    }
  }

  datatype WriteError = PayloadTooLarge

  /** Writing the next piece behind what is there: out.Extend followed by copy. */
  method PutNext(data: array<byte>, at: nat, done: nat, s: seq<byte>)
    requires at + done + |s| <= data.Length
    modifies data
    ensures Slice(data, at, done + |s|) == old(Slice(data, at, done)) + s
    ensures OnlySlice(data, at + done, |s|)
  {
    Put(data, at + done, s);
    assert Slice(data, at, done) == old(Slice(data, at, done));
    SliceJoin(data, at, done, |s|);
  }

  /** Mixing of padding with the ciphertext right behind it. */
  method MixAdjacent(p: Shape, seqNo: uint32, data: array<byte>, at: nat, paddingLen: nat, cipherLen: nat)
    requires at + paddingLen + cipherLen <= data.Length
    modifies data
    ensures var x := Mix(p, seqNo,
            Pair(old(Slice(data, at, paddingLen)), old(Slice(data, at + paddingLen, cipherLen))));
            Slice(data, at, paddingLen + cipherLen) == x.padding + x.cipher
    ensures OnlySlice(data, at, paddingLen + cipherLen)
  {
    hide Mix;
    MixPaddingPayload(p, seqNo, data, at, paddingLen, data, at + paddingLen, cipherLen);
    SliceJoin(data, at, paddingLen, cipherLen);
  }

  class ShapedWriter {
    const c: Codec
    const salt: seq<byte>
    const nonce: array<byte>
    var seqNo: uint32
    var saltSent: bool
    var chunkSize: nat
    var lastWriteUnix: int
    /** Every octet handed to the connection so far. */
    var sent: seq<byte>

    ghost predicate Valid()
      reads this
    {
      |salt| == SALT_LEN && nonce.Length == NONCE_LEN
    }

    function Counting(): Counters
      reads this, nonce
    {
      Counters(seqNo, nonce[..], saltSent)
    }

    function State(): Pacing
      reads this, nonce
    {
      Pacing(Counting(), chunkSize, lastWriteUnix)
    }

    constructor (c: Codec, salt: seq<byte>)
      requires |salt| == SALT_LEN
      ensures Valid() && fresh(nonce) && this.c == c && this.salt == salt
      ensures State() == NewStream() && sent == []
    {
      this.c, this.salt := c, salt;
      nonce := new byte[NONCE_LEN](i => 0);
      seqNo, saltSent, chunkSize, lastWriteUnix, sent := 0, false, 0, 0, [];
      new;
      assert nonce[..] == Zeros(NONCE_LEN);
    }

    /** payloadLimitFor. */
    method PayloadLimitFor(now: int) returns (limit: nat)
      modifies this`chunkSize, this`lastWriteUnix
      ensures limit == PayloadLimit(c.p, old(State()), now)
      ensures State() == AfterLimit(c.p, old(State()), now)
    {
      if lastWriteUnix == 0 || now - lastWriteUnix > c.p.idleResetSec {
        chunkSize := c.p.chunkInitial;
      }
      if chunkSize == 0 {
        chunkSize := c.p.chunkInitial;
      }
      limit := ChunkPayloadLimit(c.p, seqNo, chunkSize);
      if seqNo == 0 {
        limit := Min(limit, c.p.firstRecordCap);
      }
      chunkSize := NextChunkSize(c.p, chunkSize);
      lastWriteUnix := now;
      limit := Max(1, Min(limit, MAX_PAYLOAD));
    }

    /** Everything in front of the payload: salt block, prefix, sealed header, padding. */
    method SealFront(data: array<byte>, at: nat, l: Layout, payloadLen: nat)
      requires Valid() && data != nonce
      requires l == LayoutOf(c.p, Counting(), payloadLen) && at + FrontLen(l) <= data.Length
      modifies this`saltSent, data, nonce
      ensures Slice(data, at, FrontLen(l)) ==
              Head(c, salt, old(Counting()), payloadLen) + FillPadding(c.p, seqNo, l.paddingLen)
      ensures OnlySlice(data, at, FrontLen(l))
      ensures nonce[..] == Increase(old(nonce[..])) && saltSent
    {
      hide Slice, FillPadding, WriteSalt, Increase, RecordPrefixLen, PaddingLen;
      if !saltSent {
        Put(data, at, FillPadding(c.p, 0xffffffff, l.saltBlockLen));
        WriteSaltBlock(c.p, salt, data, at, l.saltBlockLen);
        saltSent := true;
        assert Slice(data, at, l.saltBlockLen) == SaltedBlock(c.p, salt);
      } else {
        assert Slice(data, at, 0) == [];
      }
      var prefix := FillPadding(c.p, seqNo, l.prefixLen);
      PutNext(data, at, l.saltBlockLen, prefix);
      var header := c.keyed(salt).seal(nonce[..], prefix, HeaderPlain(l.paddingLen, payloadLen));
      PutNext(data, at, l.saltBlockLen + l.prefixLen, header);
      IncreaseNonce(nonce);
      PutNext(data, at, l.saltBlockLen + l.prefixLen + HEADER_CIPHER_LEN, FillPadding(c.p, seqNo, l.paddingLen));
    }

    /** Seal in place, then mix with the padding right before it; padding and body are one region. */
    method SealPayload(data: array<byte>, padAt: nat, paddingLen: nat, payloadLen: nat)
      requires Valid() && data != nonce && padAt + paddingLen + payloadLen + TAG_LEN <= data.Length
      modifies data, nonce
      ensures Slice(data, padAt, paddingLen) == old(Slice(data, padAt, paddingLen))
      ensures Slice(data, padAt + paddingLen, payloadLen + TAG_LEN) ==
              c.keyed(salt).seal(old(nonce[..]), Slice(data, padAt, paddingLen),
                old(Slice(data, padAt + paddingLen, payloadLen)))
      ensures OnlySlice(data, padAt + paddingLen, payloadLen + TAG_LEN)
      ensures nonce[..] == Increase(old(nonce[..]))
    {
      hide Increase;
      var padding := Slice(data, padAt, paddingLen);
      var sealed := c.keyed(salt).seal(nonce[..], padding, Slice(data, padAt + paddingLen, payloadLen));
      Put(data, padAt + paddingLen, sealed);
      assert Slice(data, padAt, paddingLen) == padding;
      IncreaseNonce(nonce);
    }

    method SealAndMix(data: array<byte>, padAt: nat, paddingLen: nat, payloadLen: nat)
      requires Valid() && data != nonce && padAt + paddingLen + payloadLen + TAG_LEN <= data.Length
      modifies data, nonce
      ensures var padding := old(Slice(data, padAt, paddingLen));
              var sealed := c.keyed(salt).seal(old(nonce[..]), padding,
                old(Slice(data, padAt + paddingLen, payloadLen)));
              var x := Mix(c.p, seqNo, Pair(padding, sealed));
              Slice(data, padAt, paddingLen + payloadLen + TAG_LEN) == x.padding + x.cipher
      ensures OnlySlice(data, padAt, paddingLen + payloadLen + TAG_LEN)
      ensures nonce[..] == Increase(old(nonce[..]))
    {
      hide Mix, Increase, Slice;
      SealPayload(data, padAt, paddingLen, payloadLen);
      MixAdjacent(c.p, seqNo, data, padAt, paddingLen, payloadLen + TAG_LEN);
    }

    method SealBehind(data: array<byte>, at: nat, headLen: nat, paddingLen: nat, payloadLen: nat)
      requires Valid() && data != nonce && at + headLen + paddingLen + payloadLen + TAG_LEN <= data.Length
      modifies data, nonce
      ensures var padding := old(Slice(data, at + headLen, paddingLen));
              var sealed := c.keyed(salt).seal(old(nonce[..]), padding,
                old(Slice(data, at + headLen + paddingLen, payloadLen)));
              var x := Mix(c.p, seqNo, Pair(padding, sealed));
              Slice(data, at, headLen + (paddingLen + payloadLen + TAG_LEN)) ==
                old(Slice(data, at, headLen)) + (x.padding + x.cipher)
      ensures OnlySlice(data, at, headLen + paddingLen + payloadLen + TAG_LEN)
      ensures nonce[..] == Increase(old(nonce[..]))
    {
      hide Mix, Increase;
      SealAndMix(data, at + headLen, paddingLen, payloadLen);
      assert Slice(data, at, headLen) == old(Slice(data, at, headLen));
      SliceJoin(data, at, headLen, paddingLen + payloadLen + TAG_LEN);
    }

    lemma FrontParts(data: array<byte>, at: nat, head: seq<byte>, padding: seq<byte>)
      requires at + |head| + |padding| <= data.Length
      requires Slice(data, at, |head| + |padding|) == head + padding
      ensures Slice(data, at, |head|) == head && Slice(data, at + |head|, |padding|) == padding
    {
      SliceJoin(data, at, |head|, |padding|);
      SplitAppend(head, padding);
      SplitAppend(Slice(data, at, |head|), Slice(data, at + |head|, |padding|));
    }

    /** Behind a finished front: the payload where it stands becomes the rest of the record. */
    method SealBody(data: array<byte>, at: nat, l: Layout, payloadLen: nat, ghost s: Counters, ghost payload: seq<byte>)
      requires Valid() && data != nonce
      requires at + FrontLen(l) + payloadLen + TAG_LEN <= data.Length
      requires |payload| == payloadLen > 0 && l == LayoutOf(c.p, s, payloadLen)
      requires seqNo == s.seqNo && nonce[..] == Increase(s.nonce)
      requires Slice(data, at, FrontLen(l)) == Head(c, salt, s, payloadLen) + FillPadding(c.p, s.seqNo, l.paddingLen)
      requires Slice(data, at + FrontLen(l), payloadLen) == payload
      modifies data, nonce
      ensures Slice(data, at, FrontLen(l) + payloadLen + TAG_LEN) == Record(c, salt, s, payload)
      ensures OnlySlice(data, at, FrontLen(l) + payloadLen + TAG_LEN)
      ensures nonce[..] == Increase(Increase(s.nonce))
    {
      hide Increase, FillPadding, Mix, LayoutOf, Head, Slice;
      ghost var head, padding := Head(c, salt, s, payloadLen), FillPadding(c.p, s.seqNo, l.paddingLen);
      var headLen := FrontLen(l) - l.paddingLen;
      FrontParts(data, at, head, padding);
      SealBehind(data, at, headLen, l.paddingLen, payloadLen);
    }

    /** makeSliceRecord: the record in a buffer of exactly its size. */
    method MakeSliceRecord(payload: seq<byte>) returns (out: array<byte>)
      requires Valid()
      modifies this`seqNo, this`saltSent, nonce
      ensures fresh(out) && out[..] == Record(c, salt, old(Counting()), payload)
      ensures Counting() == Step(old(Counting()), payload)
    {
      hide Increase, FillPadding, Mix, RecordPrefixLen, PaddingLen, Head, LayoutOf;
      ghost var s := Counting();
      var l := LayoutOf(c.p, Counting(), |payload|);
      out := new byte[FrontLen(l) + if payload == [] then 0 else |payload| + TAG_LEN];
      SealFront(out, 0, l, |payload|);
      if payload != [] {
        Put(out, FrontLen(l), payload);
        assert Slice(out, 0, FrontLen(l)) == Head(c, salt, s, |payload|) + FillPadding(c.p, s.seqNo, l.paddingLen);
        SealBody(out, 0, l, |payload|, s, payload);
      }
      seqNo := (seqNo as int + 1) % 0x1_0000_0000;
      assert out[..] == Slice(out, 0, out.Length);
    }

    /** FrontHeadroom: room in front that fits every record the writer may make next. */
    function FrontHeadroom(): (n: nat)
      reads this, nonce
      ensures forall payloadLen: nat :: FrontLen(LayoutOf(c.p, Counting(), payloadLen)) <= n
    {
      c.p.recordPrefixMax + HEADER_CIPHER_LEN + c.p.padMaxHeadroom + if saltSent then 0 else c.p.saltBlockLen
    }

    lemma EmptyRecord(s: Counters)
      requires |salt| == SALT_LEN
      ensures Record(c, salt, s, []) ==
              Head(c, salt, s, 0) + FillPadding(c.p, s.seqNo, LayoutOf(c.p, s, 0).paddingLen)
    {
      hide Head, FillPadding, LayoutOf;
    }

    lemma Stepped(s: Counters, payload: seq<byte>)
      ensures var t := Step(s, payload);
              && t.seqNo == (s.seqNo as int + 1) % 0x1_0000_0000 && t.saltSent
              && t.nonce == if payload == [] then Increase(s.nonce) else Increase(Increase(s.nonce))
    {
      hide Increase;
    }

    /** The record around a payload that stands behind the room for its front. */
    method SealAround(data: array<byte>, at: nat, l: Layout, payloadLen: nat, ghost payload: seq<byte>)
      requires Valid() && data != nonce && l == LayoutOf(c.p, Counting(), payloadLen)
      requires at + FrontLen(l) + payloadLen + TAG_LEN <= data.Length
      requires payload == Slice(data, at + FrontLen(l), payloadLen)
      modifies this`seqNo, this`saltSent, nonce, data
      ensures Slice(data, at, FrontLen(l) + if payloadLen == 0 then 0 else payloadLen + TAG_LEN) ==
              Record(c, salt, old(Counting()), payload)
      ensures Counting() == Step(old(Counting()), payload)
    {
      hide Increase, FillPadding, Head, LayoutOf, Record, Step;
      ghost var s := Counting();
      Stepped(s, payload);
      SealFront(data, at, l, payloadLen);
      if payloadLen > 0 {
        assert Slice(data, at + FrontLen(l), payloadLen) == payload;
        SealBody(data, at, l, payloadLen, s, payload);
      } else {
        EmptyRecord(s);
      }
      seqNo := (seqNo as int + 1) % 0x1_0000_0000;
    }

    /** makeBufferRecord: the same record around a payload already in place, nothing copied. */
    method MakeBufferRecord(buffer: Buffer)
      requires Valid() && buffer.Valid() && buffer.data != nonce
      requires buffer.start >= FrontHeadroom() && buffer.data.Length - buffer.end >= TAG_LEN
      modifies this`seqNo, this`saltSent, nonce, buffer, buffer.data
      ensures buffer.Valid() && buffer.Contents() == Record(c, salt, old(Counting()), old(buffer.Contents()))
      ensures Counting() == Step(old(Counting()), old(buffer.Contents()))
    {
      hide Increase, FillPadding, Head, LayoutOf, Record, Step;
      var dataLen := buffer.end - buffer.start;
      var l := LayoutOf(c.p, Counting(), dataLen);
      SealAround(buffer.data, buffer.start - FrontLen(l), l, dataLen, buffer.Contents());
      buffer.start := buffer.start - FrontLen(l);
      if dataLen > 0 {
        buffer.end := buffer.end + TAG_LEN;
      }
    }

    /** What one operation must have done: its records on the wire, its state left behind. */
    ghost predicate Wrote(before: seq<byte>, w: Pacing, op: Op)
      requires Valid()
      reads this, nonce
    {
      var done := Perform(c.p, w, op);
      sent == before + Wire(c, salt, w.s, done.payloads) && State() == done.after
    }

    /** The part of a split that is still to be written follows the part that was. */
    ghost predicate Halfway(w: Pacing, now: int, data: seq<byte>, out: seq<byte>, w': Pacing, rest: seq<byte>)
      requires |salt| == SALT_LEN
    {
      var whole, later := Split(c.p, w, now, data), Split(c.p, w', now, rest);
      whole.after == later.after && Wire(c, salt, w.s, whole.payloads) == out + Wire(c, salt, w'.s, later.payloads)
    }

    lemma OneRecordFurther(w: Pacing, now: int, data: seq<byte>, out: seq<byte>, w': Pacing, rest: seq<byte>, n: nat,
        record: seq<byte>)
      requires |salt| == SALT_LEN && Halfway(w, now, data, out, w', rest) && rest != []
      requires n == Min(|rest|, PayloadLimit(c.p, w', now)) && record == Record(c, salt, w'.s, rest[..n])
      ensures var ready := AfterLimit(c.p, w', now);
              Halfway(w, now, data, out + record, ready.(s := Step(ready.s, rest[..n])), rest[n..])
    {
      hide PayloadLimit, Record, Step;
      var ready := AfterLimit(c.p, w', now);
      var next := ready.(s := Step(ready.s, rest[..n]));
      var later := Split(c.p, next, now, rest[n..]).payloads;
      TailAppend([rest[..n]], later);
      Assoc(out, record, Wire(c, salt, next.s, later));
    }

    /** Write: every record is cut at the limit in force when it is made. */
    method Write(p: seq<byte>, now: int)
      requires Valid()
      modifies this`sent, this`seqNo, this`saltSent, this`chunkSize, this`lastWriteUnix, nonce
      ensures Wrote(old(sent), old(State()), Op.Write(p, now))
    {
      hide Record, LayoutOf, PayloadLimit, AfterLimit, Step;
      ghost var w := State();
      var rest, out := p, [];
      AppendNothing(Wire(c, salt, w.s, Split(c.p, w, now, p).payloads));
      while rest != []
        invariant Halfway(w, now, p, out, State(), rest)
        invariant sent == old(sent)
        decreases |rest|
      {
        ghost var w' := State();
        var limit := PayloadLimitFor(now);
        assert AfterLimit(c.p, w', now).s == w'.s by { AfterLimitKeepsCounters(w', now); }
        var recordLen := Min(|rest|, limit);
        var record := MakeSliceRecord(rest[..recordLen]);
        OneRecordFurther(w, now, p, out, w', rest, recordLen, record[..]);
        out := out + record[..];
        rest := rest[recordLen..];
      }
      AppendNothing(out);
      sent := sent + out;
    }

    lemma AfterLimitKeepsCounters(w: Pacing, now: int)
      ensures AfterLimit(c.p, w, now).s == w.s
    {
    }

    lemma SplitWhole(w: Pacing, now: int, data: seq<byte>)
      requires |salt| == SALT_LEN && 0 < |data| <= PayloadLimit(c.p, w, now)
      ensures Perform(c.p, w, Op.WriteBuffer(data, now)) == Single(c.p, w, now, data)
    {
      hide PayloadLimit, AfterLimit, Step;
      var ready := AfterLimit(c.p, w, now);
      var next := ready.(s := Step(ready.s, data));
      assert data[..|data|] == data && data[|data|..] == [];
      assert Split(c.p, next, now, []) == Written([], next);
      assert Split(c.p, w, now, data).payloads == [data] + [];
      AppendNothing([data]);
    }

    lemma SplitNothing(w: Pacing, now: int)
      ensures Split(c.p, w, now, []) == Written([], w)
    {
    }

    lemma SingleOnWire(w: Pacing, now: int, data: seq<byte>)
      requires |salt| == SALT_LEN
      ensures var done := Single(c.p, w, now, data);
              && Wire(c, salt, w.s, done.payloads) == Record(c, salt, w.s, data)
              && done.after == Pacing(Step(w.s, data), AfterLimit(c.p, w, now).chunkSize,
                AfterLimit(c.p, w, now).lastWriteUnix)
    {
      AfterLimitKeepsCounters(w, now);
      hide Record;
      AppendNothing(Record(c, salt, w.s, data));
    }

    /** The common ending of the calls that make one record in place: seal it and send it. */
    method SendInPlace(buffer: Buffer, now: int, ghost w: Pacing)
      requires Valid() && buffer.Valid() && buffer.data != nonce
      requires buffer.start >= FrontHeadroom() && buffer.data.Length - buffer.end >= TAG_LEN
      requires State() == AfterLimit(c.p, w, now)
      modifies this`sent, this`seqNo, this`saltSent, nonce, buffer, buffer.data
      ensures var done := Single(c.p, w, now, old(buffer.Contents()));
              sent == old(sent) + Wire(c, salt, w.s, done.payloads) && State() == done.after
    {
      hide Record, LayoutOf, AfterLimit, Step, Wire, Single, Slice, PayloadLimit, InRange, Lawful, FrontLen, Increase;
      AfterLimitKeepsCounters(w, now);
      SingleOnWire(w, now, buffer.Contents());
      MakeBufferRecord(buffer);
      sent := sent + buffer.Contents();
    }

    /** The cutting loop of WriteBuffer; the first limit has been drawn already. */
    method WriteCut(p: seq<byte>, now: int, first: nat, ghost w: Pacing)
      requires Valid() && p != []
      requires State() == AfterLimit(c.p, w, now) && first == PayloadLimit(c.p, w, now)
      modifies this`sent, this`seqNo, this`saltSent, this`chunkSize, this`lastWriteUnix, nonce
      ensures Wrote(old(sent), w, Op.WriteBuffer(p, now))
    {
      hide Record, LayoutOf, PayloadLimit, AfterLimit, Step;
      var data, out, limit := p, [], first;
      ghost var w' := w;
      AppendNothing(Wire(c, salt, w.s, Split(c.p, w, now, p).payloads));
      while data != []
        invariant Halfway(w, now, p, out, w', data)
        invariant data == [] ==> State() == w'
        invariant data != [] ==> State() == AfterLimit(c.p, w', now) && limit == PayloadLimit(c.p, w', now)
        invariant sent == old(sent)
        decreases |data|
      {
        AfterLimitKeepsCounters(w', now);
        var recordLen := Min(|data|, limit);
        var record := MakeSliceRecord(data[..recordLen]);
        OneRecordFurther(w, now, p, out, w', data, recordLen, record[..]);
        out := out + record[..];
        data := data[recordLen..];
        w' := State();
        if data != [] {
          limit := PayloadLimitFor(now);
        }
      }
      AppendNothing(out);
      sent := sent + out;
    }

    /** WriteBuffer: a payload that fits is sealed where it stands, a longer one is cut as by Write. */
    method WriteBuffer(buffer: Buffer, now: int)
      requires Valid() && buffer.Valid() && buffer.data != nonce
      requires buffer.start >= FrontHeadroom() && buffer.data.Length - buffer.end >= TAG_LEN
      modifies this`sent, this`seqNo, this`saltSent, this`chunkSize, this`lastWriteUnix, nonce, buffer, buffer.data
      ensures Wrote(old(sent), old(State()), Op.WriteBuffer(old(buffer.Contents()), now))
    {
      hide PayloadLimit, AfterLimit, Step, Record, LayoutOf, Single, Slice, Split;
      ghost var w := State();
      var dataLen := buffer.end - buffer.start;
      if dataLen == 0 {
        SplitNothing(w, now);
        AppendNothing(sent);
        return;
      }
      var limit := PayloadLimitFor(now);
      if dataLen <= limit {
        SplitWhole(w, now, buffer.Contents());
        SendInPlace(buffer, now, w);
      } else {
        WriteCut(buffer.Contents(), now, limit, w);
      }
    }

    /** WritePacketBuffer: one record for one datagram, or a refusal that changes nothing. */
    method WritePacketBuffer(buffer: Buffer, now: int) returns (err: Option<WriteError>)
      requires Valid() && buffer.Valid() && buffer.data != nonce
      requires buffer.start >= FrontHeadroom() && buffer.data.Length - buffer.end >= TAG_LEN
      modifies this`sent, this`seqNo, this`saltSent, this`chunkSize, this`lastWriteUnix, nonce, buffer, buffer.data
      ensures err.Some? <==> old(buffer.end - buffer.start) > MAX_PAYLOAD
      ensures Wrote(old(sent), old(State()), Op.WritePacket(old(buffer.Contents()), now))
    {
      hide PayloadLimit, AfterLimit, Step, Record, LayoutOf, Single, Slice, Split;
      ghost var w := State();
      var dataLen := buffer.end - buffer.start;
      AppendNothing(sent);
      if dataLen == 0 {
        return None;
      }
      if dataLen > MAX_PAYLOAD {
        return Some(PayloadTooLarge);
      }
      var _ := PayloadLimitFor(now);
      SendInPlace(buffer, now, w);
      return None;
    }

    /** The common ending of the calls that copy one record: make it and send it. */
    method SendCopy(p: seq<byte>, now: int, ghost w: Pacing)
      requires Valid()
      requires State() == AfterLimit(c.p, w, now)
      modifies this`sent, this`seqNo, this`saltSent, nonce
      ensures var done := Single(c.p, w, now, p);
              sent == old(sent) + Wire(c, salt, w.s, done.payloads) && State() == done.after
    {
      hide Record, LayoutOf, AfterLimit, Step, Wire, Single, PayloadLimit, InRange, Lawful, FrontLen, Increase;
      AfterLimitKeepsCounters(w, now);
      SingleOnWire(w, now, p);
      assert Counting() == w.s;
      var record := MakeSliceRecord(p);
      assert Counting() == Step(w.s, p);
      sent := sent + record[..];
    }

    /** WriteZeroChunk: an empty record ends the stream and takes a pacing step like any other. */
    method WriteZeroChunk(now: int)
      requires Valid()
      modifies this`sent, this`seqNo, this`saltSent, this`chunkSize, this`lastWriteUnix, nonce
      ensures Wrote(old(sent), old(State()), Op.ZeroChunk(now))
    {
      hide PayloadLimit, AfterLimit, Step, Record, LayoutOf, Wire, Single, Split;
      ghost var w := State();
      var _ := PayloadLimitFor(now);
      SendCopy([], now, w);
    }
  }
}
