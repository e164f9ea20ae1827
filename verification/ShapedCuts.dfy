/**
 A v6 connection that ends in the middle of a record (read in snellv6/shaped.go, with
 io.ReadFull for every field): what the reader makes of it depends on where it ends.
 */
module ShapedCuts {
  import opened Bytes
  import opened Aead
  import opened Nonce
  import opened Profile
  import opened SaltBlock
  import opened Mixing
  import opened ShapedCodec
  import RecordFeed

  /** Salt block, prefix and header end here. */
  function HeadLen(l: Layout): nat { l.saltBlockLen + l.prefixLen + HEADER_CIPHER_LEN }

  /** The places in a record where the reader begins to read something. */
  predicate BetweenFields(l: Layout, payloadLen: nat, n: nat) {
    n == 0 || n == l.saltBlockLen || n == HeadLen(l) || (payloadLen > 0 && n == HeadLen(l) + l.paddingLen)
  }

  /** What a field that is not all there is read as. */
  function Missing(wire: seq<byte>): ReadResult { if wire == [] then EndOfStream else Failed(UnexpectedEnd) }

  lemma CutBlock(c: Codec, salt: seq<byte>, s: Counters, wire: seq<byte>)
    requires !s.saltSent && |wire| < c.p.saltBlockLen
    ensures ReadRecord(c, InStep(c, salt, s, wire)).0 == Missing(wire)
  {
    hide ReadHeader, ReadBody;
  }

  lemma CutHead(c: Codec, salt: seq<byte>, s: Counters, wire: seq<byte>)
    requires s.saltSent && |wire| < RecordPrefixLen(c.p, s.seqNo) + HEADER_CIPHER_LEN
    ensures ReadHeader(c, InStep(c, salt, s, wire)).0 == HeaderFailed(Missing(wire))
  {
  }

  lemma CutBody(c: Codec, r: Reading, seqNo: uint32, paddingLen: nat, payloadLen: nat)
    requires r.cipher.Some? && |r.wire| < paddingLen + if payloadLen == 0 then 0 else payloadLen + TAG_LEN
    ensures ReadBody(c, r, seqNo, paddingLen, payloadLen).0 ==
            if |r.wire| == 0 || (payloadLen > 0 && |r.wire| == paddingLen) then EndOfStream else Failed(UnexpectedEnd)
  {
  }

  /** The front of a record, by how far it goes. */
  lemma Fronts(block: seq<byte>, head: seq<byte>, tail: seq<byte>, n: nat)
    requires n <= |block| + |head| + |tail|
    ensures n < |block| ==> |(block + head + tail)[..n]| == n
    ensures |block| <= n < |block| + |head| ==>
              (block + head + tail)[..n] == block + head[..n - |block|]
    ensures |block| + |head| <= n ==>
              (block + head + tail)[..n] == block + (head + tail[..n - |block| - |head|])
  {
  }

  /**
   A record that is cut off is heard as the end of the stream if it is cut off between two of
   its fields, and as an error anywhere else.
   */
  lemma CutRecord(c: Codec, salt: seq<byte>, s: Counters, payload: seq<byte>, n: nat)
    requires |salt| == SALT_LEN && |payload| <= MAX_PAYLOAD && n < |Record(c, salt, s, payload)|
    ensures ReadRecord(c, InStep(c, salt, s, Record(c, salt, s, payload)[..n])).0 ==
            if BetweenFields(LayoutOf(c.p, s, |payload|), |payload|, n) then EndOfStream else Failed(UnexpectedEnd)
  {
    hide RecordPrefixLen, FillPadding, PaddingLen, ReadHeader, ReadBody, OpenStream, SaltedBlock, Tail;
    var l := LayoutOf(c.p, s, |payload|);
    var block := if s.saltSent then [] else SaltedBlock(c.p, salt);
    var prefix := FillPadding(c.p, s.seqNo, l.prefixLen);
    var sealed := c.keyed(salt).seal(s.nonce, prefix, HeaderPlain(l.paddingLen, |payload|));
    var tail := Tail(c, salt, s, payload);
    var head := prefix + sealed;
    Assoc(block, prefix, sealed);
    Fronts(block, head, tail, n);
    if n < |block| {
      CutBlock(c, salt, s, Record(c, salt, s, payload)[..n]);
    } else if n < |block| + |head| {
      OpenStreamRoundTrip(c, salt, s, head[..n - |block|]);
      CutHead(c, salt, s.(saltSent := true), head[..n - |block|]);
    } else {
      var rest := tail[..n - |block| - |head|];
      OpenStreamRoundTrip(c, salt, s, head + rest);
      ReadHeaderRoundTrip(c, salt, s.(saltSent := true), l.paddingLen, |payload|, rest);
      var after := InStep(c, salt, Counters(NextSeq(s.seqNo), Increase(s.nonce), true), rest);
      CutBody(c, after, s.seqNo, l.paddingLen, |payload|);
    }
  }

  lemma {:induction false} ReadOneMore(c: Codec, r: Reading, n: nat)
    ensures var (results, end) := ReadMany(c, r, n);
            ReadMany(c, r, n + 1).0 == results + [ReadRecord(c, end).0]
    decreases n
  {
    hide ReadRecord;
    if n > 0 {
      var (first, after) := ReadRecord(c, r);
      ReadOneMore(c, after, n - 1);
      Assoc([first], ReadMany(c, after, n - 1).0, [ReadRecord(c, ReadMany(c, after, n - 1).1).0]);
    }
  }

  /** So a connection that is cut off delivers every whole record, and then that. */
  lemma CutWire(c: Codec, salt: seq<byte>, s: Counters, payloads: seq<seq<byte>>, last: seq<byte>, n: nat)
    requires |salt| == SALT_LEN && Fit(payloads) && |last| <= MAX_PAYLOAD
    requires n < |Record(c, salt, StepAll(s, payloads), last)|
    ensures var at := StepAll(s, payloads);
            var wire := Wire(c, salt, s, payloads) + Record(c, salt, at, last)[..n];
            ReadMany(c, InStep(c, salt, s, wire), |payloads| + 1).0 ==
            Meanings(payloads)
            + [if BetweenFields(LayoutOf(c.p, at, |last|), |last|, n) then EndOfStream else Failed(UnexpectedEnd)]
  {
    hide Record, ReadRecord, Wire, StepAll, LayoutOf, BetweenFields;
    var at := StepAll(s, payloads);
    var front := Record(c, salt, at, last)[..n];
    WireRoundTrip(c, salt, s, payloads, front);
    ReadOneMore(c, InStep(c, salt, s, Wire(c, salt, s, payloads) + front), |payloads|);
    CutRecord(c, salt, at, last, n);
  }

  lemma {:induction false} WireThenFeeds(c: Codec, salt: seq<byte>, s: Counters, payloads: seq<seq<byte>>,
      rest: seq<byte>)
    requires |salt| == SALT_LEN && Fit(payloads)
    ensures RecordFeed.Outcomes(c, InStep(c, salt, s, Wire(c, salt, s, payloads) + rest)) ==
            RecordFeed.Items(payloads) + RecordFeed.Outcomes(c, InStep(c, salt, StepAll(s, payloads), rest))
    decreases |payloads|
  {
    hide Record, ReadRecord, Step;
    if payloads == [] {
      AppendNothing(rest);
      AppendNothing(RecordFeed.Outcomes(c, InStep(c, salt, s, rest)));
    } else {
      var s1, more := Step(s, payloads[0]), payloads[1..];
      var later := Wire(c, salt, s1, more);
      RecordFeed.WireNotEmpty(c, salt, s, payloads);
      Assoc(Record(c, salt, s, payloads[0]), later, rest);
      RecordRoundTrip(c, salt, s, payloads[0], later + rest);
      WireThenFeeds(c, salt, s1, more, rest);
      Assoc([RecordFeed.AsGot(Meaning(payloads[0]))], RecordFeed.Items(more),
        RecordFeed.Outcomes(c, InStep(c, salt, StepAll(s1, more), rest)));
    }
  }

  /** To who uses the reader it is one more end of stream, or a broken connection. */
  lemma CutFeeds(c: Codec, salt: seq<byte>, s: Counters, payloads: seq<seq<byte>>, last: seq<byte>, n: nat)
    requires |salt| == SALT_LEN && Fit(payloads) && |last| <= MAX_PAYLOAD
    requires 0 < n < |Record(c, salt, StepAll(s, payloads), last)|
    ensures var at := StepAll(s, payloads);
            var wire := Wire(c, salt, s, payloads) + Record(c, salt, at, last)[..n];
            var items := RecordFeed.Outcomes(c, InStep(c, salt, s, wire));
            && |items| > |payloads| && items[..|payloads|] == RecordFeed.Items(payloads)
            && items[|payloads|] ==
               if BetweenFields(LayoutOf(c.p, at, |last|), |last|, n) then RecordFeed.Eof else RecordFeed.Broken
  {
    hide Record, ReadRecord, Wire, StepAll, LayoutOf, BetweenFields;
    var at := StepAll(s, payloads);
    var front := Record(c, salt, at, last)[..n];
    WireThenFeeds(c, salt, s, payloads, front);
    CutRecord(c, salt, at, last, n);
  }

  /** The layout of a first record covers its handshake; a later one has neither salt block nor cover. */
  lemma LayoutIs(p: Shape, s: Counters, payloadLen: nat)
    ensures var l := LayoutOf(p, s, payloadLen);
            && l.prefixLen == RecordPrefixLen(p, s.seqNo)
            && (!s.saltSent ==>
                  && l.saltBlockLen == p.saltBlockLen
                  && l.saltBlockLen - SALT_LEN + l.prefixLen + l.paddingLen == Cover(p, s.seqNo, payloadLen))
            && (s.saltSent ==>
                  l.saltBlockLen == 0 && l.paddingLen == PaddingLen(p, s.seqNo, payloadLen, l.prefixLen, 0, 0))
  {
    hide PaddingLen, RecordPrefixLen;
  }
}
