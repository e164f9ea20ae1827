/**
 The v6 shaped record as a value (snellv6/shaped.go): what one record is made of, what
 the reader makes of it, and that a whole stream survives the trip. The writer and
 reader classes are proved against these functions.
 */
module ShapedCodec {
  import opened Bytes
  import opened Aead
  import opened Nonce
  import opened Profile
  import opened SaltBlock
  import opened Mixing

  const HEADER_VERSION: byte := 0x04

  /** The profile both ends share and the key derivation of the pre-shared key. */
  datatype Codec = Codec(p: Shape, keyed: Keyed)

  /** The counters both ends keep in step. */
  datatype Counters = Counters(seqNo: uint32, nonce: seq<byte>, saltSent: bool)

  function NextSeq(seqNo: uint32): uint32 { (seqNo as int + 1) % 0x1_0000_0000 }

  /** After a record: one seal for an empty payload, two otherwise. */
  function Step(s: Counters, payload: seq<byte>): Counters
  {
    Counters(NextSeq(s.seqNo), if payload == [] then Increase(s.nonce) else Increase(Increase(s.nonce)), true)
  }

  function Start(): Counters { Counters(0, Zeros(NONCE_LEN), false) }

  function HeaderPlain(paddingLen: nat, payloadLen: nat): (h: seq<byte>)
    ensures |h| == HEADER_PLAIN_LEN
  {
    [HEADER_VERSION, 0, 0] + Be16(paddingLen) + Be16(payloadLen)
  }

  /** The lengths the writer derives for one record. */
  datatype Layout = Layout(saltBlockLen: nat, prefixLen: nat, paddingLen: nat)

  function FrontLen(l: Layout): nat { l.saltBlockLen + l.prefixLen + HEADER_CIPHER_LEN + l.paddingLen }

  function LayoutOf(p: Shape, s: Counters, payloadLen: nat): (l: Layout)
    ensures l.paddingLen <= 0x5b4
  {
    var prefixLen := RecordPrefixLen(p, s.seqNo);
    var saltBlockLen := if s.saltSent then 0 else p.saltBlockLen;
    var saltPrefixLen := if s.saltSent then 0 else p.saltBlockLen - SALT_LEN;
    Layout(saltBlockLen, prefixLen, PaddingLen(p, s.seqNo, payloadLen, prefixLen, saltPrefixLen, saltBlockLen))
  }

  /** Salt block, prefix and sealed header: what stands before the padding. */
  function Head(c: Codec, salt: seq<byte>, s: Counters, payloadLen: nat): (h: seq<byte>)
    requires |salt| == SALT_LEN
    ensures var l := LayoutOf(c.p, s, payloadLen);
            |h| == l.saltBlockLen + l.prefixLen + HEADER_CIPHER_LEN
  {
    var l := LayoutOf(c.p, s, payloadLen);
    var prefix := FillPadding(c.p, s.seqNo, l.prefixLen);
    (if s.saltSent then [] else SaltedBlock(c.p, salt))
    + prefix
    + c.keyed(salt).seal(s.nonce, prefix, HeaderPlain(l.paddingLen, payloadLen))
  }

  /** Padding and sealed payload, before and after mixing. */
  function Sealed(c: Codec, salt: seq<byte>, s: Counters, payload: seq<byte>): (x: Pair)
    ensures |x.padding| == LayoutOf(c.p, s, |payload|).paddingLen && |x.cipher| == |payload| + TAG_LEN
  {
    var padding := FillPadding(c.p, s.seqNo, LayoutOf(c.p, s, |payload|).paddingLen);
    Pair(padding, c.keyed(salt).seal(Increase(s.nonce), padding, payload))
  }

  function Tail(c: Codec, salt: seq<byte>, s: Counters, payload: seq<byte>): (t: seq<byte>)
    ensures |t| == LayoutOf(c.p, s, |payload|).paddingLen + if payload == [] then 0 else |payload| + TAG_LEN
  {
    if payload == [] then FillPadding(c.p, s.seqNo, LayoutOf(c.p, s, 0).paddingLen)
    else var x := Mix(c.p, s.seqNo, Sealed(c, salt, s, payload)); x.padding + x.cipher
  }

  /** The octets of one record. An empty payload is the zero chunk that ends a stream. */
  function Record(c: Codec, salt: seq<byte>, s: Counters, payload: seq<byte>): (r: seq<byte>)
    requires |salt| == SALT_LEN
    ensures |r| == FrontLen(LayoutOf(c.p, s, |payload|)) + if payload == [] then 0 else |payload| + TAG_LEN
  {
    Head(c, salt, s, |payload|) + Tail(c, salt, s, payload)
  }

  /** The octets of a run of records. */
  function Wire(c: Codec, salt: seq<byte>, s: Counters, payloads: seq<seq<byte>>): seq<byte>
    requires |salt| == SALT_LEN
    decreases |payloads|
  {
    if payloads == [] then []
    else Record(c, salt, s, payloads[0]) + Wire(c, salt, Step(s, payloads[0]), payloads[1..])
  }

  function StepAll(s: Counters, payloads: seq<seq<byte>>): Counters
    decreases |payloads|
  {
    if payloads == [] then s else StepAll(Step(s, payloads[0]), payloads[1..])
  }

  lemma {:induction false} WireAppend(c: Codec, salt: seq<byte>, s: Counters, a: seq<seq<byte>>, b: seq<seq<byte>>)
    requires |salt| == SALT_LEN
    ensures Wire(c, salt, s, a + b) == Wire(c, salt, s, a) + Wire(c, salt, StepAll(s, a), b)
    ensures StepAll(s, a + b) == StepAll(StepAll(s, a), b)
    decreases |a|
  {
    hide Record, Step;
    if a == [] {
      AppendNothing(b);
      AppendNothing(Wire(c, salt, s, b));
    } else {
      var t := Step(s, a[0]);
      WireAppend(c, salt, t, a[1..], b);
      TailAppend(a, b);
      Assoc(Record(c, salt, s, a[0]), Wire(c, salt, t, a[1..]), Wire(c, salt, StepAll(t, a[1..]), b));
    }
  }

  // ------------------------------------------------------------------- reading

  // the last by v4 only
  datatype ReadError = UnexpectedEnd | HeaderTag | BadVersion(found: byte) | PayloadTag | TrailingData

  /** A record read: its payload, the end of the stream, or a failure. */
  datatype ReadResult = Payload(data: seq<byte>) | EndOfStream | Failed(error: ReadError)

  /** io.ReadFull: nothing there at all reads as the end of the stream. */
  datatype Taken = Taken(data: seq<byte>) | Short(result: ReadResult)

  function TakeFull(wire: seq<byte>, n: nat): (t: Taken)
    ensures t.Taken? <==> n <= |wire|
    ensures t.Taken? ==> t.data == wire[..n]
    ensures t.Short? ==> !t.result.Payload?
  {
    if n <= |wire| then Taken(wire[..n])
    else if wire == [] then Short(EndOfStream)
    else Short(Failed(UnexpectedEnd))
  }

  function Drop(wire: seq<byte>, n: nat): seq<byte> { if n <= |wire| then wire[n..] else [] }

  /** What the reader remembers between records, and the octets not yet read. */
  datatype Reading = Reading(cipher: Option<Cipher>, seqNo: uint32, nonce: seq<byte>, wire: seq<byte>)

  function OpenStream(c: Codec, r: Reading): (o: (Option<ReadResult>, Reading))
    ensures o.0.None? ==> o.1.cipher.Some?
  {
    if r.cipher.Some? then (None, r)
    else
      match TakeFull(r.wire, c.p.saltBlockLen)
      case Short(result) => (Some(result), r.(wire := []))
      case Taken(block) =>
        (None, r.(cipher := Some(c.keyed(ExtractSalt(c.p, block))), wire := Drop(r.wire, c.p.saltBlockLen)))
  }

  datatype HeaderResult = Header(paddingLen: uint16, payloadLen: uint16) | HeaderFailed(result: ReadResult)

  function ReadHeader(c: Codec, r: Reading): (HeaderResult, Reading)
    requires r.cipher.Some?
  {
    var prefixLen := RecordPrefixLen(c.p, r.seqNo);
    var n := prefixLen + HEADER_CIPHER_LEN;
    var after := r.(wire := Drop(r.wire, n));
    match TakeFull(r.wire, n)
    case Short(result) => (HeaderFailed(result), after)
    case Taken(head) =>
      match r.cipher.value.open(r.nonce, head[..prefixLen], head[prefixLen..])
      case None => (HeaderFailed(Failed(HeaderTag)), after)
      case Some(plain) =>
        var unsealed := after.(nonce := Increase(r.nonce));
        if plain[0] != HEADER_VERSION then (HeaderFailed(Failed(BadVersion(plain[0]))), unsealed)
        else (Header(FromBe16(plain, 3), FromBe16(plain, 5)), unsealed.(seqNo := NextSeq(r.seqNo)))
  }

  /** The body behind a header already read; seqNo is the record's own number. */
  function ReadBody(c: Codec, r: Reading, seqNo: uint32, paddingLen: nat, payloadLen: nat): (ReadResult, Reading)
    requires r.cipher.Some?
  {
    var unpadded := r.(wire := Drop(r.wire, paddingLen));
    match TakeFull(r.wire, paddingLen)
    case Short(result) => (result, unpadded)
    case Taken(padding) =>
      if payloadLen == 0 then (EndOfStream, unpadded)
      else
        var after := unpadded.(wire := Drop(unpadded.wire, payloadLen + TAG_LEN));
        match TakeFull(unpadded.wire, payloadLen + TAG_LEN)
        case Short(result) => (result, after)
        case Taken(body) =>
          var x := Mix(c.p, seqNo, Pair(padding, body));
          match r.cipher.value.open(r.nonce, x.padding, x.cipher)
          case None => (Failed(PayloadTag), after)
          case Some(data) => (Payload(data), after.(nonce := Increase(r.nonce)))
  }

  function ReadRecord(c: Codec, r: Reading): (ReadResult, Reading)
  {
    var (stopped, ready) := OpenStream(c, r);
    if stopped.Some? then (stopped.value, ready)
    else
      match ReadHeader(c, ready)
      case (HeaderFailed(result), after) => (result, after)
      case (Header(paddingLen, payloadLen), after) => ReadBody(c, after, ready.seqNo, paddingLen, payloadLen)
  }

  // ------------------------------------------------------------------- round trip

  /** A reader in step with a writer at s, with the given octets to come. */
  function InStep(c: Codec, salt: seq<byte>, s: Counters, wire: seq<byte>): Reading
  {
    Reading(if s.saltSent then Some(c.keyed(salt)) else None, s.seqNo, s.nonce, wire)
  }

  function Meaning(payload: seq<byte>): ReadResult { if payload == [] then EndOfStream else Payload(payload) }

  lemma OpenStreamRoundTrip(c: Codec, salt: seq<byte>, s: Counters, rest: seq<byte>)
    requires |salt| == SALT_LEN
    ensures var wire := (if s.saltSent then [] else SaltedBlock(c.p, salt)) + rest;
            OpenStream(c, InStep(c, salt, s, wire)) == (None, InStep(c, salt, s.(saltSent := true), rest))
  {
    hide SaltedBlock, ExtractSalt;
    if s.saltSent {
      AppendNothing(rest);
    } else {
      SplitAppend(SaltedBlock(c.p, salt), rest);
      SaltedBlockRoundTrip(c.p, salt);
    }
  }

  lemma SaltedBlockRoundTrip(p: Shape, salt: seq<byte>)
    requires |salt| == SALT_LEN
    ensures ExtractSalt(p, SaltedBlock(p, salt)) == salt
  {
    SaltRoundTrip(p, salt, FillPadding(p, 0xffffffff, p.saltBlockLen));
  }

  lemma ReadHeaderRoundTrip(c: Codec, salt: seq<byte>, s: Counters, paddingLen: uint16, payloadLen: uint16,
      rest: seq<byte>)
    requires |salt| == SALT_LEN && s.saltSent
    ensures var prefix := FillPadding(c.p, s.seqNo, RecordPrefixLen(c.p, s.seqNo));
            var sealed := c.keyed(salt).seal(s.nonce, prefix, HeaderPlain(paddingLen, payloadLen));
            ReadHeader(c, InStep(c, salt, s, prefix + sealed + rest)) ==
            (Header(paddingLen, payloadLen), InStep(c, salt, Counters(NextSeq(s.seqNo), Increase(s.nonce), true), rest))
  {
    hide RecordPrefixLen, FillPadding;
    var prefix := FillPadding(c.p, s.seqNo, RecordPrefixLen(c.p, s.seqNo));
    var plain := HeaderPlain(paddingLen, payloadLen);
    var sealed := c.keyed(salt).seal(s.nonce, prefix, plain);
    assert |sealed| == HEADER_CIPHER_LEN;
    SplitAppend(prefix + sealed, rest);
    SplitAppend(prefix, sealed);
    Be16RoundTrip(paddingLen);
    Be16RoundTrip(payloadLen);
    assert FromBe16(plain, 3) == FromBe16(Be16(paddingLen), 0) && FromBe16(plain, 5) == FromBe16(Be16(payloadLen), 0);
  }

  lemma ReadBodyRoundTrip(c: Codec, salt: seq<byte>, s: Counters, payload: seq<byte>, rest: seq<byte>)
    requires |salt| == SALT_LEN && |payload| <= MAX_PAYLOAD
    ensures var after := Counters(NextSeq(s.seqNo), Increase(s.nonce), true);
            ReadBody(c, InStep(c, salt, after, Tail(c, salt, s, payload) + rest), s.seqNo,
                     LayoutOf(c.p, s, |payload|).paddingLen, |payload|) ==
            (Meaning(payload), InStep(c, salt, Step(s, payload), rest))
  {
    hide LayoutOf, Mix, FillPadding;
    SplitAppend(Tail(c, salt, s, payload), rest);
    if payload != [] {
      var x := Sealed(c, salt, s, payload);
      var y := Mix(c.p, s.seqNo, x);
      Assoc(y.padding, y.cipher, rest);
      SplitAppend(y.padding, y.cipher + rest);
      SplitAppend(y.cipher, rest);
      MixIsInvolution(c.p, s.seqNo, x);
    }
  }

  lemma RecordParts(block: seq<byte>, prefix: seq<byte>, sealed: seq<byte>, tail: seq<byte>, rest: seq<byte>)
    ensures (block + prefix + sealed + tail) + rest == block + (prefix + sealed + (tail + rest))
  {
  }

  /** One record: the payload comes back, and both ends agree on every counter. */
  lemma RecordRoundTrip(c: Codec, salt: seq<byte>, s: Counters, payload: seq<byte>, rest: seq<byte>)
    requires |salt| == SALT_LEN && |payload| <= MAX_PAYLOAD
    ensures ReadRecord(c, InStep(c, salt, s, Record(c, salt, s, payload) + rest)) ==
            (Meaning(payload), InStep(c, salt, Step(s, payload), rest))
  {
    hide RecordPrefixLen, FillPadding, PaddingLen, ReadHeader, ReadBody, OpenStream, SaltedBlock, Tail;
    var l := LayoutOf(c.p, s, |payload|);
    var block := if s.saltSent then [] else SaltedBlock(c.p, salt);
    var prefix := FillPadding(c.p, s.seqNo, l.prefixLen);
    var sealed := c.keyed(salt).seal(s.nonce, prefix, HeaderPlain(l.paddingLen, |payload|));
    var tail := Tail(c, salt, s, payload);
    RecordParts(block, prefix, sealed, tail, rest);
    OpenStreamRoundTrip(c, salt, s, prefix + sealed + (tail + rest));
    ReadHeaderRoundTrip(c, salt, s.(saltSent := true), l.paddingLen, |payload|, tail + rest);
    ReadBodyRoundTrip(c, salt, s, payload, rest);
  }

  /** Reading a number of records one after the other. */
  function ReadMany(c: Codec, r: Reading, n: nat): (seq<ReadResult>, Reading)
    decreases n
  {
    if n == 0 then ([], r)
    else
      var (first, after) := ReadRecord(c, r);
      var (others, end) := ReadMany(c, after, n - 1);
      ([first] + others, end)
  }

  function Meanings(payloads: seq<seq<byte>>): seq<ReadResult>
  {
    if payloads == [] then [] else [Meaning(payloads[0])] + Meanings(payloads[1..])
  }

  ghost predicate Fit(payloads: seq<seq<byte>>) {
    forall i :: 0 <= i < |payloads| ==> |payloads[i]| <= MAX_PAYLOAD
  }

  /** A run of records: every payload in order, one end for each zero chunk, nothing over-read. */
  lemma {:induction false} WireRoundTrip(c: Codec, salt: seq<byte>, s: Counters, payloads: seq<seq<byte>>,
      rest: seq<byte>)
    requires |salt| == SALT_LEN && Fit(payloads)
    ensures ReadMany(c, InStep(c, salt, s, Wire(c, salt, s, payloads) + rest), |payloads|) ==
            (Meanings(payloads), InStep(c, salt, StepAll(s, payloads), rest))
    decreases |payloads|
  {
    hide Record, ReadRecord, Step, Meaning;
    if payloads == [] {
      AppendNothing(rest);
    } else {
      var later := Wire(c, salt, Step(s, payloads[0]), payloads[1..]);
      Assoc(Record(c, salt, s, payloads[0]), later, rest);
      RecordRoundTrip(c, salt, s, payloads[0], later + rest);
      WireRoundTrip(c, salt, Step(s, payloads[0]), payloads[1..], rest);
    }
  }

  // ------------------------------------------------------------------- nonces

  /** The sequence number counts the records, modulo 2^32. */
  lemma {:induction false} RecordsAreCounted(s: Counters, payloads: seq<seq<byte>>)
    ensures StepAll(s, payloads).seqNo as int == (s.seqNo as int + |payloads|) % 0x1_0000_0000
    decreases |payloads|
  {
    hide Increase;
    if payloads != [] {
      RecordsAreCounted(Step(s, payloads[0]), payloads[1..]);
    }
  }

  /** One seal for each record's header, one for each payload. */
  function Seals(payloads: seq<seq<byte>>): nat
  {
    if payloads == [] then 0 else (if payloads[0] == [] then 1 else 2) + Seals(payloads[1..])
  }

  /** The nonce counts the seals. */
  lemma {:induction false} SealsAreCounted(s: Counters, payloads: seq<seq<byte>>)
    ensures StepAll(s, payloads).nonce == Advance(s.nonce, Seals(payloads))
    decreases |payloads|
  {
    hide NextSeq, Increase;
    if payloads != [] {
      AdvanceSmall(s.nonce);
      SealsAreCounted(Step(s, payloads[0]), payloads[1..]);
      AdvanceAdd(s.nonce, if payloads[0] == [] then 1 else 2, Seals(payloads[1..]));
    }
  }

  /** The nonces a run of records seals under, in order. */
  function NoncesUsed(s: Counters, payloads: seq<seq<byte>>): seq<seq<byte>>
    decreases |payloads|
  {
    if payloads == [] then []
    else
      (if payloads[0] == [] then [s.nonce] else [s.nonce, Increase(s.nonce)])
      + NoncesUsed(Step(s, payloads[0]), payloads[1..])
  }

  lemma {:induction false} NoncesAreCounted(s: Counters, payloads: seq<seq<byte>>)
    ensures |NoncesUsed(s, payloads)| == Seals(payloads)
    decreases |payloads|
  {
    hide NextSeq, Increase;
    if payloads != [] {
      NoncesAreCounted(Step(s, payloads[0]), payloads[1..]);
    }
  }

  lemma {:induction false} NoncesUsedAt(s: Counters, payloads: seq<seq<byte>>, i: nat)
    requires i < |NoncesUsed(s, payloads)|
    ensures NoncesUsed(s, payloads)[i] == Advance(s.nonce, i)
    decreases |payloads|
  {
    hide NextSeq, Increase;
    var here := if payloads[0] == [] then 1 else 2;
    AdvanceSmall(s.nonce);
    if i >= here {
      NoncesUsedAt(Step(s, payloads[0]), payloads[1..], i - here);
      AdvanceAdd(s.nonce, here, i - here);
    }
  }

  lemma AdvanceSmall(n: seq<byte>)
    ensures Advance(n, 0) == n && Advance(n, 1) == Increase(n) && Advance(n, 2) == Increase(Increase(n))
  {
    assert Advance(n, 1) == Advance(Increase(n), 0);
    assert Advance(n, 2) == Advance(Increase(n), 1) == Advance(Increase(Increase(n)), 0);
  }

  /** No two seals of a stream share a nonce while there are at most 2^96 of them. */
  lemma NoNonceSealedTwice(payloads: seq<seq<byte>>, i: nat, j: nat)
    requires i < j < Seals(payloads) <= Modulus(NONCE_LEN)
    ensures |NoncesUsed(Start(), payloads)| == Seals(payloads)
    ensures NoncesUsed(Start(), payloads)[i] != NoncesUsed(Start(), payloads)[j]
  {
    NoncesAreCounted(Start(), payloads);
    NoncesUsedAt(Start(), payloads, i);
    NoncesUsedAt(Start(), payloads, j);
    NoncesDistinct(Zeros(NONCE_LEN), i, j);
  }
}
