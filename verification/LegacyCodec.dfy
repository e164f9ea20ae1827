/**
 The record of versions 4 and 5 as a value (snellv4/record.go, snellv5/record.go): a sealed
 header, padding, and the sealed payload, with the padding's and the payload's even octets
 exchanged. The two versions write the same format and differ in what the reader does
 about octets behind a zero chunk.
 */
module LegacyCodec {
  import opened Bytes
  import opened Aead
  import opened Nonce
  import opened Profile
  import opened ShapedCodec

  const MAX_PAYLOAD_LEN := 0x3fff

  datatype Version = V4 | V5

  // the sizing constants are the same in both versions
  const FRAME_SIZE := 1460
  const FIRST_RECORD_OVERHEAD := 55
  const RESET_RECORD_OVERHEAD := 39
  const INITIAL_PADDING_MIN := 0x100
  const MAX_INITIAL_PADDING := 0x1ff
  const STEP := FRAME_SIZE - RESET_RECORD_OVERHEAD
  const RESET_INTERVAL := 31

  type InitialPadding = n: nat | INITIAL_PADDING_MIN <= n <= MAX_INITIAL_PADDING witness INITIAL_PADDING_MIN

  /** The first record leaves room for salt, header, tags and padding in one frame. */
  function FirstLimit(padding: InitialPadding): (n: nat)
    ensures 894 <= n <= 1149
  {
    FRAME_SIZE - FIRST_RECORD_OVERHEAD - padding
  }

  predicate SaneLimit(n: nat) { 894 <= n <= MAX_PAYLOAD_LEN }

  /** a with its even octets taken from b, as far as both go. */
  function EvenSwapped(a: seq<byte>, b: seq<byte>): (r: seq<byte>)
    ensures |r| == |a|
  {
    seq<byte>(|a|, i requires 0 <= i < |a| => if i % 2 == 0 && i < |b| then b[i] else a[i])
  }

  lemma EvenSwapTwice(a: seq<byte>, b: seq<byte>)
    ensures EvenSwapped(EvenSwapped(a, b), EvenSwapped(b, a)) == a
  {
  }

  /** The octet at j once the even ones of data[a:a+count] and data[b:b+count] have been exchanged. */
  function SwappedAt(was: seq<byte>, a: nat, b: nat, count: nat, j: nat): byte
    requires a + count <= b && b + count <= |was| && j < |was|
  {
    if a <= j < a + count && (j - a) % 2 == 0 then was[j - a + b]
    else if b <= j < b + count && (j - b) % 2 == 0 then was[j - b + a]
    else was[j]
  }

  lemma SwappedNext(was: seq<byte>, a: nat, b: nat, limit: nat, index: nat, j: nat)
    requires a + limit <= b && b + limit <= |was| && j < |was| && index < limit && index % 2 == 0
    ensures SwappedAt(was, a, b, Min(index + 2, limit), j) ==
            if j == a + index then was[b + index]
            else if j == b + index then was[a + index]
            else SwappedAt(was, a, b, index, j)
  {
  }

  /** for index := 0; index < limit; index += 2, in place. */
  method SwapLoop(data: array<byte>, a: nat, b: nat, limit: nat)
    requires a + limit <= b && b + limit <= data.Length
    modifies data
    ensures forall j :: 0 <= j < data.Length ==> data[j] == SwappedAt(old(data[..]), a, b, limit, j)
  {
    hide SwappedAt;
    ghost var was := data[..];
    forall j | 0 <= j < data.Length ensures data[j] == SwappedAt(was, a, b, 0, j) { NothingSwapped(was, a, b, j); }
    var index := 0;
    while index < limit
      invariant 0 <= index <= limit + 1 && index % 2 == 0
      invariant forall j :: 0 <= j < data.Length ==> data[j] == SwappedAt(was, a, b, Min(index, limit), j)
    {
      NotSwappedYet(was, a, b, limit, index);
      ghost var now := data[..];
      data[a + index], data[b + index] := data[b + index], data[a + index];
      forall j | 0 <= j < data.Length ensures data[j] == SwappedAt(was, a, b, Min(index + 2, limit), j) {
        SwappedNext(was, a, b, limit, index, j);
        assert now[j] == SwappedAt(was, a, b, index, j);
      }
      index := index + 2;
    }
  }

  lemma NothingSwapped(was: seq<byte>, a: nat, b: nat, j: nat)
    requires a <= b <= |was| && j < |was|
    ensures SwappedAt(was, a, b, 0, j) == was[j]
  {
  }

  lemma NotSwappedYet(was: seq<byte>, a: nat, b: nat, limit: nat, index: nat)
    requires a + limit <= b && b + limit <= |was| && index < limit
    ensures SwappedAt(was, a, b, index, a + index) == was[a + index]
    ensures SwappedAt(was, a, b, index, b + index) == was[b + index]
  {
  }

  lemma SwappedInPadding(was: seq<byte>, at: nat, padLen: nat, cipherLen: nat, k: nat)
    requires at + padLen + cipherLen <= |was| && k < padLen
    ensures SwappedAt(was, at, at + padLen, Min(padLen, cipherLen), at + k) ==
            EvenSwapped(was[at..at + padLen], was[at + padLen..at + padLen + cipherLen])[k]
  {
    assert at + k - at == k;
  }

  lemma SwappedInCipher(was: seq<byte>, at: nat, padLen: nat, cipherLen: nat, k: nat)
    requires at + padLen + cipherLen <= |was| && k < cipherLen
    ensures SwappedAt(was, at, at + padLen, Min(padLen, cipherLen), at + padLen + k) ==
            EvenSwapped(was[at + padLen..at + padLen + cipherLen], was[at..at + padLen])[k]
  {
    assert at + padLen + k - (at + padLen) == k;
  }

  /** Padding and sealed payload exchange their even octets where they stand. */
  method SwapEven(data: array<byte>, at: nat, padLen: nat, cipherLen: nat)
    requires at + padLen + cipherLen <= data.Length
    modifies data
    ensures Slice(data, at, padLen) ==
            EvenSwapped(old(Slice(data, at, padLen)), old(Slice(data, at + padLen, cipherLen)))
    ensures Slice(data, at + padLen, cipherLen) ==
            EvenSwapped(old(Slice(data, at + padLen, cipherLen)), old(Slice(data, at, padLen)))
    ensures OnlySlice(data, at, padLen + cipherLen)
  {
    hide EvenSwapped;
    ghost var was := data[..];
    SwapLoop(data, at, at + padLen, Min(padLen, cipherLen));
    ghost var p, c := was[at..at + padLen], was[at + padLen..at + padLen + cipherLen];
    forall k | 0 <= k < padLen ensures Slice(data, at, padLen)[k] == EvenSwapped(p, c)[k] {
      SwappedInPadding(was, at, padLen, cipherLen, k);
      assert Slice(data, at, padLen)[k] == data[at + k];
    }
    forall k | 0 <= k < cipherLen ensures Slice(data, at + padLen, cipherLen)[k] == EvenSwapped(c, p)[k] {
      SwappedInCipher(was, at, padLen, cipherLen, k);
      assert Slice(data, at + padLen, cipherLen)[k] == data[at + padLen + k];
    }
    assert Slice(data, at, padLen) == EvenSwapped(p, c);
    assert Slice(data, at + padLen, cipherLen) == EvenSwapped(c, p);
  }

  /** What one record carries. */
  datatype Piece = Piece(payload: seq<byte>, padding: seq<byte>)

  predicate FitPiece(x: Piece) {
    |x.payload| <= MAX_PAYLOAD_LEN && |x.padding| <= MAX_PAYLOAD_LEN && (x.payload == [] ==> x.padding == [])
  }

  ghost predicate AllFit(xs: seq<Piece>) { forall i :: 0 <= i < |xs| ==> FitPiece(xs[i]) }

  function SealedHeader(k: Cipher, nonce: seq<byte>, paddingLen: nat, payloadLen: nat): (h: seq<byte>)
    ensures |h| == HEADER_CIPHER_LEN
  {
    k.seal(nonce, [], HeaderPlain(paddingLen, payloadLen))
  }

  function SealedPayload(k: Cipher, nonce: seq<byte>, payload: seq<byte>): (s: seq<byte>)
    ensures |s| == |payload| + TAG_LEN
  {
    k.seal(nonce, [], payload)
  }

  function Exchanged(padding: seq<byte>, sealed: seq<byte>): (s: seq<byte>)
    ensures |s| == |padding| + |sealed|
  {
    EvenSwapped(padding, sealed) + EvenSwapped(sealed, padding)
  }

  /** The octets of one record; one nonce for a zero chunk, two otherwise. */
  function PieceBytes(k: Cipher, nonce: seq<byte>, x: Piece): (s: seq<byte>)
    ensures |s| == HEADER_CIPHER_LEN + if x.payload == [] then 0 else |x.padding| + |x.payload| + TAG_LEN
  {
    SealedHeader(k, nonce, |x.padding|, |x.payload|)
    + if x.payload == [] then [] else Exchanged(x.padding, SealedPayload(k, Increase(nonce), x.payload))
  }

  function NonceAfter(nonce: seq<byte>, x: Piece): (n: seq<byte>)
    ensures |n| == |nonce|
  {
    if x.payload == [] then Increase(nonce) else Increase(Increase(nonce))
  }

  function PiecesBytes(k: Cipher, nonce: seq<byte>, xs: seq<Piece>): seq<byte>
    decreases |xs|
  {
    if xs == [] then [] else PieceBytes(k, nonce, xs[0]) + PiecesBytes(k, NonceAfter(nonce, xs[0]), xs[1..])
  }

  function NonceAfterAll(nonce: seq<byte>, xs: seq<Piece>): (n: seq<byte>)
    ensures |n| == |nonce|
    decreases |xs|
  {
    if xs == [] then nonce else NonceAfterAll(NonceAfter(nonce, xs[0]), xs[1..])
  }

  lemma {:induction false} PiecesAppend(k: Cipher, nonce: seq<byte>, xs: seq<Piece>, ys: seq<Piece>)
    ensures PiecesBytes(k, nonce, xs + ys) == PiecesBytes(k, nonce, xs) + PiecesBytes(k, NonceAfterAll(nonce, xs), ys)
    ensures NonceAfterAll(nonce, xs + ys) == NonceAfterAll(NonceAfterAll(nonce, xs), ys)
    decreases |xs|
  {
    hide PieceBytes, NonceAfter;
    if xs == [] {
      AppendNothing(ys);
      AppendNothing(PiecesBytes(k, nonce, ys));
    } else {
      var n := NonceAfter(nonce, xs[0]);
      PiecesAppend(k, n, xs[1..], ys);
      TailAppend(xs, ys);
      Assoc(PieceBytes(k, nonce, xs[0]), PiecesBytes(k, n, xs[1..]), PiecesBytes(k, NonceAfterAll(n, xs[1..]), ys));
    }
  }

  // ------------------------------------------------------------ reading

  /** The reader's nonce and the octets still to come. */
  datatype LegacyReading = LegacyReading(nonce: seq<byte>, wire: seq<byte>)

  function ReadPayload(k: Cipher, r: LegacyReading, paddingLen: nat, payloadLen: nat): (ReadResult, LegacyReading)
  {
    var n := payloadLen + TAG_LEN;
    var unpadded := r.(wire := Drop(r.wire, paddingLen));
    var after := unpadded.(wire := Drop(unpadded.wire, n));
    match (if paddingLen > 0 then TakeFull(r.wire, paddingLen) else Taken([]))
    case Short(result) => (result, unpadded)
    case Taken(padding) =>
      match TakeFull(unpadded.wire, n)
      case Short(result) => (result, after)
      case Taken(body) =>
        match k.open(r.nonce, [], EvenSwapped(body, padding))
        case None => (Failed(PayloadTag), after)
        case Some(data) => (Payload(data), after.(nonce := Increase(r.nonce)))
  }

  /** ReadRecord; buffered is how many octets behind the header have already
      arrived. The reserved octets are not looked at. */
  function ReadPiece(v: Version, k: Cipher, r: LegacyReading, buffered: nat): (ReadResult, LegacyReading)
  {
    var after := r.(wire := Drop(r.wire, HEADER_CIPHER_LEN));
    match TakeFull(r.wire, HEADER_CIPHER_LEN)
    case Short(result) => (result, after)
    case Taken(head) =>
      match k.open(r.nonce, [], head)
      case None => (Failed(HeaderTag), after)
      case Some(plain) =>
        var unsealed := after.(nonce := Increase(r.nonce));
        if plain[0] != HEADER_VERSION then (Failed(BadVersion(plain[0])), unsealed)
        else if FromBe16(plain, 5) == 0 then
          (if v.V4? && buffered > 0 then Failed(TrailingData) else EndOfStream, unsealed)
        else ReadPayload(k, unsealed, FromBe16(plain, 3), FromBe16(plain, 5))
  }

  /** What a piece means to a reader; a v4 reader rejects a zero chunk if anything behind it has arrived. */
  function PieceMeaning(v: Version, x: Piece, buffered: nat): ReadResult
  {
    if x.payload != [] then Payload(x.payload)
    else if v.V4? && buffered > 0 then Failed(TrailingData)
    else EndOfStream
  }

  /** Either reader reads back either writer's record and leaves the octets behind it, in step. */
  lemma PieceRoundTrip(v: Version, k: Cipher, nonce: seq<byte>, x: Piece, rest: seq<byte>, buffered: nat)
    requires FitPiece(x)
    ensures ReadPiece(v, k, LegacyReading(nonce, PieceBytes(k, nonce, x) + rest), buffered) ==
            (PieceMeaning(v, x, buffered), LegacyReading(NonceAfter(nonce, x), rest))
  {
    hide EvenSwapped;
    var head := SealedHeader(k, nonce, |x.padding|, |x.payload|);
    HeaderFields(|x.padding|, |x.payload|);
    if x.payload == [] {
      AppendNothing(head);
      SplitAppend(head, rest);
    } else {
      var sealed := SealedPayload(k, Increase(nonce), x.payload);
      Assoc(head, Exchanged(x.padding, sealed), rest);
      SplitAppend(head, Exchanged(x.padding, sealed) + rest);
      PayloadRoundTrip(k, Increase(nonce), x, rest);
    }
  }

  lemma PayloadRoundTrip(k: Cipher, nonce: seq<byte>, x: Piece, rest: seq<byte>)
    requires x.payload != []
    ensures ReadPayload(k, LegacyReading(nonce, Exchanged(x.padding, SealedPayload(k, nonce, x.payload)) + rest),
            |x.padding|, |x.payload|) ==
            (Payload(x.payload), LegacyReading(Increase(nonce), rest))
  {
    hide EvenSwapped;
    var sealed := SealedPayload(k, nonce, x.payload);
    var p, c := EvenSwapped(x.padding, sealed), EvenSwapped(sealed, x.padding);
    Assoc(p, c, rest);
    SplitAppend(p, c + rest);
    SplitAppend(c, rest);
    EvenSwapTwice(sealed, x.padding);
  }

  lemma HeaderFields(paddingLen: nat, payloadLen: nat)
    requires paddingLen < 0x1_0000 && payloadLen < 0x1_0000
    ensures var h := HeaderPlain(paddingLen, payloadLen);
            h[0] == HEADER_VERSION && FromBe16(h, 3) == paddingLen && FromBe16(h, 5) == payloadLen
  {
    Be16RoundTrip(paddingLen);
    Be16RoundTrip(payloadLen);
    var h := HeaderPlain(paddingLen, payloadLen);
    assert h[3] == Be16(paddingLen)[0] && h[4] == Be16(paddingLen)[1] && h[5] == Be16(payloadLen)[0]
      && h[6] == Be16(payloadLen)[1];
  }

  function ReadPieces(v: Version, k: Cipher, r: LegacyReading, buffered: seq<nat>): (seq<ReadResult>, LegacyReading)
    decreases |buffered|
  {
    if buffered == [] then ([], r)
    else
      var (first, after) := ReadPiece(v, k, r, buffered[0]);
      var (more, end) := ReadPieces(v, k, after, buffered[1..]);
      ([first] + more, end)
  }

  function PieceMeanings(v: Version, xs: seq<Piece>, buffered: seq<nat>): seq<ReadResult>
    requires |xs| == |buffered|
  {
    if xs == [] then [] else [PieceMeaning(v, xs[0], buffered[0])] + PieceMeanings(v, xs[1..], buffered[1..])
  }

  /**
   Across versions: whatever either writer puts on the wire, with any padding octets, either
   reader reads back record by record, and both ends hold the same nonce afterwards. Only a
   v4 reader that sees more octets behind a zero chunk reports an error in its place.
   */
  lemma {:induction false} PiecesRoundTrip(v: Version, k: Cipher, nonce: seq<byte>, xs: seq<Piece>, rest: seq<byte>,
      buffered: seq<nat>)
    requires AllFit(xs) && |buffered| == |xs|
    ensures ReadPieces(v, k, LegacyReading(nonce, PiecesBytes(k, nonce, xs) + rest), buffered) ==
            (PieceMeanings(v, xs, buffered), LegacyReading(NonceAfterAll(nonce, xs), rest))
    decreases |xs|
  {
    hide PieceBytes, NonceAfter, ReadPiece, PieceMeaning, FitPiece;
    if xs == [] {
      AppendNothing(rest);
    } else {
      var n := NonceAfter(nonce, xs[0]);
      var more := PiecesBytes(k, n, xs[1..]);
      Assoc(PieceBytes(k, nonce, xs[0]), more, rest);
      PieceRoundTrip(v, k, nonce, xs[0], more + rest, buffered[0]);
      PiecesRoundTrip(v, k, n, xs[1..], rest, buffered[1..]);
    }
  }

  /** What the stream data of a run of pieces is. */
  function PiecesData(xs: seq<Piece>): seq<byte>
  {
    if xs == [] then [] else xs[0].payload + PiecesData(xs[1..])
  }

  // ------------------------------------------------------------ from the start of a connection

  /** A reader before and after it has read the salt and derived its cipher. */
  datatype LegacyReceiving = LegacyReceiving(cipher: Option<Cipher>, r: LegacyReading)

  function ReadLegacy(v: Version, keyed: Keyed, x: LegacyReceiving, buffered: nat): (ReadResult, LegacyReceiving)
  {
    if x.cipher.Some? then
      var (result, after) := ReadPiece(v, x.cipher.value, x.r, buffered);
      (result, x.(r := after))
    else
      var rest := Drop(x.r.wire, SALT_LEN);
      match TakeFull(x.r.wire, SALT_LEN)
      case Short(result) => (result, x.(r := x.r.(wire := rest)))
      case Taken(salt) =>
        var (result, after) := ReadPiece(v, keyed(salt), LegacyReading(Zeros(NONCE_LEN), rest), buffered);
        (result, LegacyReceiving(Some(keyed(salt)), after))
  }

  function ReadLegacyAll(v: Version, keyed: Keyed, x: LegacyReceiving, buffered: seq<nat>):
    (seq<ReadResult>, LegacyReceiving)
    decreases |buffered|
  {
    if buffered == [] then ([], x)
    else
      var (first, after) := ReadLegacy(v, keyed, x, buffered[0]);
      var (more, end) := ReadLegacyAll(v, keyed, after, buffered[1..]);
      ([first] + more, end)
  }

  /** What a writer of either version puts on a connection: the salt in front of the first record. */
  function ConnectionBytes(keyed: Keyed, salt: seq<byte>, xs: seq<Piece>): seq<byte>
  {
    if xs == [] then [] else salt + PiecesBytes(keyed(salt), Zeros(NONCE_LEN), xs)
  }

  lemma {:induction false} ReadsOn(v: Version, keyed: Keyed, k: Cipher, r: LegacyReading, buffered: seq<nat>)
    ensures var (results, end) := ReadPieces(v, k, r, buffered);
            ReadLegacyAll(v, keyed, LegacyReceiving(Some(k), r), buffered) == (results, LegacyReceiving(Some(k), end))
    decreases |buffered|
  {
    hide ReadPiece;
    if buffered != [] {
      ReadsOn(v, keyed, k, ReadPiece(v, k, r, buffered[0]).1, buffered[1..]);
    }
  }

  /** A reader of either version, deriving its cipher from the salt it finds, reads back the whole connection. */
  lemma ConnectionRoundTrip(v: Version, keyed: Keyed, salt: seq<byte>, xs: seq<Piece>, rest: seq<byte>,
      buffered: seq<nat>)
    requires |salt| == SALT_LEN && AllFit(xs) && xs != [] && |buffered| == |xs|
    ensures ReadLegacyAll(v, keyed, LegacyReceiving(None, LegacyReading([], ConnectionBytes(keyed, salt, xs) + rest)),
            buffered) ==
            (PieceMeanings(v, xs, buffered),
              LegacyReceiving(Some(keyed(salt)), LegacyReading(NonceAfterAll(Zeros(NONCE_LEN), xs), rest)))
  {
    hide ReadPiece, PiecesBytes, PieceMeanings, NonceAfterAll;
    var k, n := keyed(salt), Zeros(NONCE_LEN);
    var wire := PiecesBytes(k, n, xs) + rest;
    Assoc(salt, PiecesBytes(k, n, xs), rest);
    SplitAppend(salt, wire);
    PiecesRoundTrip(v, k, n, xs, rest, buffered);
    var (first, after) := ReadPiece(v, k, LegacyReading(n, wire), buffered[0]);
    ReadsOn(v, keyed, k, after, buffered[1..]);
  }

  // ------------------------------------------------------------ an empty payload sealed in place

  /** A record built around its payload: the payload is sealed and a second nonce spent even if it is empty. */
  function AroundBytes(k: Cipher, nonce: seq<byte>, x: Piece): (s: seq<byte>)
    ensures |s| == HEADER_CIPHER_LEN + |x.padding| + |x.payload| + TAG_LEN
    ensures x.payload != [] ==> s == PieceBytes(k, nonce, x)
  {
    SealedHeader(k, nonce, |x.padding|, |x.payload|)
      + Exchanged(x.padding, SealedPayload(k, Increase(nonce), x.payload))
  }

  /** v5 builds an empty packet like that; it leaves a reader in step exactly if the payload is not empty. */
  lemma AroundInStepIff(k: Cipher, nonce: seq<byte>, payload: seq<byte>, rest: seq<byte>)
    requires |payload| <= MAX_PAYLOAD_LEN
    ensures var after := ReadPiece(V5, k, LegacyReading(nonce, AroundBytes(k, nonce, Piece(payload, [])) + rest), 0).1;
            after == LegacyReading(Increase(Increase(nonce)), rest) <==> payload != []
  {
    hide EvenSwapped;
    if payload == [] {
      HeaderFields(0, 0);
      var head, body := SealedHeader(k, nonce, 0, 0), Exchanged([], SealedPayload(k, Increase(nonce), []));
      Assoc(head, body, rest);
      SplitAppend(head, body + rest);
    } else {
      PieceRoundTrip(V5, k, nonce, Piece(payload, []), rest, 0);
    }
  }
}
