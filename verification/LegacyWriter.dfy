/** The record builders that the v4 and v5 writers share (snellv4/record.go, snellv5/record.go), octet by octet. */
module LegacyWriter {
  import opened Bytes
  import opened Aead
  import opened Nonce
  import opened Profile
  import opened LegacyCodec

  const RECORD_OVERHEAD := HEADER_CIPHER_LEN + TAG_LEN

  /** Data cut into records of at most limit octets; only the first is padded. */
  function CutPieces(data: seq<byte>, limit: nat, padding: seq<byte>): seq<Piece>
    requires limit > 0
    decreases |data|
  {
    if data == [] then [] else
      var n := Min(|data|, limit);
      [Piece(data[..n], padding)] + CutPieces(data[n..], limit, [])
  }

  function RecordCount(n: nat, limit: nat): nat
    requires limit > 0
  {
    (n + limit - 1) / limit
  }

  lemma TimesMonotone(a: nat, b: nat, d: nat)
    ensures a <= b ==> a * d <= b * d
  {
  }

  lemma QuotientIs(a: nat, d: nat, q: nat)
    requires q * d <= a < q * d + d
    ensures a / d == q
  {
    var p := a / d;
    assert p * d <= a < p * d + d;
    TimesMonotone(p + 1, q, d);
    TimesMonotone(q + 1, p, d);
  }

  lemma RecordCountStep(n: nat, limit: nat)
    requires n > 0 && limit > 0
    ensures RecordCount(n, limit) == 1 + RecordCount(n - Min(n, limit), limit)
  {
    if n <= limit {
      QuotientIs(n + limit - 1, limit, 1);
      QuotientIs(limit - 1, limit, 0);
    } else {
      var q := (n - 1) / limit;
      assert q * limit <= n - 1 < q * limit + limit;
      QuotientIs(n + limit - 1, limit, q + 1);
    }
  }

  /** The buffer size the source computes in advance is the size of the records. */
  lemma {:induction false} CutSize(k: Cipher, nonce: seq<byte>, data: seq<byte>, limit: nat, padding: seq<byte>)
    requires limit > 0
    ensures |PiecesBytes(k, nonce, CutPieces(data, limit, padding))| ==
            |data| + RecordCount(|data|, limit) * RECORD_OVERHEAD + if data == [] then 0 else |padding|
    decreases |data|
  {
    hide RecordCount;
    if data == [] {
      NoRecords(limit);
    } else {
      var n := Min(|data|, limit);
      var x := Piece(data[..n], padding);
      RecordCountStep(|data|, limit);
      CutFirst(k, nonce, data, limit, padding);
      CutSize(k, NonceAfter(nonce, x), data[n..], limit, []);
    }
  }

  /** One more record cut. */
  lemma CutFirst(k: Cipher, nonce: seq<byte>, data: seq<byte>, limit: nat, padding: seq<byte>)
    requires data != [] && limit > 0
    ensures var n := Min(|data|, limit);
            var x := Piece(data[..n], padding);
            var more := CutPieces(data[n..], limit, []);
            && PiecesBytes(k, nonce, CutPieces(data, limit, padding)) ==
              PieceBytes(k, nonce, x) + PiecesBytes(k, NonceAfter(nonce, x), more)
            && NonceAfterAll(nonce, CutPieces(data, limit, padding)) == NonceAfterAll(NonceAfter(nonce, x), more)
  {
    hide PieceBytes, NonceAfter;
    var n := Min(|data|, limit);
    SplitAppend([Piece(data[..n], padding)], CutPieces(data[n..], limit, []));
  }

  lemma NothingCut(k: Cipher, nonce: seq<byte>, limit: nat, padding: seq<byte>)
    requires limit > 0
    ensures PiecesBytes(k, nonce, CutPieces([], limit, padding)) == []
            && NonceAfterAll(nonce, CutPieces([], limit, padding)) == nonce
  {
  }

  lemma NoRecords(limit: nat)
    requires limit > 0
    ensures RecordCount(0, limit) == 0
  {
    QuotientIs(limit - 1, limit, 0);
  }

  /** The records fit the format and carry exactly the data. */
  lemma {:induction false} CutCarries(data: seq<byte>, limit: nat, padding: seq<byte>)
    requires 0 < limit <= MAX_PAYLOAD_LEN && |padding| <= MAX_PAYLOAD_LEN
    ensures AllFit(CutPieces(data, limit, padding)) && PiecesData(CutPieces(data, limit, padding)) == data
    ensures forall i :: 0 <= i < |CutPieces(data, limit, padding)| ==>
            0 < |CutPieces(data, limit, padding)[i].payload| <= limit
    decreases |data|
  {
    if data != [] {
      var n := Min(|data|, limit);
      CutCarries(data[n..], limit, []);
      SplitAppend([Piece(data[..n], padding)], CutPieces(data[n..], limit, []));
      assert data == data[..n] + data[n..];
    }
  }

  // ------------------------------------------------------------ in a buffer

  lemma Unpadded(sealed: seq<byte>)
    ensures Exchanged([], sealed) == sealed
  {
  }

  /** The padding filled and exchanged with the sealed payload that stands behind it. */
  method PadAndSwap(data: array<byte>, at: nat, fill: seq<byte>, cipherLen: nat)
    requires at + |fill| + cipherLen <= data.Length
    modifies data
    ensures Slice(data, at, |fill| + cipherLen) == Exchanged(fill, old(Slice(data, at + |fill|, cipherLen)))
    ensures OnlySlice(data, at, |fill| + cipherLen)
  {
    hide EvenSwapped;
    ghost var sealed := Slice(data, at + |fill|, cipherLen);
    if |fill| > 0 {
      Put(data, at, fill);
      assert Slice(data, at + |fill|, cipherLen) == sealed;
      SwapEven(data, at, |fill|, cipherLen);
      SliceJoin(data, at, |fill|, cipherLen);
    } else {
      Unpadded(sealed);
    }
  }

  /** Padding and payload of one record, sealed from a slice. */
  method SealBody(data: array<byte>, at: nat, k: Cipher, nonce: array<byte>, payload: seq<byte>, fill: seq<byte>)
    requires at + |fill| + |payload| + TAG_LEN <= data.Length && nonce != data
    modifies data
    ensures Slice(data, at, |fill| + |payload| + TAG_LEN) == Exchanged(fill, SealedPayload(k, nonce[..], payload))
    ensures OnlySlice(data, at, |fill| + |payload| + TAG_LEN)
  {
    Put(data, at + |fill|, SealedPayload(k, nonce[..], payload));
    PadAndSwap(data, at, fill, |payload| + TAG_LEN);
  }

  /** A record sealed from a slice into data[at:]: sealRecordLocked and makeSliceRecordLocked. */
  method SealRecord(data: array<byte>, at: nat, k: Cipher, nonce: array<byte>, x: Piece)
    requires at + |PieceBytes(k, nonce[..], x)| <= data.Length && nonce != data && FitPiece(x)
    modifies data, nonce
    ensures Slice(data, at, |PieceBytes(k, old(nonce[..]), x)|) == PieceBytes(k, old(nonce[..]), x)
    ensures OnlySlice(data, at, |PieceBytes(k, old(nonce[..]), x)|)
    ensures nonce[..] == NonceAfter(old(nonce[..]), x)
  {
    hide EvenSwapped, Increase, Exchanged;
    var head := SealedHeader(k, nonce[..], |x.padding|, |x.payload|);
    Put(data, at, head);
    IncreaseNonce(nonce);
    if x.payload == [] {
      AppendNothing(head);
      return;
    }
    var bodyLen := |x.padding| + |x.payload| + TAG_LEN;
    SealBody(data, at + HEADER_CIPHER_LEN, k, nonce, x.payload, x.padding);
    assert Slice(data, at, HEADER_CIPHER_LEN) == head;
    SliceJoin(data, at, HEADER_CIPHER_LEN, bodyLen);
    IncreaseNonce(nonce);
  }

  /**
   A record sealed around a payload that already stands in the buffer, with room for the
   header and the padding in front of it and for the tag behind: makeBufferRecordLocked.
   What stood in the buffer otherwise does not matter.
   */
  method SealAround(data: array<byte>, at: nat, payloadLen: nat, k: Cipher, nonce: array<byte>, fill: seq<byte>)
    requires at + HEADER_CIPHER_LEN + |fill| + payloadLen + TAG_LEN <= data.Length && nonce != data
    modifies data, nonce
    ensures var x := Piece(old(Slice(data, at + HEADER_CIPHER_LEN + |fill|, payloadLen)), fill);
            Slice(data, at, HEADER_CIPHER_LEN + |fill| + payloadLen + TAG_LEN) == AroundBytes(k, old(nonce[..]), x)
    ensures nonce[..] == Increase(Increase(old(nonce[..])))
    ensures OnlySlice(data, at, HEADER_CIPHER_LEN + |fill| + payloadLen + TAG_LEN)
  {
    hide EvenSwapped, Increase, Exchanged;
    var from := at + HEADER_CIPHER_LEN + |fill|;
    var payload := data[from..from + payloadLen];
    assert payload == Slice(data, from, payloadLen);
    var head := SealedHeader(k, nonce[..], |fill|, payloadLen);
    Put(data, at, head);
    IncreaseNonce(nonce);
    SealBody(data, at + HEADER_CIPHER_LEN, k, nonce, payload, fill);
    assert Slice(data, at, HEADER_CIPHER_LEN) == head;
    SliceJoin(data, at, HEADER_CIPHER_LEN, |fill| + payloadLen + TAG_LEN);
    IncreaseNonce(nonce);
  }

  lemma WholeBuffer(out: array<byte>, from: nat)
    requires from <= out.Length
    ensures out[..] == out[..from] + Slice(out, from, out.Length - from)
  {
  }

  lemma FitsFormat(x: Piece)
    requires 0 < |x.payload| <= MAX_PAYLOAD_LEN && |x.padding| <= MAX_PAYLOAD_LEN
    ensures FitPiece(x)
    ensures forall k: Cipher, nonce: seq<byte> ::
            |PieceBytes(k, nonce, x)| == HEADER_CIPHER_LEN + |x.padding| + |x.payload| + TAG_LEN
  {
  }

  /** A record sealed right behind `done` octets that stand from `from` on. */
  method SealNext(out: array<byte>, from: nat, done: nat, k: Cipher, nonce: array<byte>, x: Piece)
    requires from + done + |PieceBytes(k, nonce[..], x)| <= out.Length && nonce != out && FitPiece(x)
    modifies out, nonce
    ensures var bytes := PieceBytes(k, old(nonce[..]), x);
            Slice(out, from, done + |bytes|) == old(Slice(out, from, done)) + bytes
    ensures out[..from] == old(out[..from])
    ensures nonce[..] == NonceAfter(old(nonce[..]), x)
  {
    hide PieceBytes, NonceAfter;
    ghost var before, bytes := Slice(out, from, done), PieceBytes(k, nonce[..], x);
    SealRecord(out, from + done, k, nonce, x);
    assert Slice(out, from, done) == before;
    SliceJoin(out, from, done, |bytes|);
  }

  /**
   The records of one batch, sealed one behind the other into a buffer of the size computed
   in advance, behind `filled` octets already there: the buffer ends up exactly full.
   */
  method SealBatch(out: array<byte>, filled: nat, k: Cipher, nonce: array<byte>, data: seq<byte>, limit: nat,
      padding: seq<byte>)
    requires 0 < limit <= MAX_PAYLOAD_LEN && |padding| <= MAX_PAYLOAD_LEN && nonce != out
    requires out.Length == filled + |PiecesBytes(k, nonce[..], CutPieces(data, limit, padding))|
    modifies out, nonce
    ensures out[..] == old(out[..filled]) + PiecesBytes(k, old(nonce[..]), CutPieces(data, limit, padding))
    ensures nonce[..] == NonceAfterAll(old(nonce[..]), CutPieces(data, limit, padding))
  {
    hide PieceBytes, NonceAfter, CutPieces, PiecesBytes, NonceAfterAll, Slice, FitPiece;
    ghost var all, n0, was := CutPieces(data, limit, padding), nonce[..], out[..filled];
    var rest, pad, at := data, padding, filled;
    AppendNothing(PiecesBytes(k, n0, all));
    while |rest| > 0
      invariant filled <= at <= out.Length && |pad| <= MAX_PAYLOAD_LEN
      invariant at + |PiecesBytes(k, nonce[..], CutPieces(rest, limit, pad))| == out.Length
      invariant out[..filled] == was
      invariant Slice(out, filled, at - filled) + PiecesBytes(k, nonce[..], CutPieces(rest, limit, pad)) ==
                PiecesBytes(k, n0, all)
      invariant NonceAfterAll(nonce[..], CutPieces(rest, limit, pad)) == NonceAfterAll(n0, all)
      decreases |rest|
    {
      var n := Min(|rest|, limit);
      var x := Piece(rest[..n], pad);
      FitsFormat(x);
      ghost var more := CutPieces(rest[n..], limit, []);
      CutFirst(k, nonce[..], rest, limit, pad);
      ghost var done, bytes := Slice(out, filled, at - filled), PieceBytes(k, nonce[..], x);
      SealNext(out, filled, at - filled, k, nonce, x);
      Assoc(done, bytes, PiecesBytes(k, nonce[..], more));
      at := at + HEADER_CIPHER_LEN + |pad| + n + TAG_LEN;
      rest, pad := rest[n..], [];
    }
    NothingCut(k, nonce[..], limit, pad);
    AppendNothing(Slice(out, filled, at - filled));
    WholeBuffer(out, filled);
  }
}
