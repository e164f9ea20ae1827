/** The v5 writer (snellv5/record.go): pacing, batching into exactly sized buffers, and records built in place. */
module WriterV5 {
  import opened Bytes
  import opened Aead
  import opened Nonce
  import opened Profile
  import opened LegacyCodec
  import opened LegacyWriter
  import opened LegacyStream
  import opened PacingV5
  import opened ShapedStream
  import opened ShapedWriter

  /** The records a write makes, and the pace after it. */
  datatype Plan = Plan(pieces: seq<Piece>, after: Pace)

  /** A stream write from its i-th batch on; padding goes to the first record. */
  function PlanStream(p: Pace, data: seq<byte>, clock: nat -> Tick, i: nat, padding: seq<byte>): (r: Plan)
    requires Sane(p)
    ensures Sane(r.after)
    decreases |data|
  {
    PaceStaysSane(p, |data|, clock(i));
    if data == [] then Plan([], p)
    else
      var n := BatchLen(p, |data|, clock(i));
      var later := PlanStream(AfterBatch(p, |data|, clock(i)), data[n..], clock, i + 1, []);
      later.(pieces := CutPieces(data[..n], BatchLimit(p, clock(i)), padding) + later.pieces)
  }

  /** Records split at the limits say the data, and every one fits the format. */
  lemma {:induction false} PlanSays(p: Pace, data: seq<byte>, clock: nat -> Tick, i: nat, padding: seq<byte>)
    requires Sane(p) && |padding| <= MAX_PAYLOAD_LEN
    ensures var pieces := PlanStream(p, data, clock, i, padding).pieces;
            AllFit(pieces) && PieceTokens(pieces) == Octets(data)
    decreases |data|
  {
    hide FitPiece, PieceTokens, AfterBatch, BatchLimit, CutPieces;
    if data == [] {
      SaysNothing();
    } else {
      PaceStaysSane(p, |data|, clock(i));
      var n := BatchLen(p, |data|, clock(i));
      var limit, q := BatchLimit(p, clock(i)), AfterBatch(p, |data|, clock(i));
      CutCarries(data[..n], limit, padding);
      CutSays(data[..n], limit, padding);
      PlanSays(q, data[n..], clock, i + 1, []);
      PieceTokensAppend(CutPieces(data[..n], limit, padding), PlanStream(q, data[n..], clock, i + 1, []).pieces);
      OctetsAppend(data[..n], data[n..]);
      assert data == data[..n] + data[n..];
    }
  }

  lemma SaysNothing()
    ensures PieceTokens([]) == [] && Octets([]) == []
  {
  }

  // ------------------------------------------------------------ runs of writes

  /** Write, WriteFirst and WriteBuffer are stream writes; a packet must fit the limit and not be empty. */
  datatype Op = Data(data: seq<byte>, clock: nat -> Tick, padding: seq<byte>) | Zero(now: int)
      | Packet(payload: seq<byte>, now: int)

  predicate OpFits(p: Pace, op: Op) {
    match op
    case Data(_, _, padding) => |padding| <= MAX_PAYLOAD_LEN
    case Zero(_) => true
    case Packet(payload, now) => 0 < |payload| <= LimitNow(p, now)
  }

  function PlanOp(p: Pace, op: Op): (r: Plan)
    requires Sane(p)
    ensures Sane(r.after)
  {
    match op
    case Data(data, clock, padding) => PlanStream(p, data, clock, 0, padding)
    case Zero(now) => PaceStaysSane(p.(streamPayloadLeft := 0), 0, Tick(now, now)); PlanZero(p, now)
    case Packet(payload, now) => PaceStaysSane(p, 0, Tick(now, now)); PlanPacket(p, now, payload)
  }

  ghost predicate OpsFit(p: Pace, ops: seq<Op>)
    requires Sane(p)
    decreases |ops|
  {
    ops == [] || (OpFits(p, ops[0]) && OpsFit(PlanOp(p, ops[0]).after, ops[1..]))
  }

  function PlanAll(p: Pace, ops: seq<Op>): seq<Piece>
    requires Sane(p)
    decreases |ops|
  {
    if ops == [] then [] else PlanOp(p, ops[0]).pieces + PlanAll(PlanOp(p, ops[0]).after, ops[1..])
  }

  function Said(op: Op): seq<Token>
  {
    match op
    case Data(data, _, _) => Octets(data)
    case Zero(_) => [End]
    case Packet(payload, _) => Octets(payload)
  }

  function SaidAll(ops: seq<Op>): seq<Token>
  {
    if ops == [] then [] else Said(ops[0]) + SaidAll(ops[1..])
  }

  lemma OpSays(p: Pace, op: Op)
    requires Sane(p) && OpFits(p, op)
    ensures AllFit(PlanOp(p, op).pieces) && PieceTokens(PlanOp(p, op).pieces) == Said(op)
  {
    match op
    case Data(data, clock, padding) => PlanSays(p, data, clock, 0, padding);
    case Zero(now) =>
      PieceTokensFirst(Piece([], []), []);
    case Packet(payload, now) =>
      PaceStaysSane(p, 0, Tick(now, now));
      PieceTokensFirst(Piece(payload, []), []);
      AppendNothing(Octets(payload));
  }

  lemma {:induction false} AllSay(p: Pace, ops: seq<Op>)
    requires Sane(p) && OpsFit(p, ops)
    ensures AllFit(PlanAll(p, ops)) && PieceTokens(PlanAll(p, ops)) == SaidAll(ops)
    decreases |ops|
  {
    hide FitPiece, PieceTokens, OpFits, Said, PlanOp;
    if ops == [] {
      SaysNothing();
    } else {
      OpSays(p, ops[0]);
      AllSay(PlanOp(p, ops[0]).after, ops[1..]);
      PieceTokensAppend(PlanOp(p, ops[0]).pieces, PlanAll(PlanOp(p, ops[0]).after, ops[1..]));
    }
  }

  /**
   The v5 stream theorem: after any run of writes, at any times and with any padding octets,
   a reader of either version that starts from the salt hears exactly what was said, unless
   it is a v4 reader that finds octets behind a zero chunk, and ends on the writer's nonce.
   */
  lemma StreamV5RoundTrip(v: Version, keyed: Keyed, salt: seq<byte>, p: Pace, ops: seq<Op>, rest: seq<byte>,
      buffered: seq<nat>)
    requires Sane(p) && OpsFit(p, ops) && |salt| == SALT_LEN
    requires PlanAll(p, ops) != [] && |buffered| == |PlanAll(p, ops)|
    ensures var xs := PlanAll(p, ops);
            var wire := ConnectionBytes(keyed, salt, xs) + rest;
            var (results, end) := ReadLegacyAll(v, keyed, LegacyReceiving(None, LegacyReading([], wire)), buffered);
            && (HeardAll(results) == SaidAll(ops) <==> Quiet(v, xs, buffered))
            && end == LegacyReceiving(Some(keyed(salt)), LegacyReading(NonceAfterAll(Zeros(NONCE_LEN), xs), rest))
  {
    hide ReadLegacyAll, ConnectionBytes, Quiet, NonceAfterAll;
    AllSay(p, ops);
    ConnectionHeardIff(v, keyed, salt, PlanAll(p, ops), rest, buffered);
  }

  lemma PlanNext(k: Cipher, nonce: seq<byte>, p: Pace, data: seq<byte>, clock: nat -> Tick, i: nat, padding: seq<byte>)
    requires Sane(p) && data != []
    ensures BatchLimit(p, clock(i)) > 0 && Sane(AfterBatch(p, |data|, clock(i)))
    ensures var n := BatchLen(p, |data|, clock(i));
            var first := CutPieces(data[..n], BatchLimit(p, clock(i)), padding);
            var plan := PlanStream(p, data, clock, i, padding);
            var later := PlanStream(AfterBatch(p, |data|, clock(i)), data[n..], clock, i + 1, []);
            && plan.after == later.after
            && PiecesBytes(k, nonce, plan.pieces) ==
              PiecesBytes(k, nonce, first) + PiecesBytes(k, NonceAfterAll(nonce, first), later.pieces)
            && NonceAfterAll(nonce, plan.pieces) == NonceAfterAll(NonceAfterAll(nonce, first), later.pieces)
  {
    PaceStaysSane(p, |data|, clock(i));
    var n := BatchLen(p, |data|, clock(i));
    PiecesAppend(k, nonce, CutPieces(data[..n], BatchLimit(p, clock(i)), padding),
                 PlanStream(AfterBatch(p, |data|, clock(i)), data[n..], clock, i + 1, []).pieces);
  }

  class Writer {
    const k: Cipher
    const initialPaddingLen: InitialPadding
    const nonce: array<byte>
    var lastFrameUnix: int
    var framePayloadLen: nat
    var streamPayloadLen: nat
    var streamPayloadLeft: nat
    var sent: seq<byte>

    function State(): Pace
      reads this
    {
      Pace(initialPaddingLen, lastFrameUnix, framePayloadLen, streamPayloadLen, streamPayloadLeft)
    }

    constructor (k: Cipher, padding: InitialPadding)
      ensures fresh(nonce) && nonce[..] == Zeros(NONCE_LEN)
      ensures this.k == k && State() == NewPace(padding) && Sane(State()) && sent == []
    {
      this.k, initialPaddingLen := k, padding;
      nonce := new byte[NONCE_LEN](i => 0);
      lastFrameUnix, framePayloadLen, streamPayloadLen, streamPayloadLeft, sent := 0, 0, 0, 0, [];
      new;
      assert nonce[..] == Zeros(NONCE_LEN);
    }

    method NextPayloadLimit(now: int) returns (limit: nat)
      modifies `lastFrameUnix, `framePayloadLen
      ensures limit == LimitNow(old(State()), now) && State() == AfterRecord(old(State()), now)
    {
      if lastFrameUnix == 0 {
        limit := FRAME_SIZE - FIRST_RECORD_OVERHEAD - initialPaddingLen;
      } else if now - lastFrameUnix < RESET_INTERVAL {
        limit := framePayloadLen;
        if limit == 0 {
          limit := STEP;
        }
      } else {
        limit := STEP;
      }
      lastFrameUnix := now;
      framePayloadLen := Min(limit + STEP, MAX_PAYLOAD_LEN);
    }

    method NextStreamPayloadBatch(dataLen: nat, t: Tick) returns (limit: nat, batchLen: nat)
      modifies `lastFrameUnix, `framePayloadLen, `streamPayloadLen, `streamPayloadLeft
      ensures limit == BatchLimit(old(State()), t) && batchLen == BatchLen(old(State()), dataLen, t)
      ensures State() == AfterBatch(old(State()), dataLen, t)
    {
      if streamPayloadLeft == 0 || (lastFrameUnix != 0 && t.now - lastFrameUnix >= RESET_INTERVAL) {
        streamPayloadLen := NextPayloadLimit(t.later);
        streamPayloadLeft := BATCH;
      } else {
        lastFrameUnix := t.now;
      }
      limit := streamPayloadLen;
      batchLen := Min(dataLen, streamPayloadLeft);
      streamPayloadLeft := streamPayloadLeft - batchLen;
    }

    /** One batch into one buffer, allocated once with the exact size and filled
        exactly; prefix is the salt, if it is due. */
    method WriteBatch(prefix: seq<byte>, data: seq<byte>, limit: nat, fill: seq<byte>)
      requires 0 < limit <= MAX_PAYLOAD_LEN && |fill| <= MAX_PAYLOAD_LEN && data != []
      modifies `sent, nonce
      ensures sent == old(sent) + (prefix + PiecesBytes(k, old(nonce[..]), CutPieces(data, limit, fill)))
      ensures nonce[..] == NonceAfterAll(old(nonce[..]), CutPieces(data, limit, fill))
    {
      hide CutPieces, PiecesBytes, RecordCount;
      var recordCount := (|data| + limit - 1) / limit;
      RecordCountIs(|data|, limit);
      CutSize(k, nonce[..], data, limit, fill);
      TimesMonotone(0, recordCount, RECORD_OVERHEAD);
      var output := new byte[|prefix| + |data| + recordCount * RECORD_OVERHEAD + |fill|](i => 0);
      Put(output, 0, prefix);
      assert output[..|prefix|] == prefix by { assert Slice(output, 0, |prefix|) == prefix; }
      SealBatch(output, |prefix|, k, nonce, data, limit, fill);
      sent := sent + output[..];
    }

    /** The records of a stream write from its i0-th batch on. */
    method WriteStream(prefix: seq<byte>, data: seq<byte>, clock: nat -> Tick, i0: nat, fill: seq<byte>)
      requires Sane(State()) && (data == [] ==> prefix == []) && |fill| <= MAX_PAYLOAD_LEN
      modifies this, nonce
      ensures var plan := PlanStream(old(State()), data, clock, i0, fill);
              && sent == old(sent) + (prefix + PiecesBytes(k, old(nonce[..]), plan.pieces))
              && nonce[..] == NonceAfterAll(old(nonce[..]), plan.pieces)
              && State() == plan.after
    {
      hide CutPieces, PiecesBytes, NonceAfterAll, PlanStream, BatchLimit, BatchLen, AfterBatch, Sane;
      ghost var plan, n0 := PlanStream(State(), data, clock, i0, fill), nonce[..];
      var rest, i, pre, pad := data, i0, prefix, fill;
      while |rest| > 0
        invariant Sane(State()) && |pad| <= MAX_PAYLOAD_LEN
        invariant sent + (pre + PiecesBytes(k, nonce[..], PlanStream(State(), rest, clock, i, pad).pieces)) ==
                  old(sent) + (prefix + PiecesBytes(k, n0, plan.pieces))
        invariant NonceAfterAll(nonce[..], PlanStream(State(), rest, clock, i, pad).pieces) ==
                  NonceAfterAll(n0, plan.pieces)
        invariant PlanStream(State(), rest, clock, i, pad).after == plan.after
        invariant |rest| == 0 ==> pre == []
        decreases |rest|
      {
        PlanNext(k, nonce[..], State(), rest, clock, i, pad);
        PaceStaysSane(State(), |rest|, clock(i));
        ghost var n1, s1 := nonce[..], sent;
        var limit, n := NextStreamPayloadBatch(|rest|, clock(i));
        WriteBatch(pre, rest[..n], limit, pad);
        ghost var first := PiecesBytes(k, n1, CutPieces(rest[..n], limit, pad));
        ghost var more := PiecesBytes(k, nonce[..], PlanStream(State(), rest[n..], clock, i + 1, []).pieces);
        Assoc(pre, first, more);
        Assoc(s1, pre + first, more);
        AppendNothing(more);
        rest, i, pre, pad := rest[n..], i + 1, [], [];
      }
      NothingPlanned(k, nonce[..], State(), clock, i, pad);
      AppendNothing(sent);
      AppendNothing<byte>([]);
    }

    /** What a write adds: the records of its plan, and what keeps a reader in step with it. */
    twostate predicate Wrote(prefix: seq<byte>, plan: Plan)
      reads this, nonce
    {
      && sent == old(sent) + (prefix + PiecesBytes(k, old(nonce[..]), plan.pieces))
      && nonce[..] == NonceAfterAll(old(nonce[..]), plan.pieces)
      && State() == plan.after
    }

    method Write(p: seq<byte>, clock: nat -> Tick)
      requires Sane(State())
      modifies this, nonce
      ensures Wrote([], PlanStream(old(State()), p, clock, 0, []))
    {
      if |p| == 0 {
        NothingPlanned(k, nonce[..], State(), clock, 0, []);
        AppendNothing(sent);
        AppendNothing<byte>([]);
        return;
      }
      WriteStream([], p, clock, 0, []);
    }

    /** The first write of a connection: the salt, and padding in front of the first payload. */
    method WriteFirst(salt: seq<byte>, payload: seq<byte>, clock: nat -> Tick, fill: seq<byte>)
      requires Sane(State()) && |fill| == initialPaddingLen
      modifies this, nonce
      ensures Wrote(salt,
                    if payload == [] then PlanZero(old(State()), clock(0).now)
                    else PlanStream(old(State()), payload, clock, 0, fill))
    {
      if |payload| == 0 {
        ZeroRecord(salt, clock(0).now);
        return;
      }
      WriteStream(salt, payload, clock, 0, fill);
    }

    method ZeroRecord(prefix: seq<byte>, now: int)
      requires Sane(State())
      modifies this, nonce
      ensures Wrote(prefix, PlanZero(old(State()), now))
    {
      streamPayloadLeft := 0;
      var _ := NextPayloadLimit(now);
      ZeroPieces(k, nonce[..]);
      var record := SealedHeader(k, nonce[..], 0, 0);
      IncreaseNonce(nonce);
      sent := sent + (prefix + record);
    }

    method WriteZeroChunk(now: int)
      requires Sane(State())
      modifies this, nonce
      ensures Wrote([], PlanZero(old(State()), now))
    {
      ZeroRecord([], now);
    }

    /** A record of no padding around what a buffer holds. */
    method MakeBufferRecord(b: Buffer)
      requires b.Valid() && b.data != nonce && b.start >= HEADER_CIPHER_LEN && b.end + TAG_LEN <= b.data.Length
      modifies this`sent, nonce, b, b.data
      ensures sent == old(sent) + AroundBytes(k, old(nonce[..]), Piece(old(b.Contents()), []))
      ensures nonce[..] == Increase(Increase(old(nonce[..])))
    {
      hide EvenSwapped, Exchanged, PieceBytes, Increase;
      SealAround(b.data, b.start - HEADER_CIPHER_LEN, b.end - b.start, k, nonce, []);
      b.start, b.end := b.start - HEADER_CIPHER_LEN, b.end + TAG_LEN;
      sent := sent + b.Contents();
    }

    /** A buffer with the room FrontHeadroom and RearHeadroom ask for: the same
        octets and state as Write of its contents. */
    method WriteBuffer(b: Buffer, clock: nat -> Tick)
      requires Sane(State()) && b.Valid() && b.data != nonce
      requires b.start >= HEADER_CIPHER_LEN && b.end + TAG_LEN <= b.data.Length
      modifies this, nonce, b, b.data
      ensures Wrote([], PlanStream(old(State()), old(b.Contents()), clock, 0, []))
    {
      hide CutPieces, PiecesBytes, NonceAfterAll, PlanStream, BatchLimit, BatchLen, AfterBatch, Sane, AroundBytes;
      var data := b.Contents();
      if |data| == 0 {
        NothingPlanned(k, nonce[..], State(), clock, 0, []);
        AppendNothing(sent);
        AppendNothing<byte>([]);
        return;
      }
      ghost var n0, p0 := nonce[..], State();
      PlanNext(k, n0, p0, data, clock, 0, []);
      PaceStaysSane(p0, |data|, clock(0));
      var limit, n := NextStreamPayloadBatch(|data|, clock(0));
      ghost var first := PiecesBytes(k, n0, CutPieces(data[..n], limit, []));
      if n == |data| && |data| <= limit {
        assert data[..n] == data && data[n..] == [];
        MakeBufferRecord(b);
        CutOne(k, n0, data, limit);
        NothingPlanned(k, nonce[..], State(), clock, 1, []);
        AppendNothing(first);
        return;
      }
      WriteBatch([], data[..n], limit, []);
      AppendNothing(first);
      ghost var s1 := sent;
      WriteStream([], data[n..], clock, 1, []);
      ghost var more := PiecesBytes(k, NonceAfterAll(n0, CutPieces(data[..n], limit, [])),
        PlanStream(AfterBatch(p0, |data|, clock(0)), data[n..], clock, 1, []).pieces);
      AppendNothing(more);
      AppendNothing(first + more);
      Assoc(old(sent), first, more);
    }

    /** A whole datagram in one record, or none of it. */
    method WritePacketBuffer(b: Buffer, now: int) returns (error: Option<WriteError>)
      requires Sane(State()) && b.Valid() && b.data != nonce
      requires b.start >= HEADER_CIPHER_LEN && b.end + TAG_LEN <= b.data.Length
      modifies this, nonce, b, b.data
      ensures error.Some? <==> |old(b.Contents())| > LimitNow(old(State()), now)
      ensures error.Some? ==> sent == old(sent) && nonce[..] == old(nonce[..]) && State() == old(State())
      ensures error.None? ==>
        && sent == old(sent) + AroundBytes(k, old(nonce[..]), Piece(old(b.Contents()), []))
        && nonce[..] == Increase(Increase(old(nonce[..])))
        && State() == PlanPacket(old(State()), now, old(b.Contents())).after
    {
      hide AroundBytes;
      var limit;
      if lastFrameUnix == 0 {
        limit := FRAME_SIZE - FIRST_RECORD_OVERHEAD - initialPaddingLen;
      } else if now - lastFrameUnix < RESET_INTERVAL {
        limit := if framePayloadLen == 0 then STEP else framePayloadLen;
      } else {
        limit := STEP;
      }
      if b.end - b.start > limit {
        return Some(PayloadTooLarge);
      }
      streamPayloadLeft := 0;
      lastFrameUnix := now;
      framePayloadLen := Min(limit + STEP, MAX_PAYLOAD_LEN);
      MakeBufferRecord(b);
      error := None;
    }
  }

  /** A zero chunk, and a packet: each ends the stream's batch and uses up one step of the window. */
  function PlanZero(p: Pace, now: int): Plan { Plan([Piece([], [])], AfterRecord(p.(streamPayloadLeft := 0), now)) }

  function PlanPacket(p: Pace, now: int, payload: seq<byte>): Plan {
    Plan([Piece(payload, [])], AfterRecord(p, now).(streamPayloadLeft := 0))
  }

  lemma ZeroPieces(k: Cipher, nonce: seq<byte>)
    ensures PiecesBytes(k, nonce, [Piece([], [])]) == SealedHeader(k, nonce, 0, 0)
    ensures NonceAfterAll(nonce, [Piece([], [])]) == Increase(nonce)
  {
    AppendNothing(SealedHeader(k, nonce, 0, 0));
  }

  lemma CutOne(k: Cipher, nonce: seq<byte>, data: seq<byte>, limit: nat)
    requires 0 < |data| <= limit
    ensures PiecesBytes(k, nonce, CutPieces(data, limit, [])) == AroundBytes(k, nonce, Piece(data, []))
    ensures NonceAfterAll(nonce, CutPieces(data, limit, [])) == Increase(Increase(nonce))
  {
    hide EvenSwapped, Exchanged, PieceBytes, Increase;
    CutFirst(k, nonce, data, limit, []);
    assert data[..|data|] == data && data[|data|..] == [];
    NothingCut(k, NonceAfter(nonce, Piece(data, [])), limit, []);
    AppendNothing(PieceBytes(k, nonce, Piece(data, [])));
  }

  lemma RecordCountIs(n: nat, limit: nat)
    requires limit > 0
    ensures RecordCount(n, limit) == (n + limit - 1) / limit >= 0
  {
  }

  lemma NothingPlanned(k: Cipher, nonce: seq<byte>, p: Pace, clock: nat -> Tick, i: nat, padding: seq<byte>)
    requires Sane(p)
    ensures var plan := PlanStream(p, [], clock, i, padding);
            PiecesBytes(k, nonce, plan.pieces) == [] && NonceAfterAll(nonce, plan.pieces) == nonce && plan.after == p
  {
  }

  /** Only the first write is padded; what comes first is data or a zero chunk. */
  ghost predicate PaddedFirst(ops: seq<Op>, fill: seq<byte>) {
    && (ops != [] ==> match ops[0]
                      case Data(data, _, padding) => data != [] && padding == fill
                      case Zero(_) => true
                      case Packet(_, _) => false)
    && forall i :: 0 < i < |ops| && ops[i].Data? ==> ops[i].padding == []
  }

  /** A packet in a buffer of its own, with the room in front and behind that a record needs. */
  method SendPacket(w: Writer, payload: seq<byte>, now: int)
    requires Sane(w.State()) && 0 < |payload| <= LimitNow(w.State(), now)
    modifies w, w.nonce
    ensures w.Wrote([], PlanPacket(old(w.State()), now, payload))
  {
    hide PieceBytes, Increase;
    var data := new byte[HEADER_CIPHER_LEN + |payload| + TAG_LEN](i => 0);
    Put(data, HEADER_CIPHER_LEN, payload);
    var b := new Buffer(data, HEADER_CIPHER_LEN, HEADER_CIPHER_LEN + |payload|);
    OnePacket(w.k, w.nonce[..], payload);
    var error := w.WritePacketBuffer(b, now);
  }

  lemma OnePacket(k: Cipher, nonce: seq<byte>, payload: seq<byte>)
    requires payload != []
    ensures PiecesBytes(k, nonce, [Piece(payload, [])]) == AroundBytes(k, nonce, Piece(payload, []))
    ensures [] + AroundBytes(k, nonce, Piece(payload, [])) == AroundBytes(k, nonce, Piece(payload, []))
    ensures NonceAfterAll(nonce, [Piece(payload, [])]) == Increase(Increase(nonce))
  {
    hide PieceBytes, AroundBytes, Increase;
    AppendNothing(AroundBytes(k, nonce, Piece(payload, [])));
  }

  /** One operation by the method that does it. */
  method PerformOp(w: Writer, prefix: seq<byte>, op: Op)
    requires Sane(w.State()) && OpFits(w.State(), op)
    requires prefix == [] ==> op.Data? ==> op.padding == []
    requires prefix != [] ==> !op.Packet? && (op.Data? ==> op.data != [] && |op.padding| == w.initialPaddingLen)
    modifies w, w.nonce
    ensures w.Wrote(prefix, PlanOp(old(w.State()), op))
  {
    match op
    case Data(data, clock, padding) =>
      if prefix == [] {
        w.Write(data, clock);
      } else {
        w.WriteFirst(prefix, data, clock, padding);
      }
    case Zero(now) =>
      if prefix == [] {
        w.WriteZeroChunk(now);
      } else {
        w.WriteFirst(prefix, [], _ => Tick(now, now), seq(w.initialPaddingLen, i => 0));
      }
    case Packet(payload, now) => SendPacket(w, payload, now);
  }

  /** A whole run of writes on a fresh connection: what has been sent is the connection of the stream theorem. */
  method RunOps(w: Writer, keyed: Keyed, salt: seq<byte>, ops: seq<Op>, fill: seq<byte>)
    requires w.k == keyed(salt) && salt != [] && w.sent == [] && w.nonce[..] == Zeros(NONCE_LEN)
    requires Sane(w.State()) && OpsFit(w.State(), ops) && |fill| == w.initialPaddingLen && PaddedFirst(ops, fill)
    modifies w, w.nonce
    ensures w.sent == ConnectionBytes(keyed, salt, PlanAll(old(w.State()), ops))
  {
    hide PiecesBytes, NonceAfterAll, PlanOp, OpFits, Sane;
    ghost var all, n0 := PlanAll(w.State(), ops), w.nonce[..];
    if ops != [] {
      SomethingPlanned(w.State(), ops[0]);
    }
    var i, prefix := 0, salt;
    while i < |ops|
      invariant 0 <= i <= |ops| && Sane(w.State()) && OpsFit(w.State(), ops[i..])
      invariant prefix == (if i == 0 then salt else [])
      invariant i == 0 ==> w.sent == [] && w.nonce[..] == n0 && PlanAll(w.State(), ops[i..]) == all
      invariant i > 0 ==>
                w.sent + PiecesBytes(w.k, w.nonce[..], PlanAll(w.State(), ops[i..])) ==
                salt + PiecesBytes(w.k, n0, all)
    {
      ghost var s1, n1, plan := w.sent, w.nonce[..], PlanOp(w.State(), ops[i]);
      ghost var later := PlanAll(plan.after, ops[i + 1..]);
      assert ops[i..][0] == ops[i] && ops[i..][1..] == ops[i + 1..];
      PiecesAppend(w.k, n1, plan.pieces, later);
      PerformOp(w, prefix, ops[i]);
      Assoc(s1, prefix + PiecesBytes(w.k, n1, plan.pieces), PiecesBytes(w.k, w.nonce[..], later));
      Assoc(prefix, PiecesBytes(w.k, n1, plan.pieces), PiecesBytes(w.k, w.nonce[..], later));
      AppendNothing(PiecesBytes(w.k, n1, plan.pieces) + PiecesBytes(w.k, w.nonce[..], later));
      AppendNothing(salt + PiecesBytes(w.k, n0, all));
      i, prefix := i + 1, [];
    }
    NoPieces(w.k, w.nonce[..]);
    AppendNothing(w.sent);
  }

  lemma SomethingPlanned(p: Pace, op: Op)
    requires Sane(p) && !op.Packet? && (op.Data? ==> op.data != [])
    ensures PlanOp(p, op).pieces != []
  {
    if op.Data? {
      PaceStaysSane(p, |op.data|, op.clock(0));
      var n, limit := BatchLen(p, |op.data|, op.clock(0)), BatchLimit(p, op.clock(0));
      assert CutPieces(op.data[..n], limit, op.padding) != [];
    }
  }

  lemma NoPieces(k: Cipher, nonce: seq<byte>)
    ensures PiecesBytes(k, nonce, []) == []
  {
  }
}
