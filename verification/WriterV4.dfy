/**
 The v4 writer (snellv4/record.go): a growing payload window, the salt and padding in front
 of the first record, and records built in place. Salt and padding length are drawn when
 the writer is first used; here they are given. The clock gives positive times.
 */
module WriterV4 {
  import opened Bytes
  import opened Aead
  import opened Nonce
  import opened Profile
  import opened LegacyCodec
  import opened LegacyWriter
  import opened LegacyStream
  import opened ShapedStream
  import opened ShapedWriter
  import Request

  datatype Window = Window(initialPaddingLen: InitialPadding, saltSent: bool, payloadLimit: nat, lastWriteUnix: int)

  function NewWindow(padding: InitialPadding): Window { Window(padding, false, 0, 0) }

  function LimitFor(w: Window, now: int): nat
  {
    if !w.saltSent then FirstLimit(w.initialPaddingLen)
    else if w.lastWriteUnix != 0 && now - w.lastWriteUnix < RESET_INTERVAL && w.payloadLimit > 0 then w.payloadLimit
    else STEP
  }

  /** advancePayloadLimit, and the salt on its way: every write that advances makes a record. */
  function Advanced(w: Window, now: int): Window
  {
    var limit := LimitFor(w, now);
    w.(saltSent := true, lastWriteUnix := now,
       payloadLimit := if limit <= MAX_PAYLOAD_LEN - 1 then Min(limit + STEP, MAX_PAYLOAD_LEN) else MAX_PAYLOAD_LEN)
  }

  predicate Sane(w: Window) { w.payloadLimit == 0 || SaneLimit(w.payloadLimit) }

  /** The limits stay in range, so that the limit panics cannot be reached. */
  lemma WindowStaysSane(w: Window, now: int)
    requires Sane(w)
    ensures SaneLimit(LimitFor(w, now)) && Sane(Advanced(w, now))
  {
  }

  // ------------------------------------------------------------ runs of writes

  /** Write, WriteZeroChunk (also an empty Write) and WritePacketBuffer, each at its
      time; WriteBuffer is Data at one of its times. */
  datatype Op = Data(data: seq<byte>, now: int) | Zero(now: int) | Packet(payload: seq<byte>, now: int)

  datatype WritePlan = WritePlan(pieces: seq<Piece>, after: Window)

  function Padding(w: Window, fill: seq<byte>): seq<byte> { if w.saltSent then [] else fill }

  /** The records of one operation; an empty one, of whatever kind, is a zero chunk. */
  function PlanOp(w: Window, op: Op, fill: seq<byte>): (r: WritePlan)
    requires Sane(w)
    ensures Sane(r.after) && r.after == Advanced(w, op.now)
  {
    WindowStaysSane(w, op.now);
    var pieces :=
      match op
      case Data(data, now) => if data == [] then [Piece([], [])]
        else CutPieces(data, LimitFor(w, now), Padding(w, fill))
      case Zero(_) => [Piece([], [])]
      case Packet(payload, _) => [Piece(payload, if payload == [] then [] else Padding(w, fill))];
    WritePlan(pieces, Advanced(w, op.now))
  }

  predicate OpFits(w: Window, op: Op) { op.Packet? ==> |op.payload| <= LimitFor(w, op.now) }

  ghost predicate OpsFit(w: Window, ops: seq<Op>)
    decreases |ops|
  {
    ops == [] || (OpFits(w, ops[0]) && OpsFit(Advanced(w, ops[0].now), ops[1..]))
  }

  function PlanAll(w: Window, ops: seq<Op>, fill: seq<byte>): seq<Piece>
    requires Sane(w)
    decreases |ops|
  {
    if ops == [] then [] else PlanOp(w, ops[0], fill).pieces + PlanAll(PlanOp(w, ops[0], fill).after, ops[1..], fill)
  }

  function WindowAfter(w: Window, ops: seq<Op>): (r: Window)
    ensures Sane(w) ==> Sane(r)
    decreases |ops|
  {
    if ops == [] then w else WindowAfter(Advanced(w, ops[0].now), ops[1..])
  }

  /** The window invariant over every run. */
  lemma {:induction false} RunStaysSane(w: Window, ops: seq<Op>)
    requires Sane(w)
    ensures Sane(WindowAfter(w, ops))
    ensures ops != [] ==> WindowAfter(w, ops).saltSent && WindowAfter(w, ops).payloadLimit >= 894
    decreases |ops|
  {
    if ops != [] {
      WindowStaysSane(w, ops[0].now);
      RunStaysSane(Advanced(w, ops[0].now), ops[1..]);
    }
  }

  predicate Lively(w: Window, now: int) { 0 < now && (w.lastWriteUnix != 0 ==> now - w.lastWriteUnix < RESET_INTERVAL) }

  ghost predicate AllLively(w: Window, ops: seq<Op>)
    decreases |ops|
  {
    ops == [] || (Lively(w, ops[0].now) && AllLively(Advanced(w, ops[0].now), ops[1..]))
  }

  function LimitAfter(padding: InitialPadding, n: nat): nat { Min(FirstLimit(padding) + n * STEP, MAX_PAYLOAD_LEN) }

  predicate Grown(w: Window, n: nat) {
    if n == 0 then w == NewWindow(w.initialPaddingLen)
    else w.saltSent && w.lastWriteUnix > 0 && w.payloadLimit == LimitAfter(w.initialPaddingLen, n)
  }

  /** Never idle, the n-th operation has the limit min(first + n * 1421, 16383), whatever it writes. */
  lemma {:induction false} LimitGrows(w: Window, n: nat, ops: seq<Op>, i: nat)
    requires Grown(w, n) && AllLively(w, ops) && i < |ops|
    ensures LimitFor(WindowAfter(w, ops[..i]), ops[i].now) == LimitAfter(w.initialPaddingLen, n + i)
    decreases |ops|
  {
    if i > 0 {
      assert ops[..i][0] == ops[0] && ops[..i][1..] == ops[1..][..i - 1];
      GrownNext(w, n, ops[0].now);
      LimitGrows(Advanced(w, ops[0].now), n + 1, ops[1..], i - 1);
    } else {
      GrownNext(w, n, ops[0].now);
    }
  }

  lemma GrownNext(w: Window, n: nat, now: int)
    requires Grown(w, n) && Lively(w, now)
    ensures Grown(Advanced(w, now), n + 1) && LimitFor(w, now) == LimitAfter(w.initialPaddingLen, n)
  {
  }

  /** A window that has rested, and advanced n times since. */
  predicate Restarted(w: Window, n: nat) {
    n > 0 && w.saltSent && w.lastWriteUnix > 0 && w.payloadLimit == Min((n + 1) * STEP, MAX_PAYLOAD_LEN)
  }

  /** After 31 idle seconds the limit is one step, whatever it was. */
  lemma RestartsAfterIdle(w: Window, now: int)
    requires w.saltSent && now - w.lastWriteUnix >= RESET_INTERVAL && now > 0
    ensures LimitFor(w, now) == STEP && Restarted(Advanced(w, now), 1)
  {
  }

  /** And n lively operations later it is n + 1 of them, up to the largest payload. */
  lemma GrowsAfterIdle(w: Window, n: nat, now: int)
    requires Restarted(w, n) && Lively(w, now)
    ensures LimitFor(w, now) == Min((n + 1) * STEP, MAX_PAYLOAD_LEN) && Restarted(Advanced(w, now), n + 1)
  {
    assert (n + 2) * STEP == (n + 1) * STEP + STEP;
  }

  // ------------------------------------------------------------ the first record

  /** The first record with its salt and padding is at most 1460 octets, and only a full one is. */
  lemma FirstRecordFits(k: Cipher, nonce: seq<byte>, w: Window, op: Op, fill: seq<byte>)
    requires Sane(w) && !w.saltSent && OpFits(w, op) && |fill| == w.initialPaddingLen
    ensures var pieces := PlanOp(w, op, fill).pieces;
            && pieces != []
            && SALT_LEN + |PieceBytes(k, nonce, pieces[0])| <= FRAME_SIZE
            && (SALT_LEN + |PieceBytes(k, nonce, pieces[0])| == FRAME_SIZE <==>
              |pieces[0].payload| == FirstLimit(w.initialPaddingLen))
  {
  }

  /** A request, with any early data behind it, lies wholly in the first record of its write. */
  lemma RequestInFirstRecord(w: Window, r: Request.Request, early: seq<byte>, now: int, fill: seq<byte>)
    returns (more: seq<byte>)
    requires Sane(w) && Request.Encodable(r)
    ensures Request.EncodeRequest(r).Encoded?
    ensures var pieces := PlanOp(w, Data(Request.EncodeRequest(r).octets + early, now), fill).pieces;
            && pieces != [] && more <= early
            && Request.ParseRequest(pieces[0].payload) == Request.Parsed(r, more)
  {
    Request.RequestRoundTrip(r, early);
    WindowStaysSane(w, now);
    var head := Request.EncodeRequest(r).octets;
    var data := head + early;
    var n := Min(|data|, LimitFor(w, now));
    more := early[..n - |head|];
    assert data[..n] == head + more;
    Request.RequestRoundTrip(r, more);
  }

  // ------------------------------------------------------------ what is heard

  function Said(op: Op): seq<Token>
  {
    match op
    case Data(data, _) => if data == [] then [End] else Octets(data)
    case Zero(_) => [End]
    case Packet(payload, _) => if payload == [] then [End] else Octets(payload)
  }

  function SaidAll(ops: seq<Op>): seq<Token>
  {
    if ops == [] then [] else Said(ops[0]) + SaidAll(ops[1..])
  }

  lemma OpSays(w: Window, op: Op, fill: seq<byte>)
    requires Sane(w) && OpFits(w, op) && |fill| == w.initialPaddingLen
    ensures AllFit(PlanOp(w, op, fill).pieces) && PieceTokens(PlanOp(w, op, fill).pieces) == Said(op)
  {
    hide PieceTokens;
    WindowStaysSane(w, op.now);
    NothingSaid();
    AppendNothing(PlanOp(w, op, fill).pieces);
    AppendNothing<Token>([End]);
    match op
    case Data(data, now) =>
      if data == [] {
        PieceTokensFirst(Piece([], []), []);
      } else {
        CutCarries(data, LimitFor(w, now), Padding(w, fill));
        CutSays(data, LimitFor(w, now), Padding(w, fill));
      }
    case Zero(_) => PieceTokensFirst(Piece([], []), []);
    case Packet(payload, now) =>
      PieceTokensFirst(PlanOp(w, op, fill).pieces[0], []);
      AppendNothing(Octets(payload));
  }

  lemma NothingSaid()
    ensures PieceTokens([]) == []
  {
  }

  lemma {:induction false} AllSay(w: Window, ops: seq<Op>, fill: seq<byte>)
    requires Sane(w) && OpsFit(w, ops) && |fill| == w.initialPaddingLen
    ensures AllFit(PlanAll(w, ops, fill)) && PieceTokens(PlanAll(w, ops, fill)) == SaidAll(ops)
    decreases |ops|
  {
    hide FitPiece, PieceTokens, OpFits, Said, LimitFor;
    NothingSaid();
    if ops != [] {
      OpSays(w, ops[0], fill);
      var after := PlanOp(w, ops[0], fill).after;
      AllSay(after, ops[1..], fill);
      PieceTokensAppend(PlanOp(w, ops[0], fill).pieces, PlanAll(after, ops[1..], fill));
    }
  }

  /**
   The v4 stream theorem: a reader of either version that starts from the salt hears exactly
   what a run of writes said, unless it is a v4 reader that finds octets behind a zero
   chunk, and ends on the writer's nonce.
   */
  lemma StreamV4RoundTrip(
    v: Version, keyed: Keyed, salt: seq<byte>, w: Window, ops: seq<Op>, fill: seq<byte>, rest: seq<byte>,
      buffered: seq<nat>)
    requires Sane(w) && OpsFit(w, ops) && |fill| == w.initialPaddingLen && |salt| == SALT_LEN
    requires ops != [] && |buffered| == |PlanAll(w, ops, fill)|
    ensures var xs := PlanAll(w, ops, fill);
            var wire := ConnectionBytes(keyed, salt, xs) + rest;
            var (results, end) := ReadLegacyAll(v, keyed, LegacyReceiving(None, LegacyReading([], wire)), buffered);
            && (HeardAll(results) == SaidAll(ops) <==> Quiet(v, xs, buffered))
            && end == LegacyReceiving(Some(keyed(salt)), LegacyReading(NonceAfterAll(Zeros(NONCE_LEN), xs), rest))
  {
    hide ReadLegacyAll, ConnectionBytes, Quiet, NonceAfterAll;
    AllSay(w, ops, fill);
    SomethingPlanned(w, ops, fill);
    ConnectionHeardIff(v, keyed, salt, PlanAll(w, ops, fill), rest, buffered);
  }

  lemma SomethingPlanned(w: Window, ops: seq<Op>, fill: seq<byte>)
    requires Sane(w) && ops != []
    ensures PlanAll(w, ops, fill) != []
  {
    WindowStaysSane(w, ops[0].now);
  }

  // ------------------------------------------------------------ the program

  class Writer {
    const k: Cipher
    const salt: seq<byte>
    const initialPaddingLen: InitialPadding
    /** What fillPadding leaves in the padding: any octets. */
    const fill: seq<byte>
    const nonce: array<byte>
    var saltSent: bool
    var payloadLimit: nat
    var lastWriteUnix: int
    var sent: seq<byte>

    function State(): Window
      reads this
    {
      Window(initialPaddingLen, saltSent, payloadLimit, lastWriteUnix)
    }

    predicate Valid()
      reads this
    {
      Sane(State()) && |salt| == SALT_LEN && |fill| == initialPaddingLen
    }

    constructor (k: Cipher, salt: seq<byte>, fill: seq<byte>)
      requires |salt| == SALT_LEN && INITIAL_PADDING_MIN <= |fill| <= MAX_INITIAL_PADDING
      ensures Valid() && State() == NewWindow(|fill|) && sent == []
      ensures this.k == k && this.salt == salt && this.fill == fill && fresh(nonce) && nonce[..] == Zeros(NONCE_LEN)
    {
      this.k, this.salt, this.fill, initialPaddingLen := k, salt, fill, |fill|;
      nonce := new byte[NONCE_LEN](i => 0);
      saltSent, payloadLimit, lastWriteUnix, sent := false, 0, 0, [];
      new;
      assert nonce[..] == Zeros(NONCE_LEN);
    }

    method PayloadLimitFor(now: int) returns (limit: nat)
      ensures limit == LimitFor(State(), now)
    {
      if !saltSent {
        return FRAME_SIZE - FIRST_RECORD_OVERHEAD - initialPaddingLen;
      }
      if lastWriteUnix != 0 && now - lastWriteUnix < RESET_INTERVAL {
        if payloadLimit > 0 {
          return payloadLimit;
        }
      }
      return FRAME_SIZE - RESET_RECORD_OVERHEAD;
    }

    /** The salt a record has in front of it: only the first one. */
    function Due(): (s: seq<byte>)
      requires Valid()
      reads this
    {
      if saltSent then [] else salt
    }

    method AdvancePayloadLimit(limit: nat, now: int)
      requires limit == LimitFor(State(), now)
      modifies `payloadLimit, `lastWriteUnix
      ensures State() == Advanced(old(State()), now).(saltSent := saltSent)
    {
      lastWriteUnix := now;
      payloadLimit := if limit <= MAX_PAYLOAD_LEN - 1 then
                        Min(limit + FRAME_SIZE - RESET_RECORD_OVERHEAD, MAX_PAYLOAD_LEN)
                      else
                        MAX_PAYLOAD_LEN;
    }

    /** A record in a buffer of its own, with the salt in front of the first one. */
    method WriteSliceRecord(x: Piece)
      requires Valid() && FitPiece(x)
      modifies `saltSent, `sent, nonce
      ensures saltSent && sent == old(sent) + (old(Due()) + PieceBytes(k, old(nonce[..]), x))
      ensures nonce[..] == NonceAfter(old(nonce[..]), x)
    {
      hide PieceBytes, NonceAfter, Sane;
      var saltLen := |Due()|;
      PieceSize(k, nonce[..], x);
      var out := new byte[saltLen + HEADER_CIPHER_LEN + if x.payload == [] then 0
        else |x.padding| + |x.payload| + TAG_LEN](i => 0);
      Put(out, 0, Due());
      ghost var due := Due();
      SealRecord(out, saltLen, k, nonce, x);
      assert Slice(out, 0, saltLen) == due;
      SliceJoin(out, 0, saltLen, out.Length - saltLen);
      assert out[..] == Slice(out, 0, out.Length);
      saltSent := true;
      sent := sent + out[..];
    }

    /** What an operation adds: the salt if due, the records of its plan, and what keeps a reader in step. */
    twostate predicate Wrote(plan: WritePlan)
      requires old(Valid())
      reads this, nonce
    {
      && sent == old(sent) + (old(Due()) + PiecesBytes(k, old(nonce[..]), plan.pieces))
      && nonce[..] == NonceAfterAll(old(nonce[..]), plan.pieces)
      && State() == plan.after
    }

    /** writeBytesLocked: one limit for the whole call. */
    method WriteBytes(p: seq<byte>, now: int)
      requires Valid() && p != []
      modifies this, nonce
      ensures Valid() && Wrote(PlanOp(old(State()), Data(p, now), fill))
    {
      hide PieceBytes, NonceAfter, CutPieces, PiecesBytes, NonceAfterAll, FitPiece;
      WindowStaysSane(State(), now);
      var limit := PayloadLimitFor(now);
      AdvancePayloadLimit(limit, now);
      ghost var n0, due0 := nonce[..], Due();
      ghost var all := CutPieces(p, limit, if saltSent then [] else fill);
      var rest := p;
      ghost var done := [];
      AppendNothing(PiecesBytes(k, n0, all));
      AppendNothing(sent);
      while |rest| > 0
        invariant Valid() && (rest == p <==> done == []) && |rest| <= |p|
        invariant done == [] ==> saltSent == old(saltSent) && sent == old(sent) && nonce[..] == n0
        invariant done != [] ==> saltSent && sent == old(sent) + (due0 + done)
        invariant done + PiecesBytes(k, nonce[..], CutPieces(rest, limit, if saltSent then [] else fill)) ==
                  PiecesBytes(k, n0, all)
        invariant NonceAfterAll(nonce[..], CutPieces(rest, limit, if saltSent then [] else fill)) ==
                  NonceAfterAll(n0, all)
        invariant State() == Advanced(old(State()), now).(saltSent := saltSent)
        decreases |rest|
      {
        var n := Min(|rest|, limit);
        var x := Piece(rest[..n], if saltSent then [] else fill);
        CutFirst(k, nonce[..], rest, limit, x.padding);
        SmallPiece(x);
        PieceSize(k, nonce[..], x);
        ghost var bytes, more := PieceBytes(k, nonce[..], x),
          PiecesBytes(k, NonceAfter(nonce[..], x), CutPieces(rest[n..], limit, []));
        WriteSliceRecord(x);
        Assoc(done, bytes, more);
        Assoc(old(sent) + due0, done, bytes);
        Assoc(old(sent), due0, done);
        Assoc(old(sent), due0, done + bytes);
        AppendNothing(bytes);
        AppendNothing(old(sent));
        done := done + bytes;
        rest := rest[n..];
      }
      NothingCut(k, nonce[..], limit, if saltSent then [] else fill);
      AppendNothing(done);
    }

    /** A record that is not split: its piece, behind the salt if due. */
    method WriteOne(x: Piece, now: int)
      requires Valid() && FitPiece(x)
      modifies this, nonce
      ensures Valid() && Wrote(WritePlan([x], Advanced(old(State()), now)))
    {
      hide PieceBytes, NonceAfter;
      WindowStaysSane(State(), now);
      var limit := PayloadLimitFor(now);
      AdvancePayloadLimit(limit, now);
      OnePiece(k, nonce[..], x);
      WriteSliceRecord(x);
    }

    method WriteZeroChunk(now: int)
      requires Valid()
      modifies this, nonce
      ensures Valid() && Wrote(PlanOp(old(State()), Zero(now), fill))
    {
      WriteOne(Piece([], []), now);
    }

    method Write(p: seq<byte>, now: int)
      requires Valid()
      modifies this, nonce
      ensures Valid() && Wrote(PlanOp(old(State()), Data(p, now), fill))
    {
      if |p| == 0 {
        WriteOne(Piece([], []), now);
      } else {
        WriteBytes(p, now);
      }
    }

    /** The salt if due, the header, and the payload sealed where it stands behind its padding. */
    method WriteBufferRecord(b: Buffer, padding: seq<byte>)
      requires Valid() && b.Valid() && b.data != nonce && FitPiece(Piece(b.Contents(), padding))
      requires b.start >= |Due()| + HEADER_CIPHER_LEN + |padding| && b.end + TAG_LEN <= b.data.Length
      modifies `saltSent, `sent, nonce, b, b.data
      ensures saltSent
      ensures sent == old(sent) + (old(Due()) + PieceBytes(k, old(nonce[..]), Piece(old(b.Contents()), padding)))
      ensures nonce[..] == NonceAfter(old(nonce[..]), Piece(old(b.Contents()), padding))
    {
      hide PieceBytes, NonceAfter, Sane;
      var due, dataLen := Due(), b.end - b.start;
      var frontLen := |due| + HEADER_CIPHER_LEN + |padding|;
      SealWithSalt(b.data, b.start - frontLen, due, dataLen, k, nonce, padding);
      b.start := b.start - frontLen;
      if dataLen > 0 {
        b.end := b.end + TAG_LEN;
      }
      saltSent := true;
      sent := sent + b.Contents();
    }

    /** The same octets and state as Write of its contents, at the time the limit used was read. */
    method WriteBuffer(b: Buffer, now: int, later: int)
      requires Valid() && b.Valid() && b.data != nonce
      requires b.start >= (if saltSent then HEADER_CIPHER_LEN else SALT_LEN + HEADER_CIPHER_LEN + MAX_INITIAL_PADDING)
      requires b.end + TAG_LEN <= b.data.Length
      modifies this, nonce, b, b.data
      ensures Valid()
      ensures old(b.Contents()) == [] ==> sent == old(sent) && nonce[..] == old(nonce[..]) && State() == old(State())
      ensures old(b.Contents()) != [] ==>
        Wrote(PlanOp(old(State()),
          Data(old(b.Contents()), if |old(b.Contents())| > LimitFor(old(State()), now) then later else now), fill))
    {
      hide PieceBytes, NonceAfter, PiecesBytes, NonceAfterAll, CutPieces;
      WindowStaysSane(State(), now);
      var data := b.Contents();
      if |data| == 0 {
        return;
      }
      var limit := PayloadLimitFor(now);
      if |data| > limit {
        WriteBytes(data, later);
        return;
      }
      ghost var padding := Padding(State(), fill);
      OneCut(k, nonce[..], data, limit, padding);
      SmallPiece(Piece(data, padding));
      AdvancePayloadLimit(limit, now);
      WriteBufferRecord(b, if saltSent then [] else fill);
    }

    /** A whole datagram in one record or none of it; built in place if the buffer has the room. */
    method WritePacketBuffer(b: Buffer, now: int) returns (error: Option<WriteError>)
      requires Valid() && b.Valid() && b.data != nonce
      modifies this, nonce, b, b.data
      ensures Valid() && (error.Some? <==> |old(b.Contents())| > LimitFor(old(State()), now))
      ensures error.Some? ==> sent == old(sent) && nonce[..] == old(nonce[..]) && State() == old(State())
      ensures error.None? ==> Wrote(PlanOp(old(State()), Packet(old(b.Contents()), now), fill))
    {
      hide PieceBytes, NonceAfter;
      WindowStaysSane(State(), now);
      var data := b.Contents();
      var limit := PayloadLimitFor(now);
      if |data| > limit {
        return Some(PayloadTooLarge);
      }
      var padding := if saltSent || |data| == 0 then [] else fill;
      OnePiece(k, nonce[..], Piece(data, padding));
      AdvancePayloadLimit(limit, now);
      if b.start < HEADER_CIPHER_LEN + |padding| + |Due()| || b.data.Length - b.end < TAG_LEN {
        WriteSliceRecord(Piece(data, padding));
      } else {
        WriteBufferRecord(b, padding);
      }
      error := None;
    }
  }

  /** makeBufferRecordLocked: salt, header, padding and payload, front to back. */
  method SealWithSalt(data: array<byte>, at: nat, due: seq<byte>, payloadLen: nat, k: Cipher, nonce: array<byte>,
      padding: seq<byte>)
    requires at + |due| + HEADER_CIPHER_LEN + |padding| + payloadLen + TAG_LEN <= data.Length && nonce != data
    requires payloadLen == 0 ==> padding == []
    modifies data, nonce
    ensures var x := Piece(old(Slice(data, at + |due| + HEADER_CIPHER_LEN + |padding|, payloadLen)), padding);
            var size := |due| + HEADER_CIPHER_LEN + if payloadLen == 0 then 0 else |padding| + payloadLen + TAG_LEN;
            && Slice(data, at, size) == due + PieceBytes(k, old(nonce[..]), x)
            && nonce[..] == NonceAfter(old(nonce[..]), x)
  {
    hide PieceBytes, NonceAfter;
    SealInPlace(data, at + |due|, payloadLen, k, nonce, padding);
    PutFront(data, at, due, HEADER_CIPHER_LEN + if payloadLen == 0 then 0 else |padding| + payloadLen + TAG_LEN);
  }

  /** Octets put right in front of others. */
  method PutFront(data: array<byte>, at: nat, s: seq<byte>, n: nat)
    requires at + |s| + n <= data.Length
    modifies data
    ensures Slice(data, at, |s| + n) == s + old(Slice(data, at + |s|, n))
  {
    ghost var behind := Slice(data, at + |s|, n);
    Put(data, at, s);
    assert Slice(data, at + |s|, n) == behind;
    SliceJoin(data, at, |s|, n);
  }

  /** A payload sealed where it stands, or only the header of a zero chunk. */
  method SealInPlace(data: array<byte>, at: nat, payloadLen: nat, k: Cipher, nonce: array<byte>, padding: seq<byte>)
    requires at + HEADER_CIPHER_LEN + |padding| + payloadLen + TAG_LEN <= data.Length && nonce != data
    requires payloadLen == 0 ==> padding == []
    modifies data, nonce
    ensures var x := Piece(old(Slice(data, at + HEADER_CIPHER_LEN + |padding|, payloadLen)), padding);
            var size := HEADER_CIPHER_LEN + if payloadLen == 0 then 0 else |padding| + payloadLen + TAG_LEN;
            && Slice(data, at, size) == PieceBytes(k, old(nonce[..]), x)
            && nonce[..] == NonceAfter(old(nonce[..]), x)
  {
    hide EvenSwapped, Exchanged, Increase;
    ghost var x := Piece(Slice(data, at + HEADER_CIPHER_LEN + |padding|, payloadLen), padding);
    if payloadLen > 0 {
      SealAround(data, at, payloadLen, k, nonce, padding);
      assert x.payload != [];
    } else {
      assert x == Piece([], []);
      SealEmpty(data, at, k, nonce);
    }
  }

  /** The header of a zero chunk, sealed where it stands. */
  method SealEmpty(data: array<byte>, at: nat, k: Cipher, nonce: array<byte>)
    requires at + HEADER_CIPHER_LEN <= data.Length && nonce != data
    modifies data, nonce
    ensures Slice(data, at, HEADER_CIPHER_LEN) == PieceBytes(k, old(nonce[..]), Piece([], []))
    ensures nonce[..] == Increase(old(nonce[..]))
    ensures OnlySlice(data, at, HEADER_CIPHER_LEN)
  {
    hide Increase;
    var head := SealedHeader(k, nonce[..], 0, 0);
    AppendNothing(head);
    Put(data, at, head);
    IncreaseNonce(nonce);
  }

  lemma OnePiece(k: Cipher, nonce: seq<byte>, x: Piece)
    ensures PiecesBytes(k, nonce, [x]) == PieceBytes(k, nonce, x) && NonceAfterAll(nonce, [x]) == NonceAfter(nonce, x)
  {
    hide PieceBytes, NonceAfter;
    AppendNothing(PieceBytes(k, nonce, x));
  }

  lemma OneCut(k: Cipher, nonce: seq<byte>, data: seq<byte>, limit: nat, padding: seq<byte>)
    requires 0 < |data| <= limit
    ensures PiecesBytes(k, nonce, CutPieces(data, limit, padding)) == PieceBytes(k, nonce, Piece(data, padding))
    ensures NonceAfterAll(nonce, CutPieces(data, limit, padding)) == NonceAfter(nonce, Piece(data, padding))
  {
    hide PieceBytes, NonceAfter;
    CutFirst(k, nonce, data, limit, padding);
    assert data[..|data|] == data && data[|data|..] == [];
    NothingCut(k, NonceAfter(nonce, Piece(data, padding)), limit, []);
    AppendNothing(PieceBytes(k, nonce, Piece(data, padding)));
  }

  lemma SmallPiece(x: Piece)
    requires 0 < |x.payload| <= MAX_PAYLOAD_LEN && |x.padding| <= MAX_INITIAL_PADDING
    ensures FitPiece(x)
  {
  }

  lemma PieceSize(k: Cipher, nonce: seq<byte>, x: Piece)
    ensures |PieceBytes(k, nonce, x)| ==
            HEADER_CIPHER_LEN + if x.payload == [] then 0 else |x.padding| + |x.payload| + TAG_LEN
  {
  }

  /** One operation by the method that does it; a packet in a buffer of its own. */
  method PerformOp(w: Writer, op: Op)
    requires w.Valid() && OpFits(w.State(), op)
    modifies w, w.nonce
    ensures w.Valid() && w.Wrote(PlanOp(old(w.State()), op, w.fill))
  {
    hide PiecesBytes, PieceBytes, NonceAfterAll, CutPieces, LimitFor, Advanced;
    match op
    case Data(data, now) => w.Write(data, now);
    case Zero(now) => w.WriteZeroChunk(now);
    case Packet(payload, now) =>
      var data := new byte[|payload|](i => 0);
      Put(data, 0, payload);
      var b := new Buffer(data, 0, |payload|);
      var error := w.WritePacketBuffer(b, now);
  }

  /** A whole run of writes on a fresh connection: what has been sent is the connection of the stream theorem. */
  method RunOps(w: Writer, keyed: Keyed, ops: seq<Op>)
    requires w.Valid() && w.k == keyed(w.salt) && w.sent == [] && !w.saltSent && w.nonce[..] == Zeros(NONCE_LEN)
    requires OpsFit(w.State(), ops)
    modifies w, w.nonce
    ensures w.sent == ConnectionBytes(keyed, w.salt, PlanAll(old(w.State()), ops, w.fill))
  {
    hide PiecesBytes, NonceAfterAll, OpFits, Sane, LimitFor;
    if ops != [] {
      SomethingPlanned(w.State(), ops, w.fill);
    }
    ghost var all, n0 := PlanAll(w.State(), ops, w.fill), w.nonce[..];
    var i := 0;
    while i < |ops|
      invariant 0 <= i <= |ops| && w.Valid() && OpsFit(w.State(), ops[i..])
      invariant i == 0 ==>
                w.sent == [] && !w.saltSent && w.nonce[..] == n0 && PlanAll(w.State(), ops[i..], w.fill) == all
      invariant i > 0 ==>
        && w.saltSent
        && w.sent + PiecesBytes(w.k, w.nonce[..], PlanAll(w.State(), ops[i..], w.fill)) ==
          w.salt + PiecesBytes(w.k, n0, all)
    {
      ghost var s1, n1, due, plan := w.sent, w.nonce[..], w.Due(), PlanOp(w.State(), ops[i], w.fill);
      ghost var later := PlanAll(plan.after, ops[i + 1..], w.fill);
      assert ops[i..][0] == ops[i] && ops[i..][1..] == ops[i + 1..];
      PiecesAppend(w.k, n1, plan.pieces, later);
      PerformOp(w, ops[i]);
      Assoc(s1, due + PiecesBytes(w.k, n1, plan.pieces), PiecesBytes(w.k, w.nonce[..], later));
      Assoc(due, PiecesBytes(w.k, n1, plan.pieces), PiecesBytes(w.k, w.nonce[..], later));
      AppendNothing(PiecesBytes(w.k, n1, plan.pieces) + PiecesBytes(w.k, w.nonce[..], later));
      AppendNothing(w.salt + PiecesBytes(w.k, n0, all));
      i := i + 1;
    }
    NoPieces(w.k, w.nonce[..]);
    AppendNothing(w.sent);
  }

  lemma NoPieces(k: Cipher, nonce: seq<byte>)
    ensures PiecesBytes(k, nonce, []) == []
  {
  }
}
