/**
 Requests in the records of the v4 and v5 writers (snellv4/record.go, snellv5/record.go): the
 limits leave room for every request, so whole client streams are what a server's
 resynchronisation is about.
 */
module LegacyRequests {
  import opened Bytes
  import opened Request
  import opened ShapedStream
  import opened LegacyCodec
  import opened LegacyWriter
  import opened LegacyStream
  import opened PacingV5
  import opened ServerSession
  import opened RequestRecords
  import V4 = WriterV4
  import V5 = WriterV5

  /** What a client of one logical connection asks and sends, whatever the version. */
  ghost predicate SeenOne(a: Asked, r: Request, sent: seq<byte>) { WellAsked(a) && a.request == r && Input(a) == sent }

  lemma PiecesCarry(xs: seq<Piece>, data: seq<byte>)
    requires NoneEmpty(Payloads(xs)) && PieceTokens(xs) == Octets(data)
    ensures Carries(Payloads(xs), data)
  {
  }

  lemma {:induction false} CutNoneEmpty(data: seq<byte>, limit: nat, padding: seq<byte>)
    requires limit > 0
    ensures NoneEmpty(Payloads(CutPieces(data, limit, padding)))
    ensures data != [] ==>
              && Payloads(CutPieces(data, limit, padding)) != []
              && Payloads(CutPieces(data, limit, padding))[0] == data[..Min(|data|, limit)]
    decreases |data|
  {
    if data != [] {
      var n := Min(|data|, limit);
      CutNoneEmpty(data[n..], limit, []);
      SplitAppend([Piece(data[..n], padding)], CutPieces(data[n..], limit, []));
    }
  }

  /** The first record holds the whole request, and with it some of the early data. */
  lemma FirstHolds(r: Request, early: seq<byte>, n: nat)
    requires Asking(r) && RequestLen(r) <= n <= RequestLen(r) + |early|
    ensures ParseRequestV6((Head(r) + early)[..n]) == Parsed(r, early[..n - RequestLen(r)])
    ensures RequestLen(r) <= 516
  {
    RequestRoundTrip(r, early);
    FrontParsesIff(r, early, n);
  }

  // ------------------------------------------------------------ v5

  /** A request parses from the first record exactly if the batch in force and its limit hold it. */
  lemma FirstV5RecordParsesIff(p: Pace, r: Request, early: seq<byte>, clock: nat -> Tick, padding: seq<byte>)
    requires Sane(p) && Asking(r)
    ensures var data := Head(r) + early;
            var pieces := V5.PlanStream(p, data, clock, 0, padding).pieces;
            var room := Min(BatchLen(p, |data|, clock(0)), BatchLimit(p, clock(0)));
            && pieces != []
            && (ParseRequestV6(pieces[0].payload).Parsed? <==> RequestLen(r) <= room)
            && (NewBatch(p, clock(0).now) ==> RequestLen(r) <= room)
            && pieces[0].payload == data[..room]
  {
    hide EncodeRequest, ParseRequestV6, RequestLen;
    var data := Head(r) + early;
    PaceStaysSane(p, |data|, clock(0));
    var n, limit := BatchLen(p, |data|, clock(0)), BatchLimit(p, clock(0));
    FirstPiece(data[..n], limit, padding);
    FrontParsesIff(r, early, Min(n, limit));
    FirstHolds(r, early, |data|);
    assert data[..n][..Min(n, limit)] == data[..Min(n, limit)];
  }

  lemma FirstPiece(data: seq<byte>, limit: nat, padding: seq<byte>)
    requires data != [] && limit > 0
    ensures CutPieces(data, limit, padding) != []
    ensures CutPieces(data, limit, padding)[0].payload == data[..Min(|data|, limit)]
  {
  }

  /**
   A request that is written behind a zero chunk, at any times, parses from its first record,
   with as much of the early data as that record has room for.
   */
  lemma RequestBehindZeroChunk(
    p: Pace, closedAt: int, r: Request, early: seq<byte>, clock: nat -> Tick, padding: seq<byte>)
    returns (more: seq<byte>)
    requires Sane(p) && Asking(r)
    ensures var after := V5.PlanZero(p, closedAt).after;
            && Sane(after)
            && var pieces := V5.PlanStream(after, Head(r) + early, clock, 0, padding).pieces;
               pieces != [] && more <= early && ParseRequestV6(pieces[0].payload) == Parsed(r, more)
  {
    hide EncodeRequest, ParseRequestV6, RequestLen, V5.PlanStream;
    ZeroEndsBatch(p, closedAt, clock(0).now);
    var q, data := V5.PlanZero(p, closedAt).after, Head(r) + early;
    FirstV5RecordParsesIff(q, r, early, clock, padding);
    var room := Min(BatchLen(q, |data|, clock(0)), BatchLimit(q, clock(0)));
    FirstHolds(r, early, room);
    more := early[..room - RequestLen(r)];
  }

  lemma ZeroEndsBatch(p: Pace, now: int, later: int)
    requires Sane(p)
    ensures Sane(V5.PlanZero(p, now).after) && NewBatch(V5.PlanZero(p, now).after, later)
  {
    PaceStaysSane(p, 0, Tick(now, now));
  }

  /** One logical connection as the writer would carry it: request and early data, further data, a zero chunk. */
  datatype V5Asking = V5Asking(request: Request, early: seq<byte>, clock: nat -> Tick, padding: seq<byte>,
      more: seq<V5.Op>, closedAt: int)

  predicate ProperV5(a: V5Asking) {
    Asking(a.request) && forall i :: 0 <= i < |a.more| ==> a.more[i].Data? && a.more[i].data != []
  }

  function V5OpsOf(a: V5Asking): seq<V5.Op>
    requires ProperV5(a)
  {
    [V5.Op.Data(Head(a.request) + a.early, a.clock, a.padding)] + (a.more + [V5.Zero(a.closedAt)])
  }

  function V5AllOps(clients: seq<V5Asking>): seq<V5.Op>
    requires forall k :: 0 <= k < |clients| ==> ProperV5(clients[k])
  {
    if clients == [] then [] else V5OpsOf(clients[0]) + V5AllOps(clients[1..])
  }

  function V5Data(ops: seq<V5.Op>): seq<byte>
    requires forall i :: 0 <= i < |ops| ==> ops[i].Data?
  {
    if ops == [] then [] else ops[0].data + V5Data(ops[1..])
  }

  /** What the client of one logical connection has sent. */
  function V5Sending(a: V5Asking): seq<byte>
    requires ProperV5(a)
  {
    a.early + V5Data(a.more)
  }

  function PaceAfter(p: Pace, ops: seq<V5.Op>): (q: Pace)
    requires Sane(p)
    ensures Sane(q)
    decreases |ops|
  {
    if ops == [] then p else PaceAfter(V5.PlanOp(p, ops[0]).after, ops[1..])
  }

  lemma {:induction false} V5PlanAppend(p: Pace, a: seq<V5.Op>, b: seq<V5.Op>)
    requires Sane(p)
    ensures V5.PlanAll(p, a + b) == V5.PlanAll(p, a) + V5.PlanAll(PaceAfter(p, a), b)
    ensures PaceAfter(p, a + b) == PaceAfter(PaceAfter(p, a), b)
    decreases |a|
  {
    hide V5.PlanOp;
    if a == [] {
      AppendNothing(b);
      AppendNothing(V5.PlanAll(p, b));
    } else {
      TailAppend(a, b);
      var q := V5.PlanOp(p, a[0]).after;
      V5PlanAppend(q, a[1..], b);
      Assoc(V5.PlanOp(p, a[0]).pieces, V5.PlanAll(q, a[1..]), V5.PlanAll(PaceAfter(q, a[1..]), b));
    }
  }

  lemma {:induction false} V5StreamCarries(p: Pace, data: seq<byte>, clock: nat -> Tick, i: nat, padding: seq<byte>)
    requires Sane(p)
    ensures Carries(Payloads(V5.PlanStream(p, data, clock, i, padding).pieces), data)
    decreases |data|
  {
    hide BatchLimit, AfterBatch, CutPieces, Carries;
    if data == [] {
      NothingCarried();
    } else {
      PaceStaysSane(p, |data|, clock(i));
      var n := BatchLen(p, |data|, clock(i));
      var limit, q := BatchLimit(p, clock(i)), AfterBatch(p, |data|, clock(i));
      CutNoneEmpty(data[..n], limit, padding);
      CutSays(data[..n], limit, padding);
      PiecesCarry(CutPieces(data[..n], limit, padding), data[..n]);
      V5StreamCarries(q, data[n..], clock, i + 1, []);
      var first, later := CutPieces(data[..n], limit, padding), V5.PlanStream(q, data[n..], clock, i + 1, []).pieces;
      PayloadsAppend(first, later);
      CarriesAppend(Payloads(first), data[..n], Payloads(later), data[n..]);
      assert data == data[..n] + data[n..];
    }
  }

  lemma NothingCarried()
    ensures Carries(Payloads([]), [])
  {
  }

  lemma {:induction false} V5OpsCarry(p: Pace, ops: seq<V5.Op>)
    requires Sane(p) && forall i :: 0 <= i < |ops| ==> ops[i].Data?
    ensures Carries(Payloads(V5.PlanAll(p, ops)), V5Data(ops))
    decreases |ops|
  {
    hide Carries, V5.PlanStream;
    if ops == [] {
      NothingCarried();
    } else {
      var o := ops[0];
      var plan := V5.PlanOp(p, o);
      V5StreamCarries(p, o.data, o.clock, 0, o.padding);
      V5OpsCarry(plan.after, ops[1..]);
      PayloadsAppend(plan.pieces, V5.PlanAll(plan.after, ops[1..]));
      CarriesAppend(Payloads(plan.pieces), o.data, Payloads(V5.PlanAll(plan.after, ops[1..])), V5Data(ops[1..]));
    }
  }

  /** One logical connection of a v5 writer that has just begun or just written a zero chunk. */
  lemma V5Connection(p: Pace, a: V5Asking) returns (opening: seq<seq<byte>>)
    requires Sane(p) && p.streamPayloadLeft == 0 && ProperV5(a)
    ensures opening != [] && |opening[0]| >= RequestLen(a.request)
    ensures Carries(opening, Head(a.request) + V5Sending(a))
    ensures Payloads(V5.PlanAll(p, V5OpsOf(a))) == opening + [[]]
    ensures PaceAfter(p, V5OpsOf(a)).streamPayloadLeft == 0
  {
    hide Carries, V5.PlanStream, EncodeRequest, RequestLen, ParseRequestV6;
    var data := Head(a.request) + a.early;
    var op, zero := V5.Op.Data(data, a.clock, a.padding), V5.Zero(a.closedAt);
    var plan := V5.PlanOp(p, op);
    FirstV5RecordParsesIff(p, a.request, a.early, a.clock, a.padding);
    V5StreamCarries(p, data, a.clock, 0, a.padding);
    V5OpsCarry(plan.after, a.more);
    var first, rest := Payloads(plan.pieces), Payloads(V5.PlanAll(plan.after, a.more));
    opening := first + rest;
    CarriesAppend(first, data, rest, V5Data(a.more));
    Assoc(Head(a.request), a.early, V5Data(a.more));
    SplitAppend([op], a.more + [zero]);
    V5PlanAppend(plan.after, a.more, [zero]);
    var q := PaceAfter(plan.after, a.more);
    V5OneZero(q, a.closedAt);
    PayloadsAppend(plan.pieces, V5.PlanAll(plan.after, a.more + [zero]));
    PayloadsAppend(V5.PlanAll(plan.after, a.more), [Piece([], [])]);
    Assoc(first, rest, [[]]);
  }

  lemma V5OneZero(p: Pace, now: int)
    requires Sane(p)
    ensures V5.PlanAll(p, [V5.Zero(now)]) == [Piece([], [])]
    ensures PaceAfter(p, [V5.Zero(now)]).streamPayloadLeft == 0
    ensures Payloads([Piece([], [])]) == [[]]
  {
  }

  /**
   Whoever asked through a v5 writer would ask every request whole: its records are the stream
   of the resynchronisation theorem. (snellv5 has the server's side only; its clients are v4's.)
   */
  lemma {:induction false} V5WriterStream(p: Pace, clients: seq<V5Asking>) returns (asks: seq<Asked>)
    requires Sane(p) && p.streamPayloadLeft == 0 && forall k :: 0 <= k < |clients| ==> ProperV5(clients[k])
    ensures |asks| == |clients|
    ensures forall k :: 0 <= k < |asks| ==>
      WellAsked(asks[k]) && ProperV5(clients[k]) && SeenOne(asks[k], clients[k].request, V5Sending(clients[k]))
    ensures Payloads(V5.PlanAll(p, V5AllOps(clients))) == Stream(asks)
    decreases |clients|
  {
    hide V5.PlanAll, Carries, RequestLen, EncodeRequest, Input, V5OpsOf, PaceAfter, V5Sending;
    if clients == [] {
      asks := [];
      NothingPlanned(p);
    } else {
      var a, others := clients[0], clients[1..];
      var opening := V5Connection(p, a);
      var q := PaceAfter(p, V5OpsOf(a));
      var more := V5WriterStream(q, others);
      V5PlanAppend(p, V5OpsOf(a), V5AllOps(others));
      PayloadsAppend(V5.PlanAll(p, V5OpsOf(a)), V5.PlanAll(q, V5AllOps(others)));
      AskedFromIs(a.request, V5Sending(a), opening, more);
      asks := [AskedFrom(a.request, opening)] + more;
      Assoc(opening, [[]], Stream(more));
    }
  }

  lemma NothingPlanned(p: Pace)
    requires Sane(p)
    ensures Payloads(V5.PlanAll(p, [])) == []
  {
  }

  // ------------------------------------------------------------ v4

  /** The same for a v4 writer, which says a zero chunk by an empty write too. */
  datatype V4Client = V4Client(request: Request, early: seq<byte>, now: int, more: seq<V4.Op>, closedAt: int)

  predicate ProperV4(a: V4Client) {
    Asking(a.request) && forall i :: 0 <= i < |a.more| ==> a.more[i].Data? && a.more[i].data != []
  }

  function V4OpsOf(a: V4Client): seq<V4.Op>
    requires ProperV4(a)
  {
    [V4.Op.Data(Head(a.request) + a.early, a.now)] + (a.more + [V4.Zero(a.closedAt)])
  }

  function V4AllOps(clients: seq<V4Client>): seq<V4.Op>
    requires forall k :: 0 <= k < |clients| ==> ProperV4(clients[k])
  {
    if clients == [] then [] else V4OpsOf(clients[0]) + V4AllOps(clients[1..])
  }

  function V4Data(ops: seq<V4.Op>): seq<byte>
    requires forall i :: 0 <= i < |ops| ==> ops[i].Data?
  {
    if ops == [] then [] else ops[0].data + V4Data(ops[1..])
  }

  function V4Sending(a: V4Client): seq<byte>
    requires ProperV4(a)
  {
    a.early + V4Data(a.more)
  }

  lemma {:induction false} V4PlanAppend(w: V4.Window, a: seq<V4.Op>, b: seq<V4.Op>, fill: seq<byte>)
    requires V4.Sane(w)
    ensures V4.PlanAll(w, a + b, fill) == V4.PlanAll(w, a, fill) + V4.PlanAll(V4.WindowAfter(w, a), b, fill)
    ensures V4.WindowAfter(w, a + b) == V4.WindowAfter(V4.WindowAfter(w, a), b)
    decreases |a|
  {
    hide V4.PlanOp;
    if a == [] {
      AppendNothing(b);
      AppendNothing(V4.PlanAll(w, b, fill));
    } else {
      TailAppend(a, b);
      var q := V4.PlanOp(w, a[0], fill).after;
      V4PlanAppend(q, a[1..], b, fill);
      Assoc(V4.PlanOp(w, a[0], fill).pieces, V4.PlanAll(q, a[1..], fill),
        V4.PlanAll(V4.WindowAfter(q, a[1..]), b, fill));
    }
  }

  lemma V4OpCarries(w: V4.Window, data: seq<byte>, now: int, fill: seq<byte>)
    requires V4.Sane(w) && data != []
    ensures var first := Payloads(V4.PlanOp(w, V4.Op.Data(data, now), fill).pieces);
            first != [] && first[0] == data[..Min(|data|, V4.LimitFor(w, now))] && Carries(first, data)
  {
    hide CutPieces, Carries;
    V4.WindowStaysSane(w, now);
    var limit, padding := V4.LimitFor(w, now), V4.Padding(w, fill);
    CutNoneEmpty(data, limit, padding);
    CutSays(data, limit, padding);
    PiecesCarry(CutPieces(data, limit, padding), data);
  }

  lemma {:induction false} V4OpsCarry(w: V4.Window, ops: seq<V4.Op>, fill: seq<byte>)
    requires V4.Sane(w) && forall i :: 0 <= i < |ops| ==> ops[i].Data? && ops[i].data != []
    ensures Carries(Payloads(V4.PlanAll(w, ops, fill)), V4Data(ops))
    decreases |ops|
  {
    hide Carries, V4.PlanOp;
    if ops == [] {
      NothingCarried();
    } else {
      var o := ops[0];
      var plan := V4.PlanOp(w, o, fill);
      V4OpCarries(w, o.data, o.now, fill);
      V4OpsCarry(plan.after, ops[1..], fill);
      PayloadsAppend(plan.pieces, V4.PlanAll(plan.after, ops[1..], fill));
      CarriesAppend(Payloads(plan.pieces), o.data, Payloads(V4.PlanAll(plan.after, ops[1..], fill)), V4Data(ops[1..]));
    }
  }

  lemma V4Connection(w: V4.Window, a: V4Client, fill: seq<byte>) returns (opening: seq<seq<byte>>)
    requires V4.Sane(w) && ProperV4(a)
    ensures opening != [] && |opening[0]| >= RequestLen(a.request)
    ensures Carries(opening, Head(a.request) + V4Sending(a))
    ensures Payloads(V4.PlanAll(w, V4OpsOf(a), fill)) == opening + [[]]
  {
    hide Carries, EncodeRequest, RequestLen, V4.PlanOp, V4.LimitFor;
    var data := Head(a.request) + a.early;
    var op, zero := V4.Op.Data(data, a.now), V4.Zero(a.closedAt);
    var plan := V4.PlanOp(w, op, fill);
    V4.WindowStaysSane(w, a.now);
    FirstHolds(a.request, a.early, |data|);
    V4OpCarries(w, data, a.now, fill);
    V4OpsCarry(plan.after, a.more, fill);
    var first, rest := Payloads(plan.pieces), Payloads(V4.PlanAll(plan.after, a.more, fill));
    opening := first + rest;
    CarriesAppend(first, data, rest, V4Data(a.more));
    Assoc(Head(a.request), a.early, V4Data(a.more));
    SplitAppend([op], a.more + [zero]);
    V4PlanAppend(plan.after, a.more, [zero], fill);
    V4OneZero(V4.WindowAfter(plan.after, a.more), a.closedAt, fill);
    PayloadsAppend(plan.pieces, V4.PlanAll(plan.after, a.more + [zero], fill));
    PayloadsAppend(V4.PlanAll(plan.after, a.more, fill), [Piece([], [])]);
    Assoc(first, rest, [[]]);
  }

  lemma V4OneZero(w: V4.Window, now: int, fill: seq<byte>)
    requires V4.Sane(w)
    ensures V4.PlanAll(w, [V4.Zero(now)], fill) == [Piece([], [])] && Payloads([Piece([], [])]) == [[]]
  {
  }

  /** Every request of a v4 client goes out whole, at any times: its records are the
      stream of the resynchronisation theorem. */
  lemma {:induction false} V4ClientStream(w: V4.Window, clients: seq<V4Client>, fill: seq<byte>)
    returns (asks: seq<Asked>)
    requires V4.Sane(w) && forall k :: 0 <= k < |clients| ==> ProperV4(clients[k])
    ensures |asks| == |clients|
    ensures forall k :: 0 <= k < |asks| ==>
      WellAsked(asks[k]) && ProperV4(clients[k]) && SeenOne(asks[k], clients[k].request, V4Sending(clients[k]))
    ensures Payloads(V4.PlanAll(w, V4AllOps(clients), fill)) == Stream(asks)
    decreases |clients|
  {
    hide V4.PlanAll, Carries, RequestLen, EncodeRequest, Input, V4OpsOf, V4.WindowAfter, V4Sending;
    if clients == [] {
      asks := [];
      NothingWritten(w, fill);
    } else {
      var a, others := clients[0], clients[1..];
      var opening := V4Connection(w, a, fill);
      var q := V4.WindowAfter(w, V4OpsOf(a));
      var more := V4ClientStream(q, others, fill);
      V4PlanAppend(w, V4OpsOf(a), V4AllOps(others), fill);
      PayloadsAppend(V4.PlanAll(w, V4OpsOf(a), fill), V4.PlanAll(q, V4AllOps(others), fill));
      AskedFromIs(a.request, V4Sending(a), opening, more);
      asks := [AskedFrom(a.request, opening)] + more;
      Assoc(opening, [[]], Stream(more));
    }
  }

  lemma NothingWritten(w: V4.Window, fill: seq<byte>)
    requires V4.Sane(w)
    ensures Payloads(V4.PlanAll(w, [], fill)) == []
  {
  }
}
