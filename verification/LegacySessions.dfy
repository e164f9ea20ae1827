/**
 A v4 client on a v5 server, both ways over the octets (snellv4/reuse.go, snellv5/reuse.go):
 the server serves what the client asks, and the client is told what the handlers say.
 */
module LegacySessions {
  import opened Bytes
  import opened Aead
  import opened Request
  import opened Profile
  import opened ShapedCodec
  import opened ShapedStream
  import opened RecordFeed
  import opened LegacyCodec
  import opened LegacyWriter
  import opened LegacyStream
  import opened PacingV5
  import opened ServerSession
  import opened LegacyRequests
  import opened ReplyRecords
  import V4 = WriterV4
  import V5 = WriterV5

  function AsGots(results: seq<ReadResult>): seq<Got>
  {
    if results == [] then [] else [AsGot(results[0])] + AsGots(results[1..])
  }

  /** What a reader of either version will be given on a connection, one record for each count of octets buffered. */
  function LegacyFeed(v: Version, keyed: Keyed, wire: seq<byte>, buffered: seq<nat>): Feed
  {
    Feed(None, AsGots(ReadLegacyAll(v, keyed, LegacyReceiving(None, LegacyReading([], wire)), buffered).0))
  }

  lemma {:induction false} MeaningsAreItems(v: Version, xs: seq<Piece>, buffered: seq<nat>)
    requires |xs| == |buffered| && Quiet(v, xs, buffered)
    ensures AsGots(PieceMeanings(v, xs, buffered)) == Items(Payloads(xs))
  {
    if xs != [] {
      QuietFirst(v, xs, buffered);
      MeaningsAreItems(v, xs[1..], buffered[1..]);
      SplitAppend([PieceMeaning(v, xs[0], buffered[0])], PieceMeanings(v, xs[1..], buffered[1..]));
      SplitAppend([xs[0].payload], Payloads(xs[1..]));
    }
  }

  /** On all that a writer has put on a connection, that is what the writer has written. */
  lemma ConnectionFeeds(v: Version, keyed: Keyed, salt: seq<byte>, xs: seq<Piece>, buffered: seq<nat>)
    requires |salt| == SALT_LEN && AllFit(xs) && |buffered| == |xs| && Quiet(v, xs, buffered)
    ensures LegacyFeed(v, keyed, ConnectionBytes(keyed, salt, xs), buffered) == Feed(None, Items(Payloads(xs)))
  {
    hide PieceMeanings, Quiet;
    if xs != [] {
      hide ReadLegacyAll, ConnectionBytes, AsGots, Payloads, Items;
      AppendNothing(ConnectionBytes(keyed, salt, xs));
      ConnectionRoundTrip(v, keyed, salt, xs, [], buffered);
      MeaningsAreItems(v, xs, buffered);
    }
  }

  // ------------------------------------------------------------ the client's requests

  lemma {:induction false} NoPacketsFit(w: V4.Window, ops: seq<V4.Op>)
    requires forall i :: 0 <= i < |ops| ==> !ops[i].Packet?
    ensures V4.OpsFit(w, ops)
    decreases |ops|
  {
    if ops != [] {
      NoPacketsFit(V4.Advanced(w, ops[0].now), ops[1..]);
    }
  }

  lemma {:induction false} NoPacketsAsked(clients: seq<V4Client>)
    requires forall k :: 0 <= k < |clients| ==> ProperV4(clients[k])
    ensures forall i :: 0 <= i < |V4AllOps(clients)| ==> !V4AllOps(clients)[i].Packet?
  {
    if clients != [] {
      NoPacketsAsked(clients[1..]);
    }
  }

  /**
   A v4 client on a v5 server: every request goes out whole, so the server parses them one
   after the other, and each handler hears a prefix of exactly what its client has sent.
   */
  lemma ServeV4Client(keyed: Keyed, salt: seq<byte>, w: V4.Window, clients: seq<V4Client>, fill: seq<byte>,
                      buffered: seq<nat>, service: Service, handlers: seq<seq<Act>>, cut: seq<Act>)
    returns (asks: seq<Asked>)
    requires |salt| == SALT_LEN && V4.Sane(w) && |fill| == w.initialPaddingLen && clients != []
    requires forall k :: 0 <= k < |clients| ==> ProperV4(clients[k]) && service.accepts(clients[k].request.clientId)
    requires |buffered| == |V4.PlanAll(w, V4AllOps(clients), fill)|
    ensures |asks| == |clients|
    ensures forall k :: 0 <= k < |asks| ==>
      WellAsked(asks[k]) && ProperV4(clients[k]) && SeenOne(asks[k], clients[k].request, V4Sending(clients[k]))
    ensures NothingServed(service, []) && TailOutcome(service, []) == PeerEnded
    ensures var wire := ConnectionBytes(keyed, salt, V4.PlanAll(w, V4AllOps(clients), fill));
            var first := NextRequest(LegacyFeed(LegacyCodec.V5, keyed, wire, buffered));
            && first == Turn.Next(asks[0].request, asks[0].early, BehindFirst(asks, []))
            && Accounts(service, asks, ServeAll(service, first.feed, first.request, first.early, handlers, cut),
                        [], |handlers|)
  {
    hide V4.PlanAll, V4AllOps, ServeAll, Accounts, NextRequest, TailOutcome, ConnectionBytes, LegacyFeed, Stream, Input;
    NoPacketsAsked(clients);
    NoPacketsFit(w, V4AllOps(clients));
    V4.AllSay(w, V4AllOps(clients), fill);
    asks := V4ClientStream(w, clients, fill);
    ConnectionFeeds(LegacyCodec.V5, keyed, salt, V4.PlanAll(w, V4AllOps(clients), fill), buffered);
    TailOutcomes(service, UnexpectedEof, [], []);
    AppendNothing(Items(Stream(asks)));
    NextAsked(asks, []);
    ServeResynchronises(service, asks, [], handlers, cut);
  }

  // ------------------------------------------------------------ the server's replies

  ghost predicate EndsWhole(tokens: seq<Token>) { tokens == [] || tokens[|tokens| - 1].End? }

  lemma {:induction false} WholeAnswersEnd(talks: seq<Talk>)
    requires forall k :: 0 <= k < |talks| ==> Answered(talks[k]) && !talks[k].aborted
    ensures EndsWhole(EmittedAll(talks))
  {
    if talks != [] {
      WholeAnswersEnd(talks[1..]);
      assert Answered(talks[0]);
    }
  }

  lemma LastOctet(data: seq<byte>)
    requires data != []
    ensures Octets(data)[|data| - 1].Octet?
  {
    OctetsAt(data, |data| - 1);
  }

  lemma LastOf(a: seq<Token>, b: seq<Token>)
    requires b != []
    ensures (a + b)[|a + b| - 1] == b[|b| - 1]
  {
  }

  lemma OpLeavesNoBatch(p: Pace, op: V5.Op)
    requires Sane(p) && V5.OpFits(p, op) && EndsWhole(V5.Said(op))
    requires V5.Said(op) == [] ==> p.streamPayloadLeft == 0
    ensures V5.PlanOp(p, op).after.streamPayloadLeft == 0
  {
    match op
    case Data(data, _, _) => if data != [] { LastOctet(data); }
    case Zero(_) =>
    case Packet(payload, _) => LastOctet(payload);
  }

  /** Whatever ends with a zero chunk leaves no batch behind. */
  lemma {:induction false} NoBatchLeft(p: Pace, ops: seq<V5.Op>)
    requires Sane(p) && V5.OpsFit(p, ops) && EndsWhole(V5.SaidAll(ops))
    requires V5.SaidAll(ops) == [] ==> p.streamPayloadLeft == 0
    ensures PaceAfter(p, ops).streamPayloadLeft == 0
    decreases |ops|
  {
    if ops != [] {
      hide V5.PlanOp, V5.Said, V5.OpFits, Sane;
      var q, later := V5.PlanOp(p, ops[0]).after, V5.SaidAll(ops[1..]);
      if later == [] {
        AppendNothing(V5.Said(ops[0]));
        OpLeavesNoBatch(p, ops[0]);
      } else {
        LastOf(V5.Said(ops[0]), later);
      }
      NoBatchLeft(q, ops[1..]);
    }
  }

  lemma {:induction false} SaidAllAppend(a: seq<V5.Op>, b: seq<V5.Op>)
    ensures V5.SaidAll(a + b) == V5.SaidAll(a) + V5.SaidAll(b)
  {
    if a == [] {
      AppendNothing(b);
      AppendNothing(V5.SaidAll(b));
    } else {
      TailAppend(a, b);
      SaidAllAppend(a[1..], b);
      Assoc(V5.Said(a[0]), V5.SaidAll(a[1..]), V5.SaidAll(b));
    }
  }

  lemma {:induction false} FitsFront(p: Pace, a: seq<V5.Op>, b: seq<V5.Op>)
    requires Sane(p) && V5.OpsFit(p, a + b)
    ensures V5.OpsFit(p, a) && V5.OpsFit(PaceAfter(p, a), b)
    decreases |a|
  {
    hide V5.PlanOp, V5.OpFits;
    if a == [] {
      AppendNothing(b);
    } else {
      TailAppend(a, b);
      FitsFront(V5.PlanOp(p, a[0]).after, a[1..], b);
    }
  }

  /** A short write into a new batch is one record. */
  lemma ShortV5Write(p: Pace, op: V5.Op)
    requires Sane(p) && p.streamPayloadLeft == 0 && op.Data? && 0 < |op.data| <= 894
    ensures V5.PlanAll(p, [op]) == [Piece(op.data, op.padding)]
  {
    PaceStaysSane(p, |op.data|, op.clock(0));
    var limit := BatchLimit(p, op.clock(0));
    assert BatchLen(p, |op.data|, op.clock(0)) == |op.data|;
    assert op.data[..|op.data|] == op.data && op.data[|op.data|..] == [];
    JustOnePiece(op.data, limit, op.padding);
    var after := AfterBatch(p, |op.data|, op.clock(0));
    assert V5.PlanStream(after, [], op.clock, 1, []).pieces == [];
    AppendNothing([Piece(op.data, op.padding)]);
  }

  lemma JustOnePiece(data: seq<byte>, limit: nat, padding: seq<byte>)
    requires 0 < |data| <= limit
    ensures CutPieces(data, limit, padding) == [Piece(data, padding)]
  {
    assert data[..|data|] == data && data[|data|..] == [];
    AppendNothing([Piece(data, padding)]);
  }

  /** The error is said behind a zero chunk or first of all, so it finds no batch. */
  lemma ErrorFindsNoBatch(p: Pace, front: seq<V5.Op>, op: V5.Op, talks: seq<Talk>)
    requires Sane(p) && p.streamPayloadLeft == 0 && V5.OpsFit(p, front + [op])
    requires op.Data? && op.data == ErrorReply()
    requires InTurn(talks) && talks != [] && talks[|talks| - 1].aborted
    requires V5.SaidAll(front + [op]) == EmittedAll(talks)
    ensures PaceAfter(p, front).streamPayloadLeft == 0
  {
    hide ErrorReply, V5.SaidAll, EmittedAll, Answered, Speaks, V5.OpsFit, EndsWhole, Emitted, Octets, PaceAfter;
    var m := |talks| - 1;
    var t := talks[m];
    assert talks == talks[..m] + [t];
    EmittedAllNext(talks[..m], t);
    WholeAnswersEnd(talks[..m]);
    OneEmitted(t);
    SaidAllAppend(front, [op]);
    OneSaid(op);
    SameFront(V5.SaidAll(front), EmittedAll(talks[..m]), Octets(ErrorReply()));
    FitsFront(p, front, [op]);
    NoBatchLeft(p, front);
  }

  /** Written at once, it is therefore a record of its own. */
  lemma V5ErrorIsOneRecord(p: Pace, ops: seq<V5.Op>, talks: seq<Talk>)
    requires Sane(p) && p.streamPayloadLeft == 0 && V5.OpsFit(p, ops)
    requires InTurn(talks) && talks != [] && talks[|talks| - 1].aborted && V5.SaidAll(ops) == EmittedAll(talks)
    requires ops != [] && ops[|ops| - 1].Data? && ops[|ops| - 1].data == ErrorReply()
    ensures ErrorWhole(Payloads(V5.PlanAll(p, ops)), talks)
  {
    hide ErrorReply, V5.PlanAll, V5.SaidAll, EmittedAll, InTurn, V5.OpsFit, Emitted, PaceAfter;
    var front, op := ops[..|ops| - 1], ops[|ops| - 1];
    assert ops == front + [op];
    ErrorFindsNoBatch(p, front, op, talks);
    V5PlanAppend(p, front, [op]);
    ErrorIsShort();
    ShortV5Write(PaceAfter(p, front), op);
    PayloadsAppend(V5.PlanAll(p, front), [Piece(op.data, op.padding)]);
    OnePayload(Piece(op.data, op.padding));
  }

  lemma OnePayload(x: Piece)
    ensures Payloads([x]) == [x.payload]
  {
  }

  lemma OneSaid(op: V5.Op)
    requires op.Data?
    ensures V5.SaidAll([op]) == Octets(op.data)
  {
    AppendNothing(Octets(op.data));
  }

  lemma SameFront(a: seq<Token>, b: seq<Token>, c: seq<Token>)
    requires a + c == b + c
    ensures a == b
  {
    assert |a| == |b|;
    assert (a + c)[..|a|] == a && (b + c)[..|b|] == b;
  }

  /**
   The way back from a v5 server to a v4 client, whatever the server's handlers did and however
   their reply stream was written: each client is told what its own handler said, as long as
   the error is written at once and no zero chunk is found with octets buffered behind it.
   */
  lemma RepliesToV4(keyed: Keyed, salt: seq<byte>, p: Pace, served: Served, ops: seq<V5.Op>, buffered: seq<nat>,
                    clients: seq<Listening>, service: Service, f: Feed, request: Request, early: seq<byte>,
                    handlers: seq<seq<Act>>, cut: seq<Act>)
    requires |salt| == SALT_LEN && Sane(p) && p.streamPayloadLeft == 0 && V5.OpsFit(p, ops)
    requires served == ServeAll(service, f, request, early, handlers, cut)
    requires V5.SaidAll(ops) == EmittedAll(served.talks)
    requires served.talks != [] && served.talks[|served.talks| - 1].aborted ==>
               ops != [] && ops[|ops| - 1].Data? && ops[|ops| - 1].data == ErrorReply()
    requires |buffered| == |V5.PlanAll(p, ops)| && Quiet(LegacyCodec.V4, V5.PlanAll(p, ops), buffered)
    ensures var wire := ConnectionBytes(keyed, salt, V5.PlanAll(p, ops));
            TellsAll(HearAll(LegacyFeed(LegacyCodec.V4, keyed, wire, buffered), clients), served.talks, |clients|)
  {
    hide V5.PlanAll, V5.SaidAll, EmittedAll, ServeAll, TellsAll, HearAll, LegacyFeed, ConnectionBytes, ErrorReply;
    OnlyLastAborts(service, f, request, early, handlers, cut);
    V5.AllSay(p, ops);
    var xs := V5.PlanAll(p, ops);
    ConnectionFeeds(LegacyCodec.V4, keyed, salt, xs, buffered);
    if served.talks != [] && served.talks[|served.talks| - 1].aborted {
      V5ErrorIsOneRecord(p, ops, served.talks);
    }
    RepliesHeard(served.talks, Payloads(xs), clients);
  }
}
