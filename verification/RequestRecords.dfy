/**
 Whether a request lies whole in one record, as the server requires (readRequest in
 snellv6/server.go and snellv5/server.go looks at one record), and what that makes of whole
 client streams. The v6 writer cuts a request like any other data, so a long one may be split.
 */
module RequestRecords {
  import opened Bytes
  import opened Profile
  import opened Request
  import opened ShapedCodec
  import opened ShapedStream
  import opened RecordFeed
  import opened ServerSession

  /** A request for a logical connection. */
  predicate Asking(r: Request) { Encodable(r) && IsConnect(r.command) }

  function Head(r: Request): (h: seq<byte>)
    requires Asking(r)
    ensures EncodeRequest(r).Encoded? && h == EncodeRequest(r).octets && |h| == RequestLen(r) > 0
  {
    RequestRoundTrip(r, []);
    EncodeRequest(r).octets
  }

  // ------------------------------------------------------------ one request

  predicate Fits(p: Shape, w: Pacing, now: int, r: Request) { RequestLen(r) <= PayloadLimit(p, w, now) }

  /** The first record of a request's write parses as the request if and only if
      the request is within the limit in force. */
  lemma FirstRecordParsesIff(p: Shape, w: Pacing, now: int, r: Request, early: seq<byte>)
    requires Asking(r)
    ensures var first := Split(p, w, now, Head(r) + early).payloads;
            && first != [] && first[0] != []
            && if Fits(p, w, now, r) then
                 |first[0]| >= RequestLen(r) && ParseRequestV6(first[0]) == Parsed(r, first[0][RequestLen(r)..])
               else ParseRequestV6(first[0]).Malformed?
  {
    hide PayloadLimit, EncodeRequest, ParseRequestV6, RequestLen;
    var data := Head(r) + early;
    var n := Min(|data|, PayloadLimit(p, w, now));
    FrontParsesIff(r, early, n);
    if Fits(p, w, now, r) {
      assert data[..n][|Head(r)|..] == early[..n - |Head(r)|];
    }
  }

  /** Chunk sizes as every run of writes leaves them. */
  predicate SanePacing(w: Pacing) { w.chunkSize == 0 || w.chunkSize >= 0x200 }

  lemma {:induction false} SplitStaysSane(p: Shape, w: Pacing, now: int, data: seq<byte>)
    requires SanePacing(w)
    ensures SanePacing(Split(p, w, now, data).after)
    decreases |data|
  {
    hide Step, PayloadLimit;
    if data != [] {
      var n := Min(|data|, PayloadLimit(p, w, now));
      var ready := AfterLimit(p, w, now);
      SplitStaysSane(p, ready.(s := Step(ready.s, data[..n])), now, data[n..]);
    }
  }

  lemma {:induction false} RunStaysSane(p: Shape, w: Pacing, ops: seq<Op>)
    requires SanePacing(w)
    ensures SanePacing(PerformAll(p, w, ops).after)
    decreases |ops|
  {
    hide Split, Step;
    if ops != [] {
      match ops[0] {
        case Write(data, now) => SplitStaysSane(p, w, now, data);
        case WriteBuffer(data, now) => SplitStaysSane(p, w, now, data);
        case WritePacket(_, _) =>
        case ZeroChunk(_) =>
      }
      RunStaysSane(p, Perform(p, w, ops[0]).after, ops[1..]);
    }
  }

  /** No limit falls below 256 octets, so a request of at most 256 is never split, whatever was written before. */
  lemma ShortRequestFits(p: Shape, ops: seq<Op>, now: int, r: Request)
    requires RequestLen(r) <= 256
    ensures Fits(p, PerformAll(p, NewStream(), ops).after, now, r)
  {
    RunStaysSane(p, NewStream(), ops);
    LimitAtLeast(p, PerformAll(p, NewStream(), ops).after, now);
  }

  lemma LimitAtLeast(p: Shape, w: Pacing, now: int)
    requires SanePacing(w)
    ensures PayloadLimit(p, w, now) >= 256
  {
  }

  /** The profile whose every draw is zero. */
  function ZeroProfile(): Shape { NewProfile(Prf((a, b, c) => 0, (a, b) => 0, a => 0, (a, b, c) => 0)) }

  lemma ZeroCap()
    ensures ZeroProfile().firstRecordCap == 256
  {
  }

  /** Any limit below the longest request's length splits some request, and only such a limit does. */
  lemma EveryRequestFitsIff(p: Shape, w: Pacing, now: int)
    ensures (forall r: Request | Asking(r) :: Fits(p, w, now, r)) <==> PayloadLimit(p, w, now) >= 516
  {
    hide PayloadLimit;
    var longest := Request(COMMAND_CONNECT_V2, Zeros(255), Zeros(255), 0);
    assert Asking(longest) && RequestLen(longest) == 516;
    assert Fits(p, w, now, longest) <==> PayloadLimit(p, w, now) >= 516;
  }

  /** A request with a host of 255 octets, which no server can read behind a first limit below its length. */
  lemma LongRequestIsSplit(p: Shape, now: int, early: seq<byte>) returns (r: Request)
    requires p.firstRecordCap < 261
    ensures Asking(r) && RequestLen(r) == 261
    ensures !Fits(p, NewStream(), now, r)
    ensures var first := Split(p, NewStream(), now, Head(r) + early).payloads;
            first != [] && ParseRequestV6(first[0]).Malformed?
  {
    hide Split, EncodeRequest, ParseRequestV6, PayloadLimit;
    r := Request(COMMAND_CONNECT_V2, [], Zeros(255), 0);
    FirstLimitCapped(p, now);
    FirstRecordParsesIff(p, NewStream(), now, r, early);
  }

  lemma FirstLimitCapped(p: Shape, now: int)
    ensures PayloadLimit(p, NewStream(), now) <= p.firstRecordCap
  {
  }

  // ------------------------------------------------------------ whole streams, whatever the writer

  lemma {:induction false} OctetsInjective(a: seq<byte>, b: seq<byte>)
    requires Octets(a) == Octets(b)
    ensures a == b
  {
    assert |a| == |Octets(a)| == |Octets(b)| == |b|;
    if a != [] {
      assert Octets(a)[0] == Octet(a[0]) && Octets(b)[0] == Octet(b[0]);
      assert Octets(a)[1..] == Octets(a[1..]) && Octets(b)[1..] == Octets(b[1..]);
      OctetsInjective(a[1..], b[1..]);
      assert a == [a[0]] + a[1..] && b == [b[0]] + b[1..];
    }
  }

  lemma {:induction false} TokensOfData(data: seq<seq<byte>>)
    requires NoneEmpty(data)
    ensures Tokens(data) == Octets(Concat(data))
  {
    if data != [] {
      TokensOfData(data[1..]);
      OctetsAppend(data[0], Concat(data[1..]));
    }
  }

  /** What one logical connection's records say: octets, all in records that are not empty, then the zero chunk. */
  ghost predicate Carries(payloads: seq<seq<byte>>, octets: seq<byte>) {
    NoneEmpty(payloads) && Tokens(payloads) == Octets(octets)
  }

  lemma CarriesAppend(a: seq<seq<byte>>, x: seq<byte>, b: seq<seq<byte>>, y: seq<byte>)
    requires Carries(a, x) && Carries(b, y)
    ensures Carries(a + b, x + y)
  {
    TokensAppend(a, b);
    OctetsAppend(x, y);
  }

  /** The logical connection that such records make, if the first of them holds the whole request. */
  function AskedFrom(r: Request, payloads: seq<seq<byte>>): Asked
    requires Asking(r) && payloads != [] && |payloads[0]| >= RequestLen(r)
  {
    Asked(r, payloads[0][RequestLen(r)..], payloads[1..])
  }

  lemma AskedFromIs(r: Request, early: seq<byte>, payloads: seq<seq<byte>>, more: seq<Asked>)
    requires Asking(r) && payloads != [] && |payloads[0]| >= RequestLen(r)
    requires Carries(payloads, Head(r) + early) && forall k :: 0 <= k < |more| ==> WellAsked(more[k])
    ensures var a := AskedFrom(r, payloads);
            && WellAsked(a) && Input(a) == early
            && (forall k :: 0 <= k < |[a] + more| ==> WellAsked(([a] + more)[k]))
            && Stream([a] + more) == payloads + ([[]] + Stream(more))
  {
    hide EncodeRequest, RequestLen;
    var a := AskedFrom(r, payloads);
    var head, n := Head(r), RequestLen(r);
    TokensOfData(payloads);
    OctetsInjective(Concat(payloads), head + early);
    var first, rest := payloads[0], Concat(payloads[1..]);
    assert first + rest == head + early;
    FrontOf(first, rest, head, early);
    SplitAppend(head, early);
    SplitAppend([a], more);
    AppendTail(payloads, [[]] + Stream(more));
  }

  lemma FrontOf(first: seq<byte>, rest: seq<byte>, head: seq<byte>, early: seq<byte>)
    requires first + rest == head + early && |first| >= |head|
    ensures first == head + first[|head|..] && first[|head|..] + rest == early
  {
    assert first == (head + early)[..|first|];
    assert (first + rest)[|head|..] == first[|head|..] + rest;
    assert (head + early)[|head|..] == early;
  }

  lemma AppendTail(payloads: seq<seq<byte>>, rest: seq<seq<byte>>)
    requires payloads != []
    ensures payloads + rest == [payloads[0]] + (payloads[1..] + rest)
  {
  }

  // ------------------------------------------------------------ the streams of v6 clients

  /** One logical connection of a client: the request goes out with what is there to
      send, further writes follow, then a zero chunk. */
  datatype Connecting = Connecting(request: Request, early: seq<byte>, now: int, more: seq<Op>, closedAt: int)

  predicate Proper(a: Connecting) { Asking(a.request) && forall i :: 0 <= i < |a.more| ==> !a.more[i].ZeroChunk? }

  function OpsOf(a: Connecting): seq<Op>
    requires Proper(a)
  {
    [Op.Write(Head(a.request) + a.early, a.now)] + (a.more + [ZeroChunk(a.closedAt)])
  }

  function AllOps(clients: seq<Connecting>): seq<Op>
    requires forall k :: 0 <= k < |clients| ==> Proper(clients[k])
  {
    if clients == [] then [] else OpsOf(clients[0]) + AllOps(clients[1..])
  }

  function OpData(op: Op): seq<byte>
  {
    if op.ZeroChunk? || (op.WritePacket? && |op.data| > MAX_PAYLOAD) then [] else op.data
  }

  function OpsData(ops: seq<Op>): seq<byte>
  {
    if ops == [] then [] else OpData(ops[0]) + OpsData(ops[1..])
  }

  /** What the client of one logical connection has sent. */
  function Sending(a: Connecting): seq<byte> { a.early + OpsData(a.more) }

  lemma {:induction false} SplitNoneEmpty(p: Shape, w: Pacing, now: int, data: seq<byte>)
    ensures NoneEmpty(Split(p, w, now, data).payloads)
    decreases |data|
  {
    hide PayloadLimit, Step, AfterLimit;
    if data != [] {
      var n := Min(|data|, PayloadLimit(p, w, now));
      var ready := AfterLimit(p, w, now);
      SplitNoneEmpty(p, ready.(s := Step(ready.s, data[..n])), now, data[n..]);
    }
  }

  lemma OpCarries(p: Shape, w: Pacing, op: Op)
    requires !op.ZeroChunk?
    ensures Carries(Perform(p, w, op).payloads, OpData(op))
  {
    hide Split, Step;
    PerformSays(p, w, op);
    match op
    case Write(data, now) => SplitNoneEmpty(p, w, now, data);
    case WriteBuffer(data, now) => SplitNoneEmpty(p, w, now, data);
    case WritePacket(data, now) =>
  }

  lemma {:induction false} OpsCarry(p: Shape, w: Pacing, ops: seq<Op>)
    requires forall i :: 0 <= i < |ops| ==> !ops[i].ZeroChunk?
    ensures Carries(PerformAll(p, w, ops).payloads, OpsData(ops))
    decreases |ops|
  {
    hide Perform, OpData;
    if ops != [] {
      OpCarries(p, w, ops[0]);
      var after := Perform(p, w, ops[0]).after;
      OpsCarry(p, after, ops[1..]);
      CarriesAppend(Perform(p, w, ops[0]).payloads, OpData(ops[0]), PerformAll(p, after, ops[1..]).payloads,
        OpsData(ops[1..]));
    }
  }

  lemma {:induction false} PerformAppend(p: Shape, w: Pacing, a: seq<Op>, b: seq<Op>)
    ensures var first := PerformAll(p, w, a);
            var second := PerformAll(p, first.after, b);
            PerformAll(p, w, a + b) == Written(first.payloads + second.payloads, second.after)
    decreases |a|
  {
    hide Perform;
    if a == [] {
      AppendNothing(b);
      AppendNothing(PerformAll(p, w, b).payloads);
    } else {
      TailAppend(a, b);
      var after := Perform(p, w, a[0]).after;
      PerformAppend(p, after, a[1..], b);
      var first := PerformAll(p, after, a[1..]);
      Assoc(Perform(p, w, a[0]).payloads, first.payloads, PerformAll(p, first.after, b).payloads);
    }
  }

  /** The records of a logical connection before its zero chunk. */
  function Opening(p: Shape, w: Pacing, a: Connecting): Written
    requires Proper(a)
  {
    var first := Split(p, w, a.now, Head(a.request) + a.early);
    var rest := PerformAll(p, first.after, a.more);
    Written(first.payloads + rest.payloads, rest.after)
  }

  lemma ConnectionRecords(p: Shape, w: Pacing, a: Connecting)
    requires Proper(a)
    ensures var opening := Opening(p, w, a);
            && opening.payloads != []
            && opening.payloads[0] == Split(p, w, a.now, Head(a.request) + a.early).payloads[0]
            && Carries(opening.payloads, Head(a.request) + Sending(a))
            && PerformAll(p, w, OpsOf(a)).payloads == opening.payloads + [[]]
  {
    hide Split, Single, EncodeRequest, Carries, OpData, Octets;
    var data := Head(a.request) + a.early;
    var op := Op.Write(data, a.now);
    FirstRecordParsesIff(p, w, a.now, a.request, a.early);
    OpCarries(p, w, op);
    var first := Split(p, w, a.now, data);
    OpsCarry(p, first.after, a.more);
    var rest := PerformAll(p, first.after, a.more);
    DataOf(op);
    CarriesAppend(first.payloads, data, rest.payloads, OpsData(a.more));
    Assoc(Head(a.request), a.early, OpsData(a.more));
    SplitAppend([op], a.more + [ZeroChunk(a.closedAt)]);
    PerformAppend(p, first.after, a.more, [ZeroChunk(a.closedAt)]);
    OneZero(p, rest.after, a.closedAt);
    Assoc(first.payloads, rest.payloads, [[]]);
  }

  lemma DataOf(op: Op)
    requires op.Write?
    ensures OpData(op) == op.data
  {
  }

  lemma OneZero(p: Shape, w: Pacing, now: int)
    ensures PerformAll(p, w, [ZeroChunk(now)]).payloads == [[]]
  {
  }

  ghost predicate AllProper(clients: seq<Connecting>) { forall k :: 0 <= k < |clients| ==> Proper(clients[k]) }

  /** How many requests, from the first on, go out whole. */
  function Fitting(p: Shape, w: Pacing, clients: seq<Connecting>): (n: nat)
    requires forall k :: 0 <= k < |clients| ==> Proper(clients[k])
    ensures n <= |clients|
    decreases |clients|
  {
    if clients == [] || !Fits(p, w, clients[0].now, clients[0].request) then 0
    else 1 + Fitting(p, PerformAll(p, w, OpsOf(clients[0])).after, clients[1..])
  }

  /** The logical connections as the server is to see them. */
  ghost predicate SeenAs(asks: seq<Asked>, clients: seq<Connecting>) {
    && |asks| <= |clients|
    && forall k :: 0 <= k < |asks| ==>
         WellAsked(asks[k]) && asks[k].request == clients[k].request && Input(asks[k]) == Sending(clients[k])
  }

  /** What follows the connections that fit: nothing if all do, else records whose first is no request. */
  ghost predicate CutOff(tail: seq<seq<byte>>, all: bool) {
    if all then tail == [] else tail != [] && tail[0] != [] && ParseRequestV6(tail[0]).Malformed?
  }

  /**
   A client's records are the stream that the resynchronisation theorem is about, up to the
   first request that is split; there they stop being requests.
   */
  lemma {:induction false} ClientStream(p: Shape, w: Pacing, clients: seq<Connecting>)
    returns (asks: seq<Asked>, tail: seq<seq<byte>>)
    requires AllProper(clients)
    ensures SeenAs(asks, clients) && |asks| == Fitting(p, w, clients)
    ensures PerformAll(p, w, AllOps(clients)).payloads == Stream(asks) + tail
    ensures CutOff(tail, |asks| == |clients|)
    decreases |clients|
  {
    hide PerformAll, EncodeRequest, ParseRequestV6, Carries, OpsOf, Sending, Input, RequestLen, Split, Fits;
    if clients == [] {
      asks, tail := [], [];
      NothingPerformed(p, w);
      return;
    }
    var a := clients[0];
    assert Proper(a);
    var opening, after := Opening(p, w, a), PerformAll(p, w, OpsOf(a)).after;
    ConnectionRecords(p, w, a);
    FirstRecordParsesIff(p, w, a.now, a.request, a.early);
    PerformAppend(p, w, OpsOf(a), AllOps(clients[1..]));
    var rest := PerformAll(p, after, AllOps(clients[1..])).payloads;
    Assoc(opening.payloads, [[]], rest);
    if Fits(p, w, a.now, a.request) {
      var more;
      more, tail := ClientStream(p, after, clients[1..]);
      AskedFromIs(a.request, Sending(a), opening.payloads, more);
      asks := [AskedFrom(a.request, opening.payloads)] + more;
      Assoc([[]], Stream(more), tail);
      Assoc(opening.payloads, [[]] + Stream(more), tail);
    } else {
      asks, tail := [], opening.payloads + ([[]] + rest);
      AppendNothing(tail);
      CarriedFirst(opening.payloads, Head(a.request) + Sending(a));
    }
  }

  lemma CarriedFirst(payloads: seq<seq<byte>>, octets: seq<byte>)
    requires Carries(payloads, octets) && payloads != []
    ensures payloads[0] != []
  {
  }

  lemma NothingPerformed(p: Shape, w: Pacing)
    ensures PerformAll(p, w, []).payloads == []
  {
  }

  // ------------------------------------------------------------ a server on such a stream

  /** The feed of a server's reader on the octets the client has put on the connection. */
  function Served6(c: Codec, salt: seq<byte>, clients: seq<Connecting>): Feed
    requires |salt| == SALT_LEN && forall k :: 0 <= k < |clients| ==> Proper(clients[k])
  {
    FeedOf(c, Receiving(c, salt, AllOps(clients)))
  }

  lemma ClientFeeds(c: Codec, salt: seq<byte>, clients: seq<Connecting>)
    returns (asks: seq<Asked>, tail: seq<seq<byte>>)
    requires |salt| == SALT_LEN && AllProper(clients)
    ensures SeenAs(asks, clients) && |asks| == Fitting(c.p, NewStream(), clients)
    ensures CutOff(tail, |asks| == |clients|)
    ensures Served6(c, salt, clients) == Feed(None, Items(Stream(asks)) + Items(tail))
  {
    hide Wire, Outcomes;
    asks, tail := ClientStream(c.p, NewStream(), clients);
    var payloads := PerformAll(c.p, NewStream(), AllOps(clients)).payloads;
    PerformAllSays(c.p, NewStream(), AllOps(clients));
    WireFeeds(c, salt, Start(), payloads, None);
    ItemsAppend(Stream(asks), tail);
  }

  lemma CutOffEnds(service: Service, tail: seq<seq<byte>>, all: bool)
    requires CutOff(tail, all)
    ensures NothingServed(service, Items(tail)) && (all || NextRequest(Feed(None, Items(tail))).Stop?)
    ensures var outcome := TailOutcome(service, Items(tail));
            if all then outcome == PeerEnded else outcome.BadRequest?
  {
    hide ParseRequestV6;
    if all {
      TailOutcomes(service, UnexpectedEof, [], []);
    } else {
      TailOutcomes(service, ParseRequestV6(tail[0]).error, tail[0], Items(tail[1..]));
    }
  }

  /**
   The whole way, over the octets of a v6 connection: the server parses the first request,
   its handlers hear what their clients sent and nothing else, and it goes on from request
   to request exactly as far as the client's requests went out whole. The first that did
   not ends the session as a malformed request.
   */
  lemma ServeV6Client(c: Codec, salt: seq<byte>, clients: seq<Connecting>, service: Service, handlers: seq<seq<Act>>,
      cut: seq<Act>)
    returns (asks: seq<Asked>, tail: seq<Got>)
    requires |salt| == SALT_LEN && AllProper(clients)
    requires forall k :: 0 <= k < |clients| ==> service.accepts(clients[k].request.clientId)
    requires Fitting(c.p, NewStream(), clients) > 0
    ensures SeenAs(asks, clients) && |asks| == Fitting(c.p, NewStream(), clients)
    ensures NothingServed(service, tail)
    ensures var outcome := TailOutcome(service, tail);
            if |asks| == |clients| then outcome == PeerEnded else outcome.BadRequest?
    ensures var first := NextRequest(Served6(c, salt, clients));
            && first == Turn.Next(asks[0].request, asks[0].early, BehindFirst(asks, tail))
            && Accounts(service, asks, ServeAll(service, first.feed, first.request, first.early, handlers, cut),
                        tail, |handlers|)
  {
    hide Served6, Fitting, ServeAll, Stream, Accounts, TailOutcome, NextRequest, Input, Sending;
    var payloads;
    asks, payloads := ClientFeeds(c, salt, clients);
    tail := Items(payloads);
    CutOffEnds(service, payloads, |asks| == |clients|);
    NextAsked(asks, tail);
    ServeResynchronises(service, asks, tail, handlers, cut);
  }

  /** If already the first request is split, the server ends the connection without serving it. */
  lemma FirstRequestLost(c: Codec, salt: seq<byte>, clients: seq<Connecting>)
    requires |salt| == SALT_LEN && AllProper(clients) && clients != []
    requires !Fits(c.p, NewStream(), clients[0].now, clients[0].request)
    ensures var turn := NextRequest(Served6(c, salt, clients)); turn.Stop? && turn.outcome.BadRequest?
  {
    hide Served6, NextRequest, Fits, SeenAs;
    var asks, tail := ClientFeeds(c, salt, clients);
    CutOffEnds(Service(_ => true, true), tail, false);
    AppendNothing(Items(tail));
  }
}
