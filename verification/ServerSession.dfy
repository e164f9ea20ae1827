/**
 The server's side of a reused connection (snellv6/reuse.go; snellv5/reuse.go is the same
 but for buffering): logical connections follow each other on one record stream, each with
 a handler that reads as much of its input as it likes, but nothing after end of stream.
 A handler is any list of acts, so a handler that decides as it goes is one of them.
 */
module ServerSession {
  import opened Bytes
  import opened Request
  import opened ShapedStream
  import opened RecordFeed
  import Profile
  import ShapedReader

  const WAITING_DISCARD_LIMIT := 0x8_0001
  const REPLY_TUNNEL: byte := 0
  const REPLY_PONG: byte := 1
  const REPLY_ERROR: byte := 2
  const REMOTE_EOF_CODE: byte := 0x65

  function RemoteEofMessage(): (m: seq<byte>)
    ensures |m| == 10
  {
    [0x52, 0x65, 0x6d, 0x6f, 0x74, 0x65, 0x20, 0x45, 0x4f, 0x46] // "Remote EOF"
  }

  function ErrorReply(): seq<byte>
  {
    [REPLY_ERROR, REMOTE_EOF_CODE, |RemoteEofMessage()|] + RemoteEofMessage()
  }

  // ------------------------------------------------------------ one logical connection

  /** What a handler may do; ReadInto is ReadBuffer with that much room. */
  datatype Act = ReadSome(n: nat) | ReadInto(free: nat) | Write(p: seq<byte>) | WriteInto(b: seq<byte>) | Close

  datatype Talk = Talk(
    request: Request,
    heard: seq<byte>, // history: everything its reads have returned
    readClosed: bool,
    said: seq<byte>,  // history: everything its writes have accepted
    replyWritten: bool,
    writeClosed: bool,
    aborted: bool
  )

  function NewTalk(request: Request): Talk { Talk(request, [], false, [], false, false, false) }

  /** What a read makes of what it got. */
  function Hearing(t: Talk, got: Got): Talk
  {
    match got
    case Data(d) => t.(heard := t.heard + d)
    case Eof => t.(readClosed := true)
    case Broken => t
  }

  function AfterRead(f: Feed, t: Talk, n: nat): (Feed, Talk)
  {
    if t.readClosed then (f, t) else
      var (got, g) := ReadOf(f, n);
      (g, Hearing(t, got))
  }

  function AfterWrite(t: Talk, p: seq<byte>): Talk
  {
    if t.writeClosed then t else t.(said := t.said + p, replyWritten := true)
  }

  /** CloseWrite: a side that has not replied says so and gives the connection up. */
  function AfterClose(t: Talk): Talk
  {
    if t.writeClosed then t else t.(writeClosed := true, aborted := !t.replyWritten)
  }

  function AfterAct(f: Feed, t: Talk, a: Act): (Feed, Talk)
  {
    match a
    case ReadSome(n) => AfterRead(f, t, n)
    case ReadInto(n) => AfterRead(f, t, n)
    case Write(p) => (f, AfterWrite(t, p))
    case WriteInto(b) => (f, AfterWrite(t, b))
    case Close => (f, AfterClose(t))
  }

  function AfterActs(f: Feed, t: Talk, acts: seq<Act>): (Feed, Talk)
    decreases |acts|
  {
    if acts == [] then (f, t) else
      var (g, u) := AfterAct(f, t, acts[0]);
      AfterActs(g, u, acts[1..])
  }

  /** The reply grammar of one logical connection: tunnel octet, data, zero chunk; or one error reply. */
  function Emitted(t: Talk): seq<Token>
  {
    (if t.replyWritten then Octets([REPLY_TUNNEL] + t.said) else [])
    + (if !t.writeClosed then [] else if t.aborted then Octets(ErrorReply()) else [End])
  }

  function EmittedAll(talks: seq<Talk>): seq<Token>
  {
    if talks == [] then [] else Emitted(talks[0]) + EmittedAll(talks[1..])
  }

  // ------------------------------------------------------------ the session

  datatype Drained = Resynced | OverLimit | Lost

  /** What is left of a logical connection is read and dropped, up to a limit. */
  function Drain(f: Feed, discarded: nat): (Drained, Feed)
    decreases |f.items|, if f.cache.Some? then 1 else 0
  {
    var (got, g) := NextOf(f);
    match got
    case Eof => (Resynced, g)
    case Broken => (Lost, g)
    case Data(d) => if discarded + |d| >= WAITING_DISCARD_LIMIT then (OverLimit, g) else Drain(g, discarded + |d|)
  }

  datatype Outcome =
    | PeerEnded | Aborted | Ponged | UdpTunnel             // Serve returns nil
    | Unauthorised | InvalidUdp | Unsupported | Cancelled | TooMuch | DrainFailed | RequestFailed
      | BadRequest(error: RequestError)

  /** The connection is closed before Serve returns, unless its peer has ended it
      or a packet tunnel has taken it over. */
  predicate ClosesConn(o: Outcome) { !o.PeerEnded? && !o.UdpTunnel? }

  datatype Served = Served(talks: seq<Talk>, outcome: Outcome, feed: Feed)

  /** Which client ids are served (one user: all), and whether a UDP request may have
      data behind it: v5 drops such data, v6 refuses. */
  datatype Service = Service(accepts: seq<byte> -> bool, strictUdp: bool)

  /** What is done with a request that does not start a logical connection, if it does not. */
  function Refusal(service: Service, request: Request, early: seq<byte>): Option<Outcome>
  {
    if request.command != COMMAND_PING && !service.accepts(request.clientId) then Some(Unauthorised)
    else if IsConnect(request.command) then None
    else if request.command == COMMAND_UDP then Some(if early != [] && service.strictUdp then InvalidUdp else UdpTunnel)
    else if request.command == COMMAND_PING then Some(Ponged)
    else Some(Unsupported)
  }

  function WithEarly(f: Feed, early: seq<byte>): Feed { if early == [] then f else f.(cache := Some(early)) }

  /** How a logical connection ends, once its handler is done: the session's end, or the next request. */
  datatype Turn = Stop(outcome: Outcome, feed: Feed) | Next(request: Request, early: seq<byte>, feed: Feed)

  function NextRequest(f: Feed): Turn
  {
    var (got, g) := FromStream(f);
    match got
    case Eof => Stop(PeerEnded, g)
    case Broken => Stop(RequestFailed, g)
    case Data(d) =>
      match ParseRequestV6(d)
      case Malformed(e) => Stop(BadRequest(e), g)
      case Parsed(request, early) => Turn.Next(request, early, g)
  }

  function AfterTalk(f: Feed, t: Talk): Turn
  {
    if t.aborted then Stop(Aborted, f)
    else if t.readClosed then NextRequest(f)
    else
      match Drain(f, 0)
      case (Resynced, g) => NextRequest(g)
      case (OverLimit, g) => Stop(TooMuch, g)
      case (Lost, g) => Stop(DrainFailed, g)
  }

  /**
   Serve; handlers are those that come to their end, and cut is what the one after them has
   done when the context ends. That one's side is left as it is, and the connection is closed.
   */
  function ServeAll(
    service: Service, f: Feed, request: Request, early: seq<byte>, handlers: seq<seq<Act>>, cut: seq<Act>): Served
    decreases |handlers|
  {
    var refusal := Refusal(service, request, early);
    if refusal.Some? then Served([], refusal.value, f)
    else if handlers == [] then
      var (g, t) := AfterActs(WithEarly(f, early), NewTalk(request), cut);
      Served([t], Cancelled, g)
    else
      var (g, t) := AfterActs(WithEarly(f, early), NewTalk(request), handlers[0]);
      var u := AfterClose(t);
      match AfterTalk(g, u)
      case Stop(o, h) => Served([u], o, h)
      case Next(r, e, h) =>
        var later := ServeAll(service, h, r, e, handlers[1..], cut);
        later.(talks := [u] + later.talks)
  }

  // ------------------------------------------------------------ what a handler hears

  /** One logical connection as its client makes it: request and early data in
      one record, data records, a zero chunk. */
  datatype Asked = Asked(request: Request, early: seq<byte>, data: seq<seq<byte>>)

  predicate NoneEmpty(data: seq<seq<byte>>) { forall i :: 0 <= i < |data| ==> data[i] != [] }

  predicate WellAsked(a: Asked) { Encodable(a.request) && IsConnect(a.request.command) && NoneEmpty(a.data) }

  ghost predicate AllWellAsked(service: Service, asks: seq<Asked>) {
    forall k :: 0 <= k < |asks| ==> WellAsked(asks[k]) && service.accepts(asks[k].request.clientId)
  }

  function Input(a: Asked): seq<byte> { a.early + Concat(a.data) }

  function Stream(asks: seq<Asked>): seq<seq<byte>>
    requires forall k :: 0 <= k < |asks| ==> WellAsked(asks[k])
  {
    if asks == [] then []
    else
      assert WellAsked(asks[0]);
      RequestRoundTrip(asks[0].request, []);
      [EncodeRequest(asks[0].request).octets + asks[0].early] + (asks[0].data + ([[]] + Stream(asks[1..])))
  }

  function InCache(f: Feed): seq<byte> { if f.cache.Some? then f.cache.value else [] }

  /** The feed is inside a logical connection: data to come, its zero chunk, then rest. */
  ghost predicate Inside(f: Feed, data: seq<seq<byte>>, rest: seq<Got>) {
    NoneEmpty(data) && f.items == Items(data) + ([Got.Eof] + rest)
  }

  lemma StreamOff(f: Feed, data: seq<seq<byte>>, rest: seq<Got>)
    requires Inside(f, data, rest)
    ensures var (got, g) := FromStream(f);
            if data == [] then got.Eof? && g == f.(items := rest)
            else got == Data(data[0]) && Inside(g, data[1..], rest) && g.cache == f.cache
                 && Concat(data) == data[0] + Concat(data[1..])
  {
    if data == [] {
      AppendNothing([Got.Eof] + rest);
      SplitAppend([Got.Eof], rest);
    } else {
      SplitAppend([Data(data[0])], Items(data[1..]));
      TailAppend(Items(data), [Got.Eof] + rest);
    }
  }

  /** A read takes octets off the front of what is left, or, when nothing is left, the zero chunk and nothing else. */
  lemma ReadInside(f: Feed, n: nat, data: seq<seq<byte>>, rest: seq<Got>) returns (data': seq<seq<byte>>)
    requires Inside(f, data, rest)
    ensures var (got, g) := ReadOf(f, n);
            match got
            case Data(d) => Inside(g, data', rest) && d + (InCache(g) + Concat(data')) == InCache(f) + Concat(data)
            case Eof => InCache(f) == [] && data == [] && g == Feed(None, rest)
            case Broken => false
  {
    data' := data;
    if InCache(f) != [] {
      CutAssoc(f.cache.value, Min(|f.cache.value|, n), Concat(data));
    } else {
      StreamOff(f.(cache := None), data, rest);
      if data != [] {
        data' := data[1..];
        CutAssoc(data[0], Min(|data[0]|, n), Concat(data'));
        AppendNothing(Concat(data));
      }
    }
  }

  lemma CutAssoc(d: seq<byte>, k: nat, rest: seq<byte>)
    requires k <= |d|
    ensures d[..k] + (d[k..] + rest) == d + rest
  {
    assert d == d[..k] + d[k..];
    Assoc(d[..k], d[k..], rest);
  }

  /** Where a handler stands: what it has heard and what is left make up its
      input; after end of stream, nothing is left. */
  ghost predicate Amid(f: Feed, t: Talk, input: seq<byte>, data: seq<seq<byte>>, rest: seq<Got>) {
    if t.readClosed then f.cache.None? && f.items == rest && t.heard == input
    else Inside(f, data, rest) && t.heard + (InCache(f) + Concat(data)) == input
  }

  lemma ActKeeps(f: Feed, t: Talk, a: Act, input: seq<byte>, data: seq<seq<byte>>, rest: seq<Got>)
    returns (data': seq<seq<byte>>)
    requires Amid(f, t, input, data, rest)
    ensures var (g, u) := AfterAct(f, t, a); Amid(g, u, input, data', rest) && u.request == t.request
  {
    hide ReadOf, Inside;
    data' := data;
    if (a.ReadSome? || a.ReadInto?) && !t.readClosed {
      var n := if a.ReadSome? then a.n else a.free;
      data' := ReadInside(f, n, data, rest);
      var (got, g) := ReadOf(f, n);
      if got.Data? {
        Assoc(t.heard, got.octets, InCache(g) + Concat(data'));
      } else {
        AppendNothing(t.heard);
      }
    }
  }

  lemma {:induction false} ActsKeep(f: Feed, t: Talk, acts: seq<Act>, input: seq<byte>, data: seq<seq<byte>>,
      rest: seq<Got>)
    returns (data': seq<seq<byte>>)
    requires Amid(f, t, input, data, rest)
    ensures var (g, u) := AfterActs(f, t, acts); Amid(g, u, input, data', rest) && u.request == t.request
    decreases |acts|
  {
    if acts == [] {
      data' := data;
    } else {
      var data1 := ActKeeps(f, t, acts[0], input, data, rest);
      hide AfterAct, Amid;
      var (g, u) := AfterAct(f, t, acts[0]);
      data' := ActsKeep(g, u, acts[1..], input, data1, rest);
    }
  }

  /** Draining ends just behind the zero chunk, exactly if less than the limit is left. */
  lemma {:induction false} DrainInside(f: Feed, discarded: nat, data: seq<seq<byte>>, rest: seq<Got>)
    requires Inside(f, data, rest) && discarded < WAITING_DISCARD_LIMIT
    ensures var left := discarded + |InCache(f)| + |Concat(data)|;
            if left < WAITING_DISCARD_LIMIT then Drain(f, discarded) == (Resynced, Feed(None, rest))
            else Drain(f, discarded).0 == OverLimit
    decreases |data|, if f.cache.Some? then 1 else 0
  {
    hide Inside;
    var (got, g) := NextOf(f);
    if InCache(f) != [] {
      DropCache(f, data, rest);
      if discarded + |got.octets| < WAITING_DISCARD_LIMIT { DrainInside(g, discarded + |got.octets|, data, rest); }
    } else {
      DropCache(f, data, rest);
      StreamOff(f.(cache := None), data, rest);
      if data != [] {
        if discarded + |got.octets| < WAITING_DISCARD_LIMIT {
          DrainInside(g, discarded + |got.octets|, data[1..], rest);
        }
      }
    }
  }

  lemma DropCache(f: Feed, data: seq<seq<byte>>, rest: seq<Got>)
    requires Inside(f, data, rest)
    ensures Inside(f.(cache := None), data, rest)
  {
  }

  /** The session goes on after a logical connection exactly if it was answered and little enough was left unread. */
  predicate GoesOn(input: seq<byte>, t: Talk) {
    !t.aborted && (t.readClosed || |input| - |t.heard| < WAITING_DISCARD_LIMIT)
  }

  lemma TurnIs(f: Feed, t: Talk, input: seq<byte>, data: seq<seq<byte>>, rest: seq<Got>)
    requires Amid(f, t, input, data, rest)
    ensures t.heard <= input && (t.readClosed ==> t.heard == input)
    ensures if GoesOn(input, t) then AfterTalk(f, t) == NextRequest(Feed(None, rest))
            else AfterTalk(f, t).Stop? && AfterTalk(f, t).outcome == if t.aborted then Aborted else TooMuch
  {
    hide NextRequest, Drain, Inside;
    if !t.readClosed {
      DrainInside(f, 0, data, rest);
    }
  }

  /** What follows the last logical connection asked: nothing, a broken connection, or
      what is no request or one that is declined. */
  ghost predicate NothingServed(service: Service, tail: seq<Got>) {
    match NextRequest(Feed(None, tail))
    case Stop(_, _) => true
    case Next(request, early, _) => Refusal(service, request, early).Some?
  }

  ghost function TailOutcome(service: Service, tail: seq<Got>): Outcome
    requires NothingServed(service, tail)
  {
    match NextRequest(Feed(None, tail))
    case Stop(outcome, _) => outcome
    case Next(request, early, _) => Refusal(service, request, early).value
  }

  lemma TailOutcomes(service: Service, error: RequestError, d: seq<byte>, rest: seq<Got>)
    ensures NothingServed(service, []) && TailOutcome(service, []) == PeerEnded
    ensures NothingServed(service, [Broken] + rest) && TailOutcome(service, [Broken] + rest) == RequestFailed
    ensures ParseRequestV6(d) == Malformed(error) ==>
            NothingServed(service, [Data(d)] + rest) && TailOutcome(service, [Data(d)] + rest) == BadRequest(error)
  {
  }

  /** A well-formed connect request of somebody who is not accepted. */
  lemma StrangerOutcome(service: Service, r: Request, early: seq<byte>, rest: seq<Got>)
    requires Encodable(r) && IsConnect(r.command) && !service.accepts(r.clientId)
    ensures EncodeRequest(r).Encoded?
    ensures var tail := [Data(EncodeRequest(r).octets + early)] + rest;
            NothingServed(service, tail) && TailOutcome(service, tail) == Unauthorised
  {
    hide EncodeRequest, ParseRequestV6;
    RequestRoundTrip(r, []);
    V6RoundTrip(r, early);
    SplitAppend([Data(EncodeRequest(r).octets + early)], rest);
  }

  /** The feed just behind the request of the first connection asked. */
  function BehindFirst(asks: seq<Asked>, tail: seq<Got>): Feed
    requires asks != [] && forall k :: 0 <= k < |asks| ==> WellAsked(asks[k])
  {
    Feed(None, Items(asks[0].data) + ([Got.Eof] + (Items(Stream(asks[1..])) + tail)))
  }

  lemma NextAsked(asks: seq<Asked>, tail: seq<Got>)
    requires forall k :: 0 <= k < |asks| ==> WellAsked(asks[k])
    ensures NextRequest(Feed(None, Items(Stream(asks)) + tail)) ==
            if asks == [] then NextRequest(Feed(None, tail))
            else Turn.Next(asks[0].request, asks[0].early, BehindFirst(asks, tail))
  {
    hide EncodeRequest, ParseRequestV6, Stream, Items;
    if asks == [] {
      NothingAsked();
      AppendNothing(tail);
    } else {
      V6RoundTrip(asks[0].request, asks[0].early);
      RequestRoundTrip(asks[0].request, []);
      AskedItems(asks);
      var first := EncodeRequest(asks[0].request).octets + asks[0].early;
      var rest := Items(Stream(asks[1..]));
      Regroup([Data(first)], Items(asks[0].data), [Got.Eof], rest, tail);
      SplitAppend([Data(first)], Items(asks[0].data) + ([Got.Eof] + (rest + tail)));
    }
  }

  lemma NothingAsked()
    ensures Items(Stream([])) == []
  {
  }

  lemma Regroup<T>(a: seq<T>, b: seq<T>, c: seq<T>, d: seq<T>, e: seq<T>)
    ensures (a + (b + (c + d))) + e == a + (b + (c + (d + e)))
  {
    Assoc(a, b + (c + d), e);
    Assoc(b, c + d, e);
    Assoc(c, d, e);
  }

  lemma AskedItems(asks: seq<Asked>)
    requires asks != [] && forall k :: 0 <= k < |asks| ==> WellAsked(asks[k])
    ensures EncodeRequest(asks[0].request).Encoded?
    ensures Items(Stream(asks)) ==
            [Data(EncodeRequest(asks[0].request).octets + asks[0].early)]
            + (Items(asks[0].data) + ([Got.Eof] + Items(Stream(asks[1..]))))
  {
    hide EncodeRequest;
    assert WellAsked(asks[0]);
    RequestRoundTrip(asks[0].request, []);
    var first := EncodeRequest(asks[0].request).octets + asks[0].early;
    var rest := [[]] + Stream(asks[1..]);
    SplitAppend([first], asks[0].data + rest);
    ItemsAppend(asks[0].data, rest);
    SplitAppend([[]], Stream(asks[1..]));
  }

  /**
   What came of the logical connections: each heard its own input and nothing else, and the
   session ended for a reason; if the context ended, in the handler after those that came to
   their end.
   */
  ghost predicate Accounts(service: Service, asks: seq<Asked>, out: Served, tail: seq<Got>, handlers: nat) {
    var n := |out.talks|;
    && n <= |asks|
    && (forall k :: 0 <= k < n ==>
          && out.talks[k].request == asks[k].request
          && out.talks[k].heard <= Input(asks[k])
          && (out.talks[k].readClosed ==> out.talks[k].heard == Input(asks[k])))
    && (forall k :: 0 <= k < n - 1 ==> GoesOn(Input(asks[k]), out.talks[k]))
    && (if out.outcome.Cancelled? then n == handlers + 1
        else
          && n <= handlers
          && if n > 0 && !GoesOn(Input(asks[n - 1]), out.talks[n - 1]) then
               out.outcome == if out.talks[n - 1].aborted then Aborted else TooMuch
             else
               n == |asks| && NothingServed(service, tail) && out.outcome == TailOutcome(service, tail))
  }

  /** One logical connection under its handler, and the turn it ends with. */
  lemma OneTalk(asks: seq<Asked>, tail: seq<Got>, acts: seq<Act>)
    requires asks != [] && forall k :: 0 <= k < |asks| ==> WellAsked(asks[k])
    ensures var (g, t) := AfterActs(WithEarly(BehindFirst(asks, tail), asks[0].early), NewTalk(asks[0].request), acts);
            var u := AfterClose(t);
            && u.request == asks[0].request && u.heard <= Input(asks[0]) && (u.readClosed ==> u.heard == Input(asks[0]))
            && t.request == u.request && t.heard == u.heard && t.readClosed == u.readClosed
            && if !GoesOn(Input(asks[0]), u) then
                 AfterTalk(g, u).Stop? && AfterTalk(g, u).outcome == if u.aborted then Aborted else TooMuch
               else if |asks| == 1 then AfterTalk(g, u) == NextRequest(Feed(None, tail))
               else AfterTalk(g, u) == Turn.Next(asks[1].request, asks[1].early, BehindFirst(asks[1..], tail))
  {
    hide AfterActs, AfterTalk, NextRequest, Stream, GoesOn, Encodable;
    var a, rest := asks[0], Items(Stream(asks[1..])) + tail;
    assert WellAsked(a);
    var f0 := WithEarly(BehindFirst(asks, tail), a.early);
    AppendNothing(Input(a));
    var data' := ActsKeep(f0, NewTalk(a.request), acts, Input(a), a.data, rest);
    var (g, t) := AfterActs(f0, NewTalk(a.request), acts);
    TurnIs(g, AfterClose(t), Input(a), data', rest);
    NextAsked(asks[1..], tail);
  }

  /**
   Resynchronisation. Whatever the handlers read, each hears a prefix of exactly its own
   logical connection's early data and data, and the next request parsed is the next one
   asked, until a connection is left unanswered or with too much unread.
   */
  lemma {:induction false} ServeResynchronises(service: Service, asks: seq<Asked>, tail: seq<Got>,
      handlers: seq<seq<Act>>, cut: seq<Act>)
    requires asks != [] && AllWellAsked(service, asks) && NothingServed(service, tail)
    ensures Accounts(service, asks,
                     ServeAll(service, BehindFirst(asks, tail), asks[0].request, asks[0].early, handlers, cut),
                     tail, |handlers|)
    decreases |handlers|
  {
    hide AfterActs, AfterTalk, AfterClose, GoesOn, Input, BehindFirst, WithEarly;
    assert WellAsked(asks[0]);
    if handlers == [] {
      OneTalk(asks, tail, cut);
    } else {
      OneTalk(asks, tail, handlers[0]);
      var (g, t) := AfterActs(WithEarly(BehindFirst(asks, tail), asks[0].early), NewTalk(asks[0].request), handlers[0]);
      var u := AfterClose(t);
      if |asks| > 1 && GoesOn(Input(asks[0]), u) {
        ServeResynchronises(service, asks[1..], tail, handlers[1..], cut);
        AccountsOneMore(service, asks, u,
          ServeAll(service, BehindFirst(asks[1..], tail), asks[1].request, asks[1].early, handlers[1..], cut),
          tail, |handlers| - 1);
      }
    }
  }

  lemma AccountsOneMore(
    service: Service, asks: seq<Asked>, t: Talk, later: Served, tail: seq<Got>, handlers: nat)
    requires |asks| > 1 && Accounts(service, asks[1..], later, tail, handlers)
    requires t.request == asks[0].request && t.heard <= Input(asks[0]) && (t.readClosed ==> t.heard == Input(asks[0]))
    requires GoesOn(Input(asks[0]), t)
    ensures Accounts(service, asks, later.(talks := [t] + later.talks), tail, handlers + 1)
  {
    hide GoesOn, Input;
    var out := later.(talks := [t] + later.talks);
    forall k | 0 <= k < |out.talks|
      ensures out.talks[k].request == asks[k].request && out.talks[k].heard <= Input(asks[k])
      ensures out.talks[k].readClosed ==> out.talks[k].heard == Input(asks[k])
      ensures k < |out.talks| - 1 ==> GoesOn(Input(asks[k]), out.talks[k])
    {
      if k > 0 { assert out.talks[k] == later.talks[k - 1] && asks[k] == asks[1..][k - 1]; }
    }
  }

  // ------------------------------------------------------------ who is served

  lemma {:induction false} ActsKeepRequest(f: Feed, t: Talk, acts: seq<Act>)
    ensures AfterActs(f, t, acts).1.request == t.request
    decreases |acts|
  {
    if acts != [] {
      hide ReadOf;
      var (g, u) := AfterAct(f, t, acts[0]);
      ActsKeepRequest(g, u, acts[1..]);
    }
  }

  /** On any stream at all, handlers are only run for connect requests of clients that are accepted. */
  lemma {:induction false} ServesOnlyAccepted(service: Service, f: Feed, request: Request, early: seq<byte>,
      handlers: seq<seq<Act>>, cut: seq<Act>)
    ensures forall t :: t in ServeAll(service, f, request, early, handlers, cut).talks ==>
              IsConnect(t.request.command) && service.accepts(t.request.clientId)
    decreases |handlers|
  {
    hide AfterActs, NextRequest, Drain;
    if Refusal(service, request, early).None? {
      var acts := if handlers == [] then cut else handlers[0];
      ActsKeepRequest(WithEarly(f, early), NewTalk(request), acts);
      if handlers != [] {
        var (g, t) := AfterActs(WithEarly(f, early), NewTalk(request), acts);
        match AfterTalk(g, AfterClose(t))
        case Stop(_, _) =>
        case Next(r, e, h) => ServesOnlyAccepted(service, h, r, e, handlers[1..], cut);
      }
    }
  }

  /** What a request that is not served comes to, each kind in its own way; every other one is served. */
  lemma DeclinedIff(service: Service, f: Feed, request: Request, early: seq<byte>, handlers: seq<seq<Act>>,
      cut: seq<Act>)
    ensures var out := ServeAll(service, f, request, early, handlers, cut);
            var known := request.command == COMMAND_PING || service.accepts(request.clientId);
            && (out.talks == [] <==> !known || !IsConnect(request.command))
            && (out.talks == [] ==> out.feed == f)
            && (out.talks != [] ==> out.talks[0].request == request)
            && (!known ==> out.outcome == Unauthorised)
            && (request.command == COMMAND_PING ==> out.outcome == Ponged)
            && (known && request.command == COMMAND_UDP ==>
                  out.outcome == if early != [] && service.strictUdp then InvalidUdp else UdpTunnel)
            && (known && !IsConnect(request.command) && request.command !in {COMMAND_PING, COMMAND_UDP} ==>
                  out.outcome == Unsupported)
  {
    hide AfterActs, AfterTalk;
    var acts := if handlers == [] then cut else handlers[0];
    ActsKeepRequest(WithEarly(f, early), NewTalk(request), acts);
  }

  // ------------------------------------------------------------ what a client is told

  /** A side that has been closed has answered, with data or with the error. */
  predicate Answered(t: Talk) {
    t.writeClosed && (t.aborted <==> !t.replyWritten) && (!t.replyWritten ==> t.said == [])
  }

  predicate Speaks(t: Talk) {
    (t.aborted ==> t.writeClosed) && (t.writeClosed ==> (t.aborted <==> !t.replyWritten))
      && (!t.replyWritten ==> t.said == [])
  }

  lemma {:induction false} ActsSpeak(f: Feed, t: Talk, acts: seq<Act>)
    requires Speaks(t)
    ensures Speaks(AfterActs(f, t, acts).1)
    decreases |acts|
  {
    if acts != [] {
      hide ReadOf;
      var (g, u) := AfterAct(f, t, acts[0]);
      ActsSpeak(g, u, acts[1..]);
    }
  }

  /** Sides one after the other: all answer, and but for the last one not with the error; the last may be cut short. */
  ghost predicate InTurn(talks: seq<Talk>) {
    && (forall k :: 0 <= k < |talks| - 1 ==> Answered(talks[k]) && !talks[k].aborted)
    && (talks != [] ==> Speaks(talks[|talks| - 1]))
  }

  /**
   On any stream at all, every side answers, and only the last may answer with the error,
   which ends the session. Only a side in which the context ended may be left unanswered.
   */
  lemma {:induction false} OnlyLastAborts(service: Service, f: Feed, request: Request, early: seq<byte>,
      handlers: seq<seq<Act>>, cut: seq<Act>)
    ensures var out := ServeAll(service, f, request, early, handlers, cut);
            && InTurn(out.talks)
            && (out.talks != [] ==> Answered(out.talks[|out.talks| - 1]) || out.outcome.Cancelled?)
            && (out.outcome.Cancelled? ==> out.talks != [])
            && (out.outcome.Aborted? <==>
                out.talks != [] && out.talks[|out.talks| - 1].aborted && !out.outcome.Cancelled?)
    decreases |handlers|
  {
    hide AfterActs, NextRequest, Drain;
    if Refusal(service, request, early).None? && handlers == [] {
      ActsSpeak(WithEarly(f, early), NewTalk(request), cut);
    } else if Refusal(service, request, early).None? {
      ActsSpeak(WithEarly(f, early), NewTalk(request), handlers[0]);
      var (g, t) := AfterActs(WithEarly(f, early), NewTalk(request), handlers[0]);
      var u := AfterClose(t);
      NotAborted(g);
      match AfterTalk(g, u)
      case Stop(_, _) =>
      case Next(r, e, h) => OnlyLastAborts(service, h, r, e, handlers[1..], cut);
    }
  }

  lemma NotAborted(f: Feed)
    ensures var turn := NextRequest(f); turn.Stop? ==> !turn.outcome.Aborted?
    ensures var turn := NextRequest(Drain(f, 0).1); turn.Stop? ==> !turn.outcome.Aborted?
  {
  }

  /** How a client reads the first record of a reply (ParseReply, ReadServerError). */
  datatype FirstReply = Tunnel(rest: seq<byte>) | ServerError(code: byte, message: seq<byte>) | Rejected

  function ParseReply(record: seq<byte>): FirstReply
  {
    if record == [] then Rejected
    else if record[0] == REPLY_TUNNEL then Tunnel(record[1..])
    else if record[0] == REPLY_ERROR && |record| >= 3 && |record| == 3 + record[2] as int then
      ServerError(record[1], record[3..])
    else Rejected
  }

  /** An error is read exactly from a code, a message length and a message of that
      length, with nothing behind; so is the server's own. */
  lemma ErrorReplyIff(record: seq<byte>, code: byte, message: seq<byte>)
    ensures ParseReply(record) == ServerError(code, message) <==>
            |message| < 256 && record == [REPLY_ERROR, code, |message|] + message
    ensures ParseReply(ErrorReply()) == ServerError(REMOTE_EOF_CODE, RemoteEofMessage())
  {
    hide RemoteEofMessage;
    SplitAppend([REPLY_ERROR, REMOTE_EOF_CODE, |RemoteEofMessage()|], RemoteEofMessage());
    if |message| < 256 {
      SplitAppend([REPLY_ERROR, code, |message|], message);
    }
    if |record| >= 3 {
      assert record == [record[0], record[1], record[2]] + record[3..];
    }
  }

  datatype Reply = Answer(data: seq<byte>) | CutOff(data: seq<byte>) | FinalError(octets: seq<byte>)

  /** Nothing has been sent for this side. */
  predicate Silent(t: Talk) { !t.replyWritten && !t.writeClosed }

  function ReplyOf(t: Talk): Reply
  {
    if t.aborted then FinalError(ErrorReply()) else if t.writeClosed then Answer(t.said) else CutOff(t.said)
  }

  function RepliesOf(talks: seq<Talk>): seq<Reply>
  {
    if talks == [] then []
    else (if Silent(talks[0]) then [] else [ReplyOf(talks[0])]) + RepliesOf(talks[1..])
  }

  /** The octets before the first zero chunk, whether there is one, and what follows it. */
  function UntilEnd(tokens: seq<Token>): (r: (seq<byte>, bool, seq<Token>))
    ensures r.1 ==> |r.2| < |tokens|
  {
    if tokens == [] then ([], false, [])
    else if tokens[0].End? then ([], true, tokens[1..])
    else
      var (octets, ended, rest) := UntilEnd(tokens[1..]);
      ([tokens[0].value] + octets, ended, rest)
  }

  /** How the clients of the logical connections take the reply stream apart. */
  function ParseReplies(tokens: seq<Token>): seq<Reply>
    decreases |tokens|
  {
    if tokens == [] then []
    else
      var (octets, ended, rest) := UntilEnd(tokens);
      if ended && octets != [] && octets[0] == REPLY_TUNNEL then [Answer(octets[1..])] + ParseReplies(rest)
      else if octets != [] && octets[0] == REPLY_TUNNEL then [CutOff(octets[1..])]
      else [FinalError(octets)]
  }

  lemma {:induction false} UntilEndOf(data: seq<byte>, rest: seq<Token>)
    ensures UntilEnd(Octets(data) + ([End] + rest)) == (data, true, rest)
    ensures UntilEnd(Octets(data)) == (data, false, [])
  {
    if data == [] {
      AppendNothing([End] + rest);
      SplitAppend([End], rest);
    } else {
      UntilEndOf(data[1..], rest);
      TailAppend(Octets(data), [End] + rest);
      assert Octets(data)[0] == Octet(data[0]) && Octets(data)[1..] == Octets(data[1..]);
      assert data == [data[0]] + data[1..];
    }
  }

  /** One whole answer in front of what follows. */
  lemma AnswerFirst(t: Talk, rest: seq<Token>)
    requires Answered(t) && !t.aborted
    ensures Emitted(t) + rest != [] && ParseReplies(Emitted(t) + rest) == [Answer(t.said)] + ParseReplies(rest)
  {
    var said := [REPLY_TUNNEL] + t.said;
    Assoc(Octets(said), [End], rest);
    UntilEndOf(said, rest);
    SplitAppend([REPLY_TUNNEL], t.said);
  }

  /** Octets that no zero chunk follows. */
  lemma Unended(octets: seq<byte>)
    requires octets != []
    ensures ParseReplies(Octets(octets)) ==
            [if octets[0] == REPLY_TUNNEL then CutOff(octets[1..]) else FinalError(octets)]
  {
    UntilEndOf(octets, []);
    AppendNothing([FinalError(octets)]);
  }

  /** The last side: a whole answer, one cut short, the error, or nothing. */
  lemma LastReply(t: Talk)
    requires Speaks(t)
    ensures ParseReplies(Emitted(t)) == if Silent(t) then [] else [ReplyOf(t)]
  {
    hide ParseReplies, ErrorReply, Octets;
    NoReplies();
    var said := [REPLY_TUNNEL] + t.said;
    SplitAppend([REPLY_TUNNEL], t.said);
    AppendNothing(Octets(said));
    AppendNothing(Octets(ErrorReply()));
    if t.aborted {
      ErrorIsNoTunnel();
      Unended(ErrorReply());
    } else if t.writeClosed {
      AnswerFirst(t, []);
      AppendNothing(Emitted(t));
      AppendNothing([Answer(t.said)]);
    } else if t.replyWritten {
      Unended(said);
    } else {
      AppendNothing<Token>([]);
    }
  }

  lemma ErrorIsNoTunnel()
    ensures ErrorReply() != [] && ErrorReply()[0] != REPLY_TUNNEL
  {
  }

  /**
   The grammar is unambiguous: what each handler said is what the reply stream is read back
   as, and among tokens an answer that was cut short is told from one that is whole.
   */
  lemma {:induction false} RepliesRoundTrip(talks: seq<Talk>)
    requires InTurn(talks)
    ensures ParseReplies(EmittedAll(talks)) == RepliesOf(talks)
  {
    hide Emitted, ParseReplies, Speaks, Answered;
    if talks == [] {
      NoReplies();
    } else if |talks| == 1 {
      assert talks[1..] == [];
      AppendNothing(Emitted(talks[0]));
      AppendNothing(RepliesOf([talks[0]]));
      LastReply(talks[0]);
      AppendNothing(if Silent(talks[0]) then [] else [ReplyOf(talks[0])]);
    } else {
      var t, later := talks[0], talks[1..];
      assert Answered(t) && later[|later| - 1] == talks[|talks| - 1];
      RepliesRoundTrip(later);
      AnswerFirst(t, EmittedAll(later));
      AnsweredIs(t);
    }
  }

  lemma NoReplies()
    ensures ParseReplies([]) == []
  {
  }

  lemma AnsweredIs(t: Talk)
    requires Answered(t) && !t.aborted
    ensures !Silent(t) && ReplyOf(t) == Answer(t.said)
  {
  }

  // ------------------------------------------------------------ the program

  /** The session with its record reader and writer; the writer is kept as the tokens it has written. */
  class Session {
    const service: Service
    const reader: ShapedReader.ShapedReader
    var sent: seq<Token>
    var connClosed: bool

    function Holding(): Feed
      reads this, reader, reader.nonce
    {
      FeedOf(reader.c, reader.Holding())
    }

    constructor (service: Service, reader: ShapedReader.ShapedReader)
      ensures this.service == service && this.reader == reader && sent == [] && !connClosed
    {
      this.service, this.reader := service, reader;
      sent, connClosed := [], false;
    }

    method ReadRecord() returns (got: Got)
      modifies reader, reader.nonce
      ensures (got, Holding()) == FromStream(old(Holding()))
    {
      RecordIsItem(reader.c, reader.Holding());
      var result := reader.ReadRecord();
      got := AsGot(result);
    }

    method NextRecord() returns (got: Got)
      modifies reader, reader.nonce
      ensures (got, Holding()) == NextOf(old(Holding()))
    {
      EntryIsCall(reader.c, reader.Holding(), Call.NextRecord);
      var result := reader.NextRecord();
      got := AsGot(result);
    }

    method SetCache(record: seq<byte>)
      modifies reader
      ensures Holding() == old(Holding()).(cache := Some(record))
    {
      reader.cache := Some(record);
    }

    method Read(n: nat) returns (got: Got)
      modifies reader, reader.nonce
      ensures (got, Holding()) == ReadOf(old(Holding()), n)
    {
      EntryIsCall(reader.c, reader.Holding(), Call.Read(n));
      var result := reader.Read(n);
      got := AsGot(result);
    }

    method ReadBuffer(free: nat) returns (got: Got)
      modifies reader, reader.nonce
      ensures (got, Holding()) == ReadOf(old(Holding()), free)
    {
      EntryIsCall(reader.c, reader.Holding(), Call.ReadBuffer(free));
      var result := reader.ReadBuffer(free);
      got := AsGot(result);
    }

    method Write(p: seq<byte>)
      modifies `sent
      ensures sent == old(sent) + Octets(p)
    {
      sent := sent + Octets(p);
    }

    method WriteZeroChunk()
      modifies `sent
      ensures sent == old(sent) + [End]
    {
      sent := sent + [End];
    }

    method CloseConn()
      modifies `connClosed
      ensures connClosed
    {
      connClosed := true;
    }
  }

  lemma HearingIsSilent(t: Talk, heard: seq<byte>, readClosed: bool)
    ensures var u := t.(heard := heard, readClosed := readClosed); Emitted(u) == Emitted(t) && Speaks(u) == Speaks(t)
  {
  }

  /** One logical connection; base is what the session had sent before it. */
  class Conn {
    const session: Session
    ghost const base: seq<Token>
    const request: Request
    var heard: seq<byte>
    var said: seq<byte>
    var readClosed: bool
    var replyWritten: bool
    var writeClosed: bool
    var aborted: bool

    function Talking(): Talk
      reads this
    {
      Talk(request, heard, readClosed, said, replyWritten, writeClosed, aborted)
    }

    /** The flags are consistent, and what was sent follows the grammar. */
    ghost predicate Valid()
      reads this, session
    {
      Speaks(Talking()) && session.sent == base + Emitted(Talking()) && (aborted ==> session.connClosed)
    }

    constructor (session: Session, request: Request)
      ensures Valid() && this.session == session && Talking() == NewTalk(request) && base == session.sent
    {
      this.session, this.request, base := session, request, session.sent;
      heard, said := [], [];
      readClosed, replyWritten, writeClosed, aborted := false, false, false, false;
      new;
      AppendNothing(session.sent);
      AppendNothing<Token>([]);
    }

    /** A handler makes no call after end of stream. */
    method Read(n: nat)
      requires Valid() && !readClosed
      modifies `heard, `readClosed, session.reader, session.reader.nonce
      ensures Valid() && (session.Holding(), Talking()) == AfterRead(old(session.Holding()), old(Talking()), n)
    {
      hide ReadOf;
      var got := session.Read(n);
      Hear(got);
    }

    method ReadBuffer(free: nat)
      requires Valid() && !readClosed
      modifies `heard, `readClosed, session.reader, session.reader.nonce
      ensures Valid() && (session.Holding(), Talking()) == AfterRead(old(session.Holding()), old(Talking()), free)
    {
      hide ReadOf;
      var got := session.ReadBuffer(free);
      Hear(got);
    }

    method Hear(got: Got)
      requires Valid() && !readClosed
      modifies `heard, `readClosed
      ensures Valid() && Talking() == Hearing(old(Talking()), got)
    {
      hide Emitted, Speaks;
      ghost var before := Talking();
      HearingIsSilent(before, if got.Data? then before.heard + got.octets else before.heard, got.Eof?);
      match got
      case Data(d) => heard := heard + d;
      case Eof => readClosed := true;
      case Broken =>
    }

    /** writeResponse: the tunnel octet goes in front, and no more than fits one record beside it is written with it. */
    method WriteResponse(payload: seq<byte>)
      requires Valid() && !replyWritten && !writeClosed
      modifies `replyWritten, `said, session`sent
      ensures Valid() && Talking() == AfterWrite(old(Talking()), payload)
    {
      hide Octets;
      AppendNothing(base);
      AppendNothing<Token>([]);
      AppendNothing(payload);
      var k := Min(|payload|, Profile.MAX_PAYLOAD - 1);
      var first := payload[..k];
      FirstSaid(base, payload, k);
      session.Write([REPLY_TUNNEL] + first);
      replyWritten := true;
      if |payload| > |first| {
        session.Write(payload[k..]);
      }
      said := said + payload;
    }

    method Write(p: seq<byte>)
      requires Valid()
      modifies `replyWritten, `said, session`sent
      ensures Valid() && Talking() == AfterWrite(old(Talking()), p)
    {
      if writeClosed {
        return;
      }
      if replyWritten {
        MoreSaid(base, said, p);
        session.Write(p);
        said := said + p;
      } else {
        WriteResponse(p);
      }
    }

    /** WriteBuffer; the first one gets its tunnel octet in place, whatever its length. */
    method WriteBuffer(b: seq<byte>)
      requires Valid()
      modifies `replyWritten, `said, session`sent
      ensures Valid() && Talking() == AfterWrite(old(Talking()), b)
    {
      if writeClosed {
        return;
      }
      if replyWritten {
        MoreSaid(base, said, b);
        session.Write(b);
      } else {
        session.Write([REPLY_TUNNEL] + b);
        replyWritten := true;
        AppendNothing(b);
        AppendNothing(base);
        AppendNothing(Octets([REPLY_TUNNEL] + b));
      }
      said := said + b;
    }

    method CloseWrite()
      requires Valid()
      modifies `writeClosed, `aborted, session`sent, session`connClosed
      ensures Valid() && Talking() == AfterClose(old(Talking()))
              && session.connClosed == (old(session.connClosed) || aborted)
    {
      hide ErrorReply, Octets;
      if writeClosed {
        return;
      }
      writeClosed := true;
      if !replyWritten {
        session.Write(ErrorReply());
        aborted := true;
        session.CloseConn();
        AppendNothing(base);
        AppendNothing(Octets(ErrorReply()));
      } else {
        session.WriteZeroChunk();
        AppendNothing(Octets([REPLY_TUNNEL] + said));
        Assoc(base, Octets([REPLY_TUNNEL] + said), [End]);
      }
    }

    method Perform(a: Act)
      requires Valid()
      modifies this, session, session.reader, session.reader.nonce
      ensures Valid() && (session.Holding(), Talking()) == AfterAct(old(session.Holding()), old(Talking()), a)
      ensures session.connClosed == (old(session.connClosed) || (aborted && !old(aborted)))
    {
      hide FeedOf, Outcomes, ReadOf, Emitted, Speaks;
      match a
      case ReadSome(n) => if !readClosed { Read(n); }
      case ReadInto(n) => if !readClosed { ReadBuffer(n); }
      case Write(p) => Write(p);
      case WriteInto(b) => WriteBuffer(b);
      case Close => CloseWrite();
    }
  }

  /** A first payload said in two pieces, the second perhaps empty. */
  lemma FirstSaid(base: seq<Token>, payload: seq<byte>, k: nat)
    requires k <= |payload|
    ensures base + Octets([REPLY_TUNNEL] + payload[..k]) + Octets(payload[k..]) ==
            base + (Octets([REPLY_TUNNEL] + payload) + [])
    ensures k == |payload| ==>
              base + Octets([REPLY_TUNNEL] + payload[..k]) == base + (Octets([REPLY_TUNNEL] + payload) + [])
  {
    var first := [REPLY_TUNNEL] + payload[..k];
    TakeDrop(payload, k);
    Assoc([REPLY_TUNNEL], payload[..k], payload[k..]);
    OctetsAppend(first, payload[k..]);
    Assoc(base, Octets(first), Octets(payload[k..]));
    AppendNothing(Octets([REPLY_TUNNEL] + payload));
    AppendNothing(payload[..k]);
  }

  lemma MoreSaid(base: seq<Token>, said: seq<byte>, p: seq<byte>)
    ensures base + (Octets([REPLY_TUNNEL] + said) + []) + Octets(p) == base + (Octets([REPLY_TUNNEL] + (said + p)) + [])
  {
    Assoc([REPLY_TUNNEL], said, p);
    OctetsAppend([REPLY_TUNNEL] + said, p);
    AppendNothing(Octets([REPLY_TUNNEL] + said));
    AppendNothing(Octets([REPLY_TUNNEL] + (said + p)));
    Assoc(base, Octets([REPLY_TUNNEL] + said), Octets(p));
  }

  lemma {:induction false} EmittedAllNext(talks: seq<Talk>, t: Talk)
    ensures EmittedAll(talks + [t]) == EmittedAll(talks) + Emitted(t)
  {
    if talks == [] {
      AppendNothing(Emitted(t));
      AppendNothing([t]);
    } else {
      EmittedAllNext(talks[1..], t);
      TailAppend(talks, [t]);
      Assoc(Emitted(talks[0]), EmittedAll(talks[1..]), Emitted(t));
    }
  }

  /** The tokens of an outcome that is not a logical connection's. */
  function Parting(o: Outcome): seq<Token> { if o.Ponged? then [Octet(REPLY_PONG)] else [] }

  method DrainRest(s: Session) returns (end: Drained)
    modifies s.reader, s.reader.nonce
    ensures (end, s.Holding()) == Drain(old(s.Holding()), 0)
  {
    hide FeedOf, Outcomes;
    var discarded: nat := 0;
    while true
      invariant Drain(old(s.Holding()), 0) == Drain(s.Holding(), discarded)
      decreases |s.Holding().items|, if s.Holding().cache.Some? then 1 else 0
    {
      hide NextOf;
      ghost var before := s.Holding();
      var got := s.NextRecord();
      assert (got, s.Holding()) == NextOf(before);
      match got
      case Eof => return Resynced;
      case Broken => return Lost;
      case Data(d) =>
        discarded := discarded + |d|;
        if discarded >= WAITING_DISCARD_LIMIT {
          return OverLimit;
        }
    }
  }

  /** A handler's acts, one after the other. */
  method Handle(s: Session, c: Conn, acts: seq<Act>)
    requires c.session == s && c.Valid()
    modifies c, s, s.reader, s.reader.nonce
    ensures c.Valid() && (s.Holding(), c.Talking()) == AfterActs(old(s.Holding()), old(c.Talking()), acts)
    ensures s.connClosed == (old(s.connClosed) || (c.aborted && !old(c.aborted)))
  {
    hide AfterAct, Emitted, Speaks;
    var k := 0;
    while k < |acts|
      invariant 0 <= k <= |acts|
      invariant c.Valid() && AfterActs(old(s.Holding()), old(c.Talking()), acts) ==
                AfterActs(s.Holding(), c.Talking(), acts[k..])
      invariant old(c.aborted) ==> c.aborted
      invariant s.connClosed == (old(s.connClosed) || (c.aborted && !old(c.aborted)))
    {
      if c.aborted { StaysAborted(s.Holding(), c.Talking(), acts[k]); }
      c.Perform(acts[k]);
      assert acts[k..][1..] == acts[k + 1..];
      k := k + 1;
    }
  }

  lemma StaysAborted(f: Feed, t: Talk, a: Act)
    requires Speaks(t) && t.aborted
    ensures AfterAct(f, t, a).1.aborted
  {
    hide ReadOf;
  }

  /** One logical connection from its request to the next one, or to the session's end. */
  method ServeOne(s: Session, request: Request, early: seq<byte>, acts: seq<Act>) returns (t: Talk, turn: Turn)
    requires !s.connClosed
    modifies s, s.reader, s.reader.nonce
    ensures var (g, u) := AfterActs(WithEarly(old(s.Holding()), early), NewTalk(request), acts);
            t == AfterClose(u) && turn == AfterTalk(g, t)
    ensures s.Holding() == turn.feed
    ensures s.sent == old(s.sent) + Emitted(t)
    ensures s.connClosed <==> turn.Stop? && ClosesConn(turn.outcome)
    ensures turn.Stop? ==> !turn.outcome.Ponged?
  {
    hide AfterActs, Drain, ParseRequestV6, Emitted, ErrorReply, FeedOf, Outcomes;
    var c := new Conn(s, request);
    if early != [] {
      s.SetCache(early);
    }
    Handle(s, c, acts);
    c.CloseWrite();
    t := c.Talking();
    if c.aborted {
      return t, Stop(Aborted, s.Holding());
    }
    if !c.readClosed {
      var end := DrainRest(s);
      if end.OverLimit? || end.Lost? {
        s.CloseConn();
        return t, Stop(if end.Lost? then DrainFailed else TooMuch, s.Holding());
      }
    }
    var got := s.ReadRecord();
    match got
    case Eof => turn := Stop(PeerEnded, s.Holding());
    case Broken =>
      s.CloseConn();
      turn := Stop(RequestFailed, s.Holding());
    case Data(record) =>
      match ParseRequestV6(record)
      case Malformed(e) =>
        s.CloseConn();
        turn := Stop(BadRequest(e), s.Holding());
      case Parsed(r, e) => turn := Turn.Next(r, e, s.Holding());
  }

  /** A logical connection in which the context ends: what its handler has done by then stands, and no more is sent. */
  method ServeCut(s: Session, request: Request, early: seq<byte>, acts: seq<Act>) returns (t: Talk)
    requires !s.connClosed
    modifies s, s.reader, s.reader.nonce
    ensures (s.Holding(), t) == AfterActs(WithEarly(old(s.Holding()), early), NewTalk(request), acts)
    ensures s.sent == old(s.sent) + Emitted(t) && s.connClosed
  {
    hide AfterActs, Emitted, FeedOf, Outcomes;
    var c := new Conn(s, request);
    if early != [] {
      s.SetCache(early);
    }
    Handle(s, c, acts);
    s.CloseConn();
    t := c.Talking();
  }

  /** A request that starts no logical connection: a ping is answered, and all but a packet tunnel close. */
  method Decline(s: Session, request: Request, early: seq<byte>) returns (outcome: Option<Outcome>)
    requires !s.connClosed
    modifies s`sent, s`connClosed
    ensures outcome == Refusal(s.service, request, early)
    ensures s.sent == old(s.sent) + if outcome.Some? then Parting(outcome.value) else []
    ensures s.connClosed <==> outcome.Some? && ClosesConn(outcome.value)
    ensures s.Holding() == old(s.Holding())
  {
    hide FeedOf, Outcomes;
    AppendNothing(s.sent);
    if request.command != COMMAND_PING && !s.service.accepts(request.clientId) {
      s.CloseConn();
      return Some(Unauthorised);
    }
    if request.command == COMMAND_CONNECT || request.command == COMMAND_CONNECT_V2 {
      return None;
    } else if request.command == COMMAND_UDP {
      if s.service.strictUdp && early != [] {
        s.CloseConn();
        return Some(InvalidUdp);
      }
      return Some(UdpTunnel);
    } else if request.command == COMMAND_PING {
      s.Write([REPLY_PONG]);
      s.CloseConn();
      return Some(Ponged);
    }
    s.CloseConn();
    return Some(Unsupported);
  }

  /** Parting with anything but a ping is silent. */
  lemma PartsSilently(sent: seq<Token>, o: Outcome)
    requires !o.Ponged?
    ensures sent + Parting(o) == sent
  {
    AppendNothing(sent);
  }

  /** What has been served, and what serving on adds to it. */
  function After(talks: seq<Talk>, later: Served): Served { later.(talks := talks + later.talks) }

  lemma AfterAfter(a: seq<Talk>, t: Talk, later: Served)
    ensures After(a, After([t], later)) == After(a + [t], later)
  {
    Assoc(a, [t], later.talks);
  }

  lemma ServeNoMore(service: Service, f: Feed, request: Request, early: seq<byte>, handlers: seq<seq<Act>>,
      cut: seq<Act>)
    ensures var out := ServeAll(service, f, request, early, handlers, cut);
            var refusal := Refusal(service, request, early);
            var (g, t) := AfterActs(WithEarly(f, early), NewTalk(request), cut);
            if refusal.Some? then out == Served([], refusal.value, f)
            else handlers == [] ==> out == Served([t], Cancelled, g)
  {
  }

  lemma ServeNext(service: Service, f: Feed, request: Request, early: seq<byte>, handlers: seq<seq<Act>>,
      cut: seq<Act>)
    requires Refusal(service, request, early).None? && handlers != []
    ensures var out := ServeAll(service, f, request, early, handlers, cut);
            var (g, t) := AfterActs(WithEarly(f, early), NewTalk(request), handlers[0]);
            var turn := AfterTalk(g, AfterClose(t));
            out == if turn.Stop? then Served([AfterClose(t)], turn.outcome, turn.feed)
                   else
                     After([AfterClose(t)],
                       ServeAll(service, turn.feed, turn.request, turn.early, handlers[1..], cut))
  {
    hide AfterActs, AfterTalk, AfterClose, Refusal;
  }

  /** The connections served, and what the session ends with: exactly ServeAll,
      and the reply stream its grammar gives. */
  method Serve(s: Session, first: Request, firstEarly: seq<byte>, handlers: seq<seq<Act>>, cut: seq<Act>)
    returns (talks: seq<Talk>, outcome: Outcome)
    requires !s.connClosed
    modifies s, s.reader, s.reader.nonce
    ensures Served(talks, outcome, s.Holding()) ==
            ServeAll(s.service, old(s.Holding()), first, firstEarly, handlers, cut)
    ensures s.sent == old(s.sent) + (EmittedAll(talks) + Parting(outcome))
    ensures s.connClosed <==> ClosesConn(outcome)
  {
    hide Emitted, EmittedAll, AfterActs, AfterTalk, AfterClose, FeedOf, Outcomes, Refusal, Parting, ServeAll, WithEarly;
    talks := [];
    var request, early, k := first, firstEarly, 0;
    NothingEmitted(s.sent);
    while true
      invariant 0 <= k <= |handlers| && !s.connClosed
      invariant ServeAll(s.service, old(s.Holding()), first, firstEarly, handlers, cut) ==
                After(talks, ServeAll(s.service, s.Holding(), request, early, handlers[k..], cut))
      invariant s.sent == old(s.sent) + EmittedAll(talks)
      decreases |handlers| - k
    {
      AppendNothing(talks);
      AppendNothing(s.sent);
      ServeNoMore(s.service, s.Holding(), request, early, handlers[k..], cut);
      var refusal := Decline(s, request, early);
      if refusal.Some? {
        outcome := refusal.value;
        Assoc(old(s.sent), EmittedAll(talks), Parting(outcome));
        return;
      }
      if k == |handlers| {
        var t := ServeCut(s, request, early, cut);
        EmittedAllNext(talks, t);
        Assoc(old(s.sent), EmittedAll(talks), Emitted(t));
        talks, outcome := talks + [t], Cancelled;
        PartsSilently(EmittedAll(talks), Cancelled);
        return;
      }
      ServeNext(s.service, s.Holding(), request, early, handlers[k..], cut);
      var t, turn := ServeOne(s, request, early, handlers[k]);
      EmittedAllNext(talks, t);
      Assoc(old(s.sent), EmittedAll(talks), Emitted(t));
      assert handlers[k..][1..] == handlers[k + 1..];
      ghost var said := talks;
      talks := talks + [t];
      match turn {
        case Stop(o, _) =>
          outcome := o;
          PartsSilently(EmittedAll(talks), o);
          return;
        case Next(r, e, h) =>
          request, early, k := r, e, k + 1;
          AfterAfter(said, t, ServeAll(s.service, s.Holding(), request, early, handlers[k..], cut));
      }
    }
  }

  lemma NothingEmitted(sent: seq<Token>)
    ensures sent + EmittedAll([]) == sent
  {
    AppendNothing(sent);
  }
}
