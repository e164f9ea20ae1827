/**
 The way back: what the client of each logical connection makes of the records in which a
 server's replies arrive (readResponse, Read and drain in snellv6/reuse.go, ParseReply in
 internal/reuse/reuse.go), however those records cut the reply stream.
 */
module ReplyRecords {
  import opened Bytes
  import opened Request
  import opened Profile
  import opened ShapedCodec
  import opened ShapedStream
  import opened RecordFeed
  import opened ServerSession
  import opened RequestRecords

  // ------------------------------------------------------------ the client

  /** A client's logical connection, and the sizes of the reads it makes before it closes. */
  datatype Listening = Listening(request: Request, sizes: seq<nat>)

  /** What it is told: an answer, read to its end or not; the server's error; or nothing that is a reply. */
  datatype Told = Told(heard: seq<byte>, ended: bool) | ToldError(code: byte, message: seq<byte>) | NoReply

  function ReadsOf(sizes: seq<nat>): (acts: seq<Act>)
    ensures |acts| == |sizes| && forall i :: 0 <= i < |sizes| ==> acts[i] == ReadSome(sizes[i])
  {
    if sizes == [] then [] else [ReadSome(sizes[0])] + ReadsOf(sizes[1..])
  }

  /** One logical connection: the reply's record, the reads, and after closing what is left is drained. */
  function HearOne(f: Feed, a: Listening): (Told, Option<Feed>)
  {
    var (got, g) := FromStream(f);
    if !got.Data? then (NoReply, None)
    else
      match ParseReply(got.octets)
      case Rejected => (NoReply, None)
      case ServerError(code, message) => (ToldError(code, message), None)
      case Tunnel(rest) =>
        var (h, t) := AfterActs(WithEarly(g.(cache := None), rest), NewTalk(a.request), ReadsOf(a.sizes));
        if t.readClosed then (Told(t.heard, true), Some(h))
        else
          match Drain(h, 0)
          case (Resynced, next) => (Told(t.heard, false), Some(next))
          case (OverLimit, _) => (Told(t.heard, false), None)
          case (Lost, _) => (Told(t.heard, false), None)
  }

  /** One after the other on the same connection, as long as it can be used again. */
  function HearAll(f: Feed, clients: seq<Listening>): seq<Told>
    decreases |clients|
  {
    if clients == [] then []
    else
      var (told, next) := HearOne(f, clients[0]);
      if next.None? then [told] else [told] + HearAll(next.value, clients[1..])
  }

  // ------------------------------------------------------------ records and what they say

  lemma {:induction false} OctetsAt(data: seq<byte>, i: nat)
    requires i < |data|
    ensures Octets(data)[i] == Octet(data[i])
  {
    if i > 0 {
      OctetsAt(data[1..], i - 1);
    }
  }

  lemma NoOctetIsEnd(octets: seq<byte>, rest: seq<Token>)
    ensures octets != [] ==> (Octets(octets) + rest)[0].Octet?
  {
  }

  /** Octets on both sides, an end or nothing behind those on the right: the left ones are a front of the right. */
  lemma {:induction false} OctetsInFront(a: seq<byte>, t: seq<Token>, b: seq<byte>, u: seq<Token>)
    requires Octets(a) + t == Octets(b) + u && (u == [] || u[0].End?)
    ensures |a| <= |b| && a == b[..|a|] && t == Octets(b[|a|..]) + u
    decreases |a|
  {
    if a == [] {
      AppendNothing(t);
    } else {
      NoOctetIsEnd(a, t);
      if b == [] {
        AppendNothing(u);
      } else {
        SplitAppend([Octet(a[0])], Octets(a[1..]));
        SplitAppend([Octet(b[0])], Octets(b[1..]));
        TailAppend(Octets(a), t);
        TailAppend(Octets(b), u);
        OctetsInFront(a[1..], t, b[1..], u);
        FrontAgain(a, b);
      }
    }
  }

  lemma FrontAgain(a: seq<byte>, b: seq<byte>)
    requires a != [] && b != [] && a[0] == b[0] && |a| <= |b| && a[1..] == b[1..][..|a| - 1]
    ensures a == b[..|a|] && b[1..][|a| - 1..] == b[|a|..]
  {
    assert b[..|a|] == [b[0]] + b[1..][..|a| - 1];
    assert a == [a[0]] + a[1..];
  }

  /** Records that say octets alone carry them. */
  lemma {:induction false} OctetsCarried(payloads: seq<seq<byte>>, octets: seq<byte>)
    requires Tokens(payloads) == Octets(octets)
    ensures Carries(payloads, octets)
    decreases |payloads|
  {
    if payloads != [] {
      var first, more := payloads[0], payloads[1..];
      if octets != [] {
        OctetsAt(octets, 0);
      }
      if first != [] {
        AppendNothing(Octets(octets));
        OctetsInFront(first, Tokens(more), octets, []);
        AppendNothing(Octets(octets[|first|..]));
        OctetsCarried(more, octets[|first|..]);
      }
    }
  }

  /** Records that say octets and then an end are records that carry the octets, a zero chunk, and the others. */
  lemma {:induction false} EndAmongRecords(payloads: seq<seq<byte>>, octets: seq<byte>, rest: seq<Token>)
    returns (data: seq<seq<byte>>, later: seq<seq<byte>>)
    requires Tokens(payloads) == Octets(octets) + ([End] + rest)
    ensures payloads == data + ([[]] + later) && Carries(data, octets) && Tokens(later) == rest
    decreases |payloads|
  {
    assert |Tokens(payloads)| > 0;
    var first, more := payloads[0], payloads[1..];
    assert payloads == [first] + more;
    if first == [] {
      OctetsInFront([], Tokens(payloads), octets, [End] + rest);
      NoOctetIsEnd(octets, [End] + rest);
      AppendNothing([End] + rest);
      SplitAppend([End], rest);
      SplitAppend([End], Tokens(more));
      data, later := [], more;
      AppendNothing([[]] + later);
    } else {
      SplitAppend([End], rest);
      OctetsInFront(first, Tokens(more), octets, [End] + rest);
      var left := octets[|first|..];
      data, later := EndAmongRecords(more, left, rest);
      TakeDrop(octets, |first|);
      OneCarries(first);
      CarriesAppend([first], first, data, left);
      Assoc([first], data, [[]] + later);
      data := [first] + data;
    }
  }

  lemma OneCarries(data: seq<byte>)
    requires data != []
    ensures Carries([data], data)
  {
    assert [data][1..] == [];
    AppendNothing(Octets(data));
  }

  // ------------------------------------------------------------ the end of the connection

  lemma FromStreamPadded(f: Feed)
    ensures var (got, g) := FromStream(f);
            var (got', g') := FromStream(f.(items := f.items + [Got.Eof]));
            got' == got && g'.cache == g.cache
            && (g'.items == g.items + [Got.Eof] || (got.Eof? && g.items == [] && g'.items == []))
  {
    if f.items != [] {
      TailAppend(f.items, [Got.Eof]);
    } else {
      AppendNothing([Got.Eof]);
    }
  }

  /** Two feeds that only differ by a zero chunk at the very end. */
  predicate Padded(f: Feed, g: Feed) { g.cache == f.cache && (g == f || g.items == f.items + [Got.Eof]) }

  /** No read tells them apart. */
  lemma ReadPadded(f: Feed, g: Feed, n: nat)
    requires Padded(f, g)
    ensures ReadOf(f, n).0 == ReadOf(g, n).0
    ensures Padded(ReadOf(f, n).1, ReadOf(g, n).1)
  {
    FromStreamPadded(f.(cache := None));
  }

  lemma NextPadded(f: Feed, g: Feed)
    requires Padded(f, g)
    ensures NextOf(f).0 == NextOf(g).0
    ensures Padded(NextOf(f).1, NextOf(g).1)
  {
    FromStreamPadded(f.(cache := None));
  }

  lemma {:induction false} ReadsPadded(f: Feed, g: Feed, t: Talk, sizes: seq<nat>)
    requires Padded(f, g)
    ensures var (f', t') := AfterActs(f, t, ReadsOf(sizes));
            var (g', u') := AfterActs(g, t, ReadsOf(sizes));
            u' == t' && Padded(f', g')
    decreases |sizes|
  {
    if sizes != [] {
      hide ReadOf, Padded;
      SplitAppend([ReadSome(sizes[0])], ReadsOf(sizes[1..]));
      ReadPadded(f, g, sizes[0]);
      var (f1, t1) := AfterRead(f, t, sizes[0]);
      var (g1, u1) := AfterRead(g, t, sizes[0]);
      ReadsPadded(f1, g1, t1, sizes[1..]);
    }
  }

  lemma {:induction false} DrainPadded(f: Feed, g: Feed, discarded: nat)
    requires Padded(f, g)
    ensures Drain(f, discarded).0 == Drain(g, discarded).0
    ensures Padded(Drain(f, discarded).1, Drain(g, discarded).1)
    decreases |f.items|, if f.cache.Some? then 1 else 0
  {
    hide Padded;
    NextPadded(f, g);
    var (got, f') := NextOf(f);
    var (_, g') := NextOf(g);
    if got.Data? && discarded + |got.octets| < WAITING_DISCARD_LIMIT {
      DrainPadded(f', g', discarded + |got.octets|);
    }
  }

  lemma HearOnePadded(f: Feed, g: Feed, a: Listening)
    requires Padded(f, g)
    ensures HearOne(f, a).0 == HearOne(g, a).0
    ensures HearOne(f, a).1.Some? <==> HearOne(g, a).1.Some?
    ensures HearOne(f, a).1.Some? ==> Padded(HearOne(f, a).1.value, HearOne(g, a).1.value)
  {
    hide ParseReply, Drain, AfterActs;
    FromStreamPadded(f);
    var (got, f1) := FromStream(f);
    var (_, g1) := FromStream(g);
    if got.Data? && ParseReply(got.octets).Tunnel? {
      var rest := ParseReply(got.octets).rest;
      var f2, g2 := WithEarly(f1.(cache := None), rest), WithEarly(g1.(cache := None), rest);
      ReadsPadded(f2, g2, NewTalk(a.request), a.sizes);
      DrainPadded(AfterActs(f2, NewTalk(a.request), ReadsOf(a.sizes)).0,
        AfterActs(g2, NewTalk(a.request), ReadsOf(a.sizes)).0, 0);
    }
  }

  /** The end of a connection is heard like one more zero chunk: nobody is told that the last answer was cut short. */
  lemma {:induction false} EndSoundsLikeZeroChunk(f: Feed, g: Feed, clients: seq<Listening>)
    requires Padded(f, g)
    ensures HearAll(f, clients) == HearAll(g, clients)
    decreases |clients|
  {
    hide HearOne, Padded;
    if clients != [] {
      HearOnePadded(f, g, clients[0]);
      var next, next' := HearOne(f, clients[0]).1, HearOne(g, clients[0]).1;
      if next.Some? {
        EndSoundsLikeZeroChunk(next.value, next'.value, clients[1..]);
      }
    }
  }

  // ------------------------------------------------------------ what clients are told

  /** An answer is heard through, or little enough of it is left when the client closes. */
  predicate Keeps(said: seq<byte>, told: Told) {
    told.Told? && (told.ended || |said| - |told.heard| < WAITING_DISCARD_LIMIT)
  }

  /** Records that carry an answer begin with one that is read as a reply, with the front of the answer behind it. */
  lemma AnswerRecords(data: seq<seq<byte>>, said: seq<byte>)
    requires Carries(data, [REPLY_TUNNEL] + said)
    ensures data != [] && data[0] != [] && ParseReply(data[0]) == Tunnel(data[0][1..])
    ensures data[0][1..] + Concat(data[1..]) == said && NoneEmpty(data[1..])
  {
    TokensOfData(data);
    OctetsInjective(Concat(data), [REPLY_TUNNEL] + said);
    SplitAppend([REPLY_TUNNEL], said);
    assert data != [];
    FrontOf(data[0], Concat(data[1..]), [REPLY_TUNNEL], said);
  }

  lemma ItemsBehind(data: seq<seq<byte>>, later: seq<seq<byte>>)
    requires data != [] && data[0] != []
    ensures FromStream(Feed(None, Items(data + ([[]] + later)))) ==
            (Data(data[0]), Feed(None, Items(data[1..]) + ([Got.Eof] + Items(later))))
  {
    AppendTail(data, [[]] + later);
    SplitAppend([data[0]], data[1..] + ([[]] + later));
    var behind := Items(data[1..] + ([[]] + later));
    SplitAppend([Data(data[0])], behind);
    ItemsAppend(data[1..], [[]] + later);
    SplitAppend([[]], later);
  }

  /** One answer heard: a prefix of what was said, all of it to an end; the next reply follows if it can be reached. */
  lemma AnswerHeard(data: seq<seq<byte>>, later: seq<seq<byte>>, said: seq<byte>, a: Listening)
    requires Carries(data, [REPLY_TUNNEL] + said)
    ensures var (told, next) := HearOne(Feed(None, Items(data + ([[]] + later))), a);
            && told.Told? && told.heard <= said && (told.ended ==> told.heard == said)
            && next == if Keeps(said, told) then Some(Feed(None, Items(later))) else None
  {
    hide Carries, ParseReply, AfterActs, Drain, Inside, Items;
    AnswerRecords(data, said);
    ItemsBehind(data, later);
    var rest0, rest := data[0][1..], Items(later);
    var g := Feed(None, Items(data[1..]) + ([Got.Eof] + rest));
    var h0 := WithEarly(g, rest0);
    BeginsInside(h0, g, a.request, rest0, data[1..], rest, said);
    var data' := ActsKeep(h0, NewTalk(a.request), ReadsOf(a.sizes), said, data[1..], rest);
    var (h, t) := AfterActs(h0, NewTalk(a.request), ReadsOf(a.sizes));
    if !t.readClosed {
      DrainInside(h, 0, data', rest);
    }
  }

  lemma BeginsInside(
    h0: Feed, g: Feed, request: Request, rest0: seq<byte>, data: seq<seq<byte>>, rest: seq<Got>, said: seq<byte>)
    requires g == Feed(None, Items(data) + ([Got.Eof] + rest)) && h0 == WithEarly(g, rest0)
    requires NoneEmpty(data) && rest0 + Concat(data) == said
    ensures Amid(h0, NewTalk(request), said, data, rest)
  {
    AppendNothing(said);
    AppendNothing(Concat(data));
  }

  /** What the k-th client is told. */
  predicate Tells(told: Told, talks: seq<Talk>, k: nat) {
    if k >= |talks| || Silent(talks[k]) then told == NoReply
    else if talks[k].aborted then told == ToldError(REMOTE_EOF_CODE, RemoteEofMessage())
    else told.Told? && told.heard <= talks[k].said && (told.ended ==> told.heard == talks[k].said)
  }

  predicate GoesOnWith(told: Told, talks: seq<Talk>, k: nat) { k < |talks| && Keeps(talks[k].said, told) }

  /** Each client is told what its own handler said, until one cannot leave the connection to the next. */
  ghost predicate TellsAll(out: seq<Told>, talks: seq<Talk>, clients: nat) {
    && |out| <= clients
    && (forall k :: 0 <= k < |out| ==> Tells(out[k], talks, k))
    && (forall k :: 0 <= k < |out| - 1 ==> GoesOnWith(out[k], talks, k))
    && (|out| < clients ==> out != [] && !GoesOnWith(out[|out| - 1], talks, |out| - 1))
  }

  /** The error, if there is one, is a record of its own. */
  predicate ErrorWhole(payloads: seq<seq<byte>>, talks: seq<Talk>) {
    talks != [] && talks[|talks| - 1].aborted ==> payloads != [] && payloads[|payloads| - 1] == ErrorReply()
  }

  lemma NobodyTold(talks: seq<Talk>, clients: seq<Listening>)
    requires talks == [] || Silent(talks[0])
    ensures TellsAll(HearAll(Feed(None, []), clients), talks, |clients|)
  {
  }

  /** A record that is the error is read as the error, and the connection is given up. */
  lemma ErrorHeard(a: Listening)
    ensures HearOne(Feed(None, Items([ErrorReply()])), a) == (ToldError(REMOTE_EOF_CODE, RemoteEofMessage()), None)
  {
    hide ErrorReply, ParseReply, AfterActs, Drain;
    ErrorIsNoTunnel();
    ErrorReplyIff(ErrorReply(), REMOTE_EOF_CODE, RemoteEofMessage());
    var items := Items([ErrorReply()]);
    assert items == [Data(ErrorReply())];
  }

  lemma {:induction false} ErrorTold(talks: seq<Talk>, payloads: seq<seq<byte>>, clients: seq<Listening>)
    requires |talks| == 1 && talks[0].aborted && Speaks(talks[0]) && clients != []
    requires Tokens(payloads) == EmittedAll(talks) && ErrorWhole(payloads, talks)
    ensures TellsAll(HearAll(Feed(None, Items(payloads)), clients), talks, |clients|)
  {
    hide ErrorReply, Emitted, HearOne, Items, TellsAll, Tokens;
    assert talks == [talks[0]];
    OneEmitted(talks[0]);
    OctetsCarried(payloads, ErrorReply());
    SomeOctets(payloads);
    OnlyRecord(payloads, ErrorReply());
    ErrorHeard(clients[0]);
    LastTold(ToldError(REMOTE_EOF_CODE, RemoteEofMessage()), talks, |clients|);
  }

  lemma SomeOctets(payloads: seq<seq<byte>>)
    requires Tokens(payloads) == Octets(ErrorReply())
    ensures payloads != []
  {
  }

  lemma OneEmitted(t: Talk)
    requires Speaks(t)
    ensures EmittedAll([t]) == Emitted(t)
    ensures t.aborted ==> Emitted(t) == Octets(ErrorReply())
    ensures !t.aborted && !Silent(t) ==>
            Emitted(t) == Octets([REPLY_TUNNEL] + t.said) + if t.writeClosed then [End] else []
    ensures Silent(t) ==> Emitted(t) == []
  {
    AppendNothing(Emitted(t));
    AppendNothing(Octets(ErrorReply()));
  }

  lemma OnlyRecord(payloads: seq<seq<byte>>, octets: seq<byte>)
    requires Carries(payloads, octets) && payloads != [] && payloads[|payloads| - 1] == octets
    ensures payloads == [octets]
  {
    TokensOfData(payloads);
    OctetsInjective(Concat(payloads), octets);
    var n := |payloads| - 1;
    assert payloads == payloads[..n] + [octets];
    ConcatLast(payloads[..n], octets);
  }

  lemma {:induction false} ConcatLast(a: seq<seq<byte>>, last: seq<byte>)
    ensures |Concat(a + [last])| == |Concat(a)| + |last|
    ensures NoneEmpty(a + [last]) && a != [] ==> |Concat(a)| > 0
  {
    if a != [] {
      ConcatLast(a[1..], last);
      TailAppend(a, [last]);
      assert (a + [last])[0] == a[0];
    } else {
      AppendNothing([last]);
    }
  }

  lemma OneMoreTold(told: Told, later: seq<Told>, talks: seq<Talk>, clients: nat)
    requires talks != [] && clients > 0 && Tells(told, talks, 0)
    requires TellsAll(later, talks[1..], clients - 1) && GoesOnWith(told, talks, 0)
    ensures TellsAll([told] + later, talks, clients)
  {
    var out := [told] + later;
    forall k | 0 <= k < |out| ensures Tells(out[k], talks, k) {
      if k > 0 { assert out[k] == later[k - 1] && Tells(later[k - 1], talks[1..], k - 1); }
    }
    forall k | 0 <= k < |out| - 1 ensures GoesOnWith(out[k], talks, k) {
      if k > 0 { assert out[k] == later[k - 1] && GoesOnWith(later[k - 1], talks[1..], k - 1); }
    }
    if later != [] {
      assert out[|out| - 1] == later[|later| - 1];
    }
  }

  /**
   However a reply stream is cut into records, each client is told what its own handler said:
   a prefix of it, all of it if it reads to the end, the error if there was no answer. It goes
   on to the next exactly as long as little enough is left unread.
   */
  lemma {:induction false} RepliesHeard(talks: seq<Talk>, payloads: seq<seq<byte>>, clients: seq<Listening>)
    requires InTurn(talks) && Tokens(payloads) == EmittedAll(talks) && ErrorWhole(payloads, talks)
    ensures TellsAll(HearAll(Feed(None, Items(payloads)), clients), talks, |clients|)
    decreases |clients|
  {
    hide Emitted, HearAll, Items, TellsAll, ParseReply, ErrorReply, Carries;
    if clients == [] {
      NoClients(Feed(None, Items(payloads)), talks);
    } else if talks == [] || Silent(talks[0]) {
      SilentIsLast(talks);
      NoRecords(payloads);
      NobodyTold(talks, clients);
    } else if talks[0].aborted {
      SilentIsLast(talks);
      ErrorTold(talks, payloads, clients);
    } else if talks[0].writeClosed {
      AnswerEmitted(talks);
      var data, later := EndAmongRecords(payloads, [REPLY_TUNNEL] + talks[0].said, EmittedAll(talks[1..]));
      LaterInTurn(talks, data, later);
      AnswerThen(talks, data, later, clients);
    } else {
      SilentIsLast(talks);
      OneEmitted(talks[0]);
      AppendNothing(Octets([REPLY_TUNNEL] + talks[0].said));
      OctetsCarried(payloads, [REPLY_TUNNEL] + talks[0].said);
      PaddedItems(payloads);
      EndSoundsLikeZeroChunk(Feed(None, Items(payloads)), Feed(None, Items(payloads + [[]])), clients);
      AppendNothing<seq<byte>>([[]]);
      AnswerThen(talks, payloads, [], clients);
    }
  }

  /** The step: an answer, then what follows it. */
  lemma {:induction false} AnswerThen(
    talks: seq<Talk>, data: seq<seq<byte>>, later: seq<seq<byte>>, clients: seq<Listening>)
    requires talks != [] && clients != [] && !Silent(talks[0]) && !talks[0].aborted
    requires Carries(data, [REPLY_TUNNEL] + talks[0].said)
    requires InTurn(talks[1..]) && Tokens(later) == EmittedAll(talks[1..]) && ErrorWhole(later, talks[1..])
    ensures TellsAll(HearAll(Feed(None, Items(data + ([[]] + later))), clients), talks, |clients|)
    decreases |clients|, 0
  {
    hide Emitted, Items, HearOne, Carries, TellsAll, InTurn;
    AnswerHeard(data, later, talks[0].said, clients[0]);
    var (told, next) := HearOne(Feed(None, Items(data + ([[]] + later))), clients[0]);
    if next.Some? {
      RepliesHeard(talks[1..], later, clients[1..]);
      OneMoreTold(told, HearAll(next.value, clients[1..]), talks, |clients|);
    } else {
      LastTold(told, talks, |clients|);
    }
  }

  lemma LastTold(told: Told, talks: seq<Talk>, clients: nat)
    requires clients > 0 && Tells(told, talks, 0) && !GoesOnWith(told, talks, 0)
    ensures TellsAll([told], talks, clients)
  {
  }

  lemma NoClients(f: Feed, talks: seq<Talk>)
    ensures TellsAll(HearAll(f, []), talks, 0)
  {
  }

  lemma SilentIsLast(talks: seq<Talk>)
    requires InTurn(talks)
    ensures talks != [] && (!talks[0].writeClosed || talks[0].aborted) ==>
            |talks| == 1 && talks == [talks[0]] && Speaks(talks[0]) && talks[1..] == []
    ensures talks != [] && Silent(talks[0]) ==> EmittedAll(talks) == []
    ensures EmittedAll([]) == []
  {
    if talks != [] && Silent(talks[0]) {
      assert |talks| == 1;
      OneEmitted(talks[0]);
      assert talks == [talks[0]];
    }
  }

  lemma NoRecords(payloads: seq<seq<byte>>)
    ensures Tokens(payloads) == [] ==> payloads == [] && Items(payloads) == []
  {
  }

  lemma PaddedItems(payloads: seq<seq<byte>>)
    ensures Padded(Feed(None, Items(payloads)), Feed(None, Items(payloads + [[]])))
  {
    ItemsAppend(payloads, [[]]);
    assert Items([[]]) == [Got.Eof];
  }

  lemma AnswerEmitted(talks: seq<Talk>)
    requires InTurn(talks) && talks != [] && talks[0].writeClosed && !talks[0].aborted
    ensures EmittedAll(talks) == Octets([REPLY_TUNNEL] + talks[0].said) + ([End] + EmittedAll(talks[1..]))
  {
    hide Emitted;
    assert Speaks(talks[0]) by { assert |talks| > 1 ==> Answered(talks[0]); }
    OneEmitted(talks[0]);
    Assoc(Octets([REPLY_TUNNEL] + talks[0].said), [End], EmittedAll(talks[1..]));
  }

  lemma LaterInTurn(talks: seq<Talk>, data: seq<seq<byte>>, later: seq<seq<byte>>)
    requires InTurn(talks) && talks != [] && !talks[0].aborted
    requires Tokens(later) == EmittedAll(talks[1..]) && ErrorWhole(data + ([[]] + later), talks)
    ensures InTurn(talks[1..]) && ErrorWhole(later, talks[1..])
  {
    hide ErrorReply;
    var more := talks[1..];
    forall k | 0 <= k < |more| - 1 ensures Answered(more[k]) && !more[k].aborted {
      assert more[k] == talks[k + 1];
    }
    if more != [] && more[|more| - 1].aborted {
      assert more[|more| - 1] == talks[|talks| - 1];
      SomethingEmitted(more);
      assert later != [];
    }
  }

  lemma SomethingEmitted(talks: seq<Talk>)
    requires InTurn(talks) && talks != [] && !Silent(talks[0])
    ensures EmittedAll(talks) != []
  {
    assert Speaks(talks[0]) by { assert |talks| > 1 ==> Answered(talks[0]); }
    OneEmitted(talks[0]);
  }

  // ------------------------------------------------------------ over the octets of a v6 connection

  lemma ShortWrite(p: Shape, w: Pacing, now: int, data: seq<byte>)
    requires SanePacing(w) && 0 < |data| <= 256
    ensures Split(p, w, now, data).payloads == [data]
  {
    hide PayloadLimit, Step, AfterLimit;
    LimitAtLeast(p, w, now);
    assert data[..|data|] == data && data[|data|..] == [];
    AppendNothing([data]);
  }

  /** The error fits every limit, so written at once it is a record of its own. */
  lemma ErrorIsOneRecord(p: Shape, ops: seq<Op>)
    requires ops != [] && ops[|ops| - 1].Write? && ops[|ops| - 1].data == ErrorReply()
    ensures var payloads := PerformAll(p, NewStream(), ops).payloads;
            payloads != [] && payloads[|payloads| - 1] == ErrorReply()
  {
    hide ErrorReply, Split, PerformAll;
    var n := |ops| - 1;
    var w := PerformAll(p, NewStream(), ops[..n]).after;
    assert ops == ops[..n] + [ops[n]];
    PerformAppend(p, NewStream(), ops[..n], [ops[n]]);
    RunStaysSane(p, NewStream(), ops[..n]);
    ErrorIsNoTunnel();
    ErrorIsShort();
    ShortWrite(p, w, ops[n].now, ErrorReply());
    JustOneWrite(p, w, ops[n]);
  }

  lemma ErrorIsShort()
    ensures |ErrorReply()| == 13
  {
  }

  lemma JustOneWrite(p: Shape, w: Pacing, op: Op)
    requires op.Write?
    ensures PerformAll(p, w, [op]).payloads == Split(p, w, op.now, op.data).payloads
  {
    AppendNothing(Split(p, w, op.now, op.data).payloads);
  }

  /**
   The way back over the octets of a v6 connection. Whatever the server's handlers did, and by
   whatever calls and at whatever times their reply stream was written, as long as the error is
   written at once: each client is told what its own handler said.
   */
  lemma RepliesOverV6(c: Codec, salt: seq<byte>, served: Served, ops: seq<Op>, clients: seq<Listening>,
                      service: Service, f: Feed, request: Request, early: seq<byte>, handlers: seq<seq<Act>>,
                      cut: seq<Act>)
    requires |salt| == SALT_LEN && served == ServeAll(service, f, request, early, handlers, cut)
    requires SaidAll(ops) == EmittedAll(served.talks)
    requires served.talks != [] && served.talks[|served.talks| - 1].aborted ==>
               ops != [] && ops[|ops| - 1].Write? && ops[|ops| - 1].data == ErrorReply()
    ensures TellsAll(HearAll(FeedOf(c, Receiving(c, salt, ops)), clients), served.talks, |clients|)
  {
    hide ErrorReply, TellsAll, HearAll, Items, FeedOf, PerformAll, EmittedAll, ServeAll, Wire;
    OnlyLastAborts(service, f, request, early, handlers, cut);
    var payloads := PerformAll(c.p, NewStream(), ops).payloads;
    PerformAllSays(c.p, NewStream(), ops);
    if served.talks != [] && served.talks[|served.talks| - 1].aborted {
      ErrorIsOneRecord(c.p, ops);
    }
    WireFeeds(c, salt, Start(), payloads, None);
    RepliesHeard(served.talks, payloads, clients);
  }
}
