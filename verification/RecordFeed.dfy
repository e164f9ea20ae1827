/**
 A record reader as its users see it: what is cached, and what reading on will give. Every
 v6 reader, on whatever octets, is such a feed, and its entry points act on it as written here.
 */
module RecordFeed {
  import opened Bytes
  import Profile
  import opened ShapedCodec
  import opened ShapedStream

  datatype Got = Data(octets: seq<byte>) | Eof | Broken

  /** Behind the items there is only the end of the connection, which reads as end of stream. */
  datatype Feed = Feed(cache: Option<seq<byte>>, items: seq<Got>)

  /** ReadRecord: straight off the stream, past any cached record. */
  function FromStream(f: Feed): (Got, Feed)
  {
    if f.items == [] then (Eof, f) else (f.items[0], f.(items := f.items[1..]))
  }

  function NextOf(f: Feed): (Got, Feed)
  {
    if f.cache.Some? && f.cache.value != [] then (Data(f.cache.value), f.(cache := None))
    else FromStream(f.(cache := None))
  }

  function CutFeed(data: seq<byte>, f: Feed, n: nat): (Got, Feed)
  {
    (Data(data[..Min(|data|, n)]), f.(cache := Some(data[Min(|data|, n)..])))
  }

  function ReadOf(f: Feed, n: nat): (Got, Feed)
  {
    if f.cache.Some? && f.cache.value != [] then CutFeed(f.cache.value, f, n)
    else
      var (got, g) := FromStream(f.(cache := None));
      if got.Data? then CutFeed(got.octets, g, n) else (got, g)
  }

  function AsGot(result: ReadResult): Got
  {
    match result
    case Payload(data) => Data(data)
    case EndOfStream => Eof
    case Failed(_) => Broken
  }

  // ------------------------------------------------------------ the feed on the wire

  lemma ReadingTakesOctets(c: Codec, r: Reading)
    requires r.wire != []
    ensures |ShapedCodec.ReadRecord(c, r).1.wire| < |r.wire|
  {
  }

  /** Everything a reader will be given until the octets run out. */
  function Outcomes(c: Codec, r: Reading): seq<Got>
    decreases |r.wire|
  {
    if r.wire == [] then []
    else
      ReadingTakesOctets(c, r);
      var (result, after) := ShapedCodec.ReadRecord(c, r);
      [AsGot(result)] + Outcomes(c, after)
  }

  function FeedOf(c: Codec, x: Cached): Feed { Feed(x.cache, Outcomes(c, x.r)) }

  lemma AtTheEnd(c: Codec, r: Reading)
    requires r.wire == []
    ensures var (result, after) := ShapedCodec.ReadRecord(c, r); result.EndOfStream? && after.wire == []
  {
  }

  /** Reading a record from any octets is taking the next item of the feed. */
  lemma RecordIsItem(c: Codec, x: Cached)
    ensures var (result, after) := ShapedCodec.ReadRecord(c, x.r);
            FromStream(FeedOf(c, x)) == (AsGot(result), FeedOf(c, Cached(x.cache, after)))
  {
    hide ShapedCodec.ReadRecord;
    if x.r.wire == [] {
      AtTheEnd(c, x.r);
    } else {
      var (result, after) := ShapedCodec.ReadRecord(c, x.r);
      SplitAppend([AsGot(result)], Outcomes(c, after));
    }
  }

  /** What an entry point does to the feed. */
  function CallOf(f: Feed, call: Call): (Got, Feed)
  {
    match call
    case NextRecord => NextOf(f)
    case WaitReadBuffer => NextOf(f)
    case Read(n) => ReadOf(f, n)
    case ReadBuffer(n) => ReadOf(f, n)
  }

  /** On any octets whatever, every entry point of the v6 reader does to its feed what it should. */
  lemma EntryIsCall(c: Codec, x: Cached, call: Call)
    ensures var (result, after) := Entry(c, x, call);
            CallOf(FeedOf(c, x), call) == (AsGot(result), FeedOf(c, after))
  {
    hide ShapedCodec.ReadRecord, Outcomes;
    RecordIsItem(c, x.(cache := None));
  }

  /** A zero chunk is an end of stream, any other payload is data. */
  function Items(payloads: seq<seq<byte>>): (g: seq<Got>)
    ensures |g| == |payloads|
  {
    if payloads == [] then []
    else [if payloads[0] == [] then Eof else Data(payloads[0])] + Items(payloads[1..])
  }

  lemma {:induction false} ItemsAppend(a: seq<seq<byte>>, b: seq<seq<byte>>)
    ensures Items(a + b) == Items(a) + Items(b)
  {
    if a == [] {
      AppendNothing(b);
      AppendNothing(Items(b));
    } else {
      ItemsAppend(a[1..], b);
      TailAppend(a, b);
      Assoc([if a[0] == [] then Eof else Data(a[0])], Items(a[1..]), Items(b));
    }
  }

  /** In step with a writer, the feed is what the writer has written. */
  lemma {:induction false} WireFeeds(c: Codec, salt: seq<byte>, s: Counters, payloads: seq<seq<byte>>,
      cache: Option<seq<byte>>)
    requires |salt| == Profile.SALT_LEN && Fit(payloads)
    ensures FeedOf(c, Cached(cache, InStep(c, salt, s, Wire(c, salt, s, payloads)))) == Feed(cache, Items(payloads))
    decreases |payloads|
  {
    hide Step, ShapedCodec.ReadRecord, Record;
    var x := Cached(cache, InStep(c, salt, s, Wire(c, salt, s, payloads)));
    if payloads != [] {
      NextOnWire(c, salt, s, payloads, x);
      WireNotEmpty(c, salt, s, payloads);
      WireFeeds(c, salt, Step(s, payloads[0]), payloads[1..], cache);
    }
  }

  lemma WireNotEmpty(c: Codec, salt: seq<byte>, s: Counters, payloads: seq<seq<byte>>)
    requires |salt| == Profile.SALT_LEN && payloads != []
    ensures Wire(c, salt, s, payloads) != []
  {
  }
}
