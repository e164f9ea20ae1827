/**
 Whole v6 streams: how writes are cut into records (the pacing state of shapedWriter),
 what a reader's entry points hand out, and the theorem that joins the two ends.
 */
module ShapedStream {
  import opened Bytes
  import opened Nonce
  import opened Profile
  import opened ShapedCodec

  // ------------------------------------------------------------------- the writer

  datatype Pacing = Pacing(s: Counters, chunkSize: nat, lastWriteUnix: int)

  function NewStream(): Pacing { Pacing(Start(), 0, 0) }

  function ChunkInForce(p: Shape, w: Pacing, now: int): (size: nat)
    ensures size > 0
  {
    var size := if w.lastWriteUnix == 0 || now - w.lastWriteUnix > p.idleResetSec then p.chunkInitial else w.chunkSize;
    if size == 0 then p.chunkInitial else size
  }

  function PayloadLimit(p: Shape, w: Pacing, now: int): (limit: nat)
    ensures 1 <= limit <= MAX_PAYLOAD
  {
    var drawn := ChunkPayloadLimit(p, w.s.seqNo, ChunkInForce(p, w, now));
    var limit := if w.s.seqNo == 0 then Min(drawn, p.firstRecordCap) else drawn;
    Max(1, Min(limit, MAX_PAYLOAD))
  }

  function AfterLimit(p: Shape, w: Pacing, now: int): Pacing
  {
    w.(chunkSize := NextChunkSize(p, ChunkInForce(p, w, now)), lastWriteUnix := now)
  }

  /** What an operation puts on the wire, record by record, and the state it leaves. */
  datatype Written = Written(payloads: seq<seq<byte>>, after: Pacing)

  /** A stream write: cut at the limit in force, a new limit for every record. */
  function Split(p: Shape, w: Pacing, now: int, data: seq<byte>): Written
    decreases |data|
  {
    if data == [] then Written([], w)
    else
      var n := Min(|data|, PayloadLimit(p, w, now));
      var ready := AfterLimit(p, w, now);
      var others := Split(p, ready.(s := Step(ready.s, data[..n])), now, data[n..]);
      Written([data[..n]] + others.payloads, others.after)
  }

  /** One record whatever the limit, which is drawn all the same. */
  function Single(p: Shape, w: Pacing, now: int, data: seq<byte>): Written
  {
    var ready := AfterLimit(p, w, now);
    Written([data], ready.(s := Step(ready.s, data)))
  }

  datatype Op =
    | Write(data: seq<byte>, now: int)
    | WriteBuffer(data: seq<byte>, now: int)
    | WritePacket(data: seq<byte>, now: int)
    | ZeroChunk(now: int)

  function Perform(p: Shape, w: Pacing, op: Op): Written
  {
    match op
    case Write(data, now) => Split(p, w, now, data)
    case WriteBuffer(data, now) => Split(p, w, now, data)
    case WritePacket(data, now) =>
      if data == [] || |data| > MAX_PAYLOAD then Written([], w) else Single(p, w, now, data)
    case ZeroChunk(now) => Single(p, w, now, [])
  }

  function PerformAll(p: Shape, w: Pacing, ops: seq<Op>): Written
    decreases |ops|
  {
    if ops == [] then Written([], w)
    else
      var first := Perform(p, w, ops[0]);
      var others := PerformAll(p, first.after, ops[1..]);
      Written(first.payloads + others.payloads, others.after)
  }

  // ------------------------------------------------------------------- what is meant

  /** A stream as its user sees it: octets, and ends. */
  datatype Token = Octet(value: byte) | End

  function Octets(data: seq<byte>): (t: seq<Token>)
    ensures |t| == |data|
  {
    if data == [] then [] else [Octet(data[0])] + Octets(data[1..])
  }

  function Tokens(payloads: seq<seq<byte>>): seq<Token>
  {
    if payloads == [] then []
    else (if payloads[0] == [] then [End] else Octets(payloads[0])) + Tokens(payloads[1..])
  }

  /** What an operation says, before any cutting: an over-long packet is refused. */
  function Said(op: Op): seq<Token>
  {
    match op
    case Write(data, _) => Octets(data)
    case WriteBuffer(data, _) => Octets(data)
    case WritePacket(data, _) => if |data| > MAX_PAYLOAD then [] else Octets(data)
    case ZeroChunk(_) => [End]
  }

  function SaidAll(ops: seq<Op>): seq<Token>
  {
    if ops == [] then [] else Said(ops[0]) + SaidAll(ops[1..])
  }

  lemma {:induction false} OctetsAppend(a: seq<byte>, b: seq<byte>)
    ensures Octets(a + b) == Octets(a) + Octets(b)
    decreases |a|
  {
    if a == [] {
      AppendNothing(b);
      AppendNothing(Octets(b));
    } else {
      OctetsAppend(a[1..], b);
      TailAppend(a, b);
      Assoc([Octet(a[0])], Octets(a[1..]), Octets(b));
    }
  }

  lemma {:induction false} TokensAppend(a: seq<seq<byte>>, b: seq<seq<byte>>)
    ensures Tokens(a + b) == Tokens(a) + Tokens(b)
    decreases |a|
  {
    if a == [] {
      AppendNothing(b);
      AppendNothing(Tokens(b));
    } else {
      TokensAppend(a[1..], b);
      TailAppend(a, b);
      Assoc(if a[0] == [] then [End] else Octets(a[0]), Tokens(a[1..]), Tokens(b));
    }
  }

  lemma FitAppend(a: seq<seq<byte>>, b: seq<seq<byte>>)
    requires Fit(a) && Fit(b)
    ensures Fit(a + b)
  {
  }

  lemma TakeDrop<T>(s: seq<T>, n: nat)
    requires n <= |s|
    ensures s == s[..n] + s[n..]
  {
  }

  lemma LimitKeepsCounters(p: Shape, w: Pacing, now: int)
    ensures AfterLimit(p, w, now).s == w.s
  {
  }

  lemma {:induction false} SplitSays(p: Shape, w: Pacing, now: int, data: seq<byte>)
    ensures Tokens(Split(p, w, now, data).payloads) == Octets(data)
    ensures Fit(Split(p, w, now, data).payloads)
    ensures Split(p, w, now, data).after.s == StepAll(w.s, Split(p, w, now, data).payloads)
    decreases |data|
  {
    hide PayloadLimit, Step, AfterLimit;
    if data != [] {
      var n := Min(|data|, PayloadLimit(p, w, now));
      var ready := AfterLimit(p, w, now);
      LimitKeepsCounters(p, w, now);
      var next := ready.(s := Step(ready.s, data[..n]));
      SplitSays(p, next, now, data[n..]);
      OctetsAppend(data[..n], data[n..]);
      TakeDrop(data, n);
      var others := Split(p, next, now, data[n..]).payloads;
      TailAppend([data[..n]], others);
      FitAppend([data[..n]], others);
    }
  }

  lemma SingleOctets(data: seq<byte>)
    ensures Tokens([data]) == if data == [] then [End] else Octets(data)
  {
    AppendNothing(Octets(data));
  }

  lemma PerformSays(p: Shape, w: Pacing, op: Op)
    ensures Tokens(Perform(p, w, op).payloads) == Said(op)
    ensures Fit(Perform(p, w, op).payloads)
    ensures Perform(p, w, op).after.s == StepAll(w.s, Perform(p, w, op).payloads)
  {
    match op {
      case Write(data, now) => SplitSays(p, w, now, data);
      case WriteBuffer(data, now) => SplitSays(p, w, now, data);
      case WritePacket(data, now) => SingleOctets(data);
      case ZeroChunk(now) => SingleOctets([]);
    }
  }

  /** The records of any run say exactly what its operations say, in order. */
  lemma {:induction false} PerformAllSays(p: Shape, w: Pacing, ops: seq<Op>)
    ensures Tokens(PerformAll(p, w, ops).payloads) == SaidAll(ops)
    ensures Fit(PerformAll(p, w, ops).payloads)
    ensures PerformAll(p, w, ops).after.s == StepAll(w.s, PerformAll(p, w, ops).payloads)
    decreases |ops|
  {
    if ops != [] {
      hide Perform, Said;
      var first := Perform(p, w, ops[0]);
      var others := PerformAll(p, first.after, ops[1..]);
      PerformSays(p, w, ops[0]);
      PerformAllSays(p, first.after, ops[1..]);
      TokensAppend(first.payloads, others.payloads);
      FitAppend(first.payloads, others.payloads);
      StepAllAppend(w.s, first.payloads, others.payloads);
    }
  }

  lemma {:induction false} StepAllAppend(s: Counters, a: seq<seq<byte>>, b: seq<seq<byte>>)
    ensures StepAll(s, a + b) == StepAll(StepAll(s, a), b)
    decreases |a|
  {
    hide Step;
    if a == [] {
      AppendNothing(b);
    } else {
      StepAllAppend(Step(s, a[0]), a[1..], b);
      TailAppend(a, b);
    }
  }

  // ------------------------------------------------------------------- the reader

  /** A reader with the record it has cut into, if any (baseReader.cache). */
  datatype Cached = Cached(cache: Option<seq<byte>>, r: Reading)

  /** The entry points; Buffer(free) writes into a buffer with that much room. */
  datatype Call = NextRecord | WaitReadBuffer | Read(len: nat) | ReadBuffer(free: nat)

  function Entry(c: Codec, x: Cached, call: Call): (ReadResult, Cached)
  {
    match call
    case NextRecord => WholeRecord(c, x)
    case WaitReadBuffer => WholeRecord(c, x)
    case Read(n) => UpTo(c, x, n)
    case ReadBuffer(n) => UpTo(c, x, n)
  }

  function WholeRecord(c: Codec, x: Cached): (ReadResult, Cached)
  {
    if x.cache.Some? && x.cache.value != [] then (Payload(x.cache.value), Cached(None, x.r))
    else
      var (result, after) := ShapedCodec.ReadRecord(c, x.r);
      (result, Cached(None, after))
  }

  function CopyOut(data: seq<byte>, r: Reading, n: nat): (ReadResult, Cached)
  {
    var k := Min(|data|, n);
    (Payload(data[..k]), Cached(Some(data[k..]), r))
  }

  function UpTo(c: Codec, x: Cached, n: nat): (ReadResult, Cached)
  {
    if x.cache.Some? && x.cache.value != [] then CopyOut(x.cache.value, x.r, n)
    else
      var (result, after) := ShapedCodec.ReadRecord(c, x.r);
      if result.Payload? then CopyOut(result.data, after, n) else (result, Cached(None, after))
  }

  function CachedOctets(x: Cached): seq<byte> { if x.cache.Some? then x.cache.value else [] }

  function Heard(result: ReadResult): seq<Token>
  {
    match result
    case Payload(data) => Octets(data)
    case EndOfStream => [End]
    case Failed(_) => []
  }

  /** The reader is in step with a writer whose counters were s before the given records. */
  ghost predicate Follows(c: Codec, salt: seq<byte>, s: Counters, payloads: seq<seq<byte>>, x: Cached)
    requires |salt| == SALT_LEN
  {
    Fit(payloads) && x.r == InStep(c, salt, s, Wire(c, salt, s, payloads))
  }

  function Pending(payloads: seq<seq<byte>>, x: Cached): seq<Token> { Octets(CachedOctets(x)) + Tokens(payloads) }

  lemma NextOnWire(c: Codec, salt: seq<byte>, s: Counters, payloads: seq<seq<byte>>, x: Cached)
    requires |salt| == SALT_LEN && Follows(c, salt, s, payloads, x) && payloads != []
    ensures var (result, after) := ShapedCodec.ReadRecord(c, x.r);
            && result == Meaning(payloads[0])
            && Follows(c, salt, Step(s, payloads[0]), payloads[1..], Cached(None, after))
  {
    hide Record, Step, ShapedCodec.ReadRecord;
    RecordRoundTrip(c, salt, s, payloads[0], Wire(c, salt, Step(s, payloads[0]), payloads[1..]));
  }

  /**
   One call through any entry point while something is pending: what it hands out comes
   off the front of what is pending, and the reader stays in step with the writer.
   */
  lemma EntryDelivers(c: Codec, salt: seq<byte>, s: Counters, payloads: seq<seq<byte>>, x: Cached, call: Call)
    returns (s': Counters, payloads': seq<seq<byte>>)
    requires |salt| == SALT_LEN && Follows(c, salt, s, payloads, x)
    requires Pending(payloads, x) != []
    ensures var (result, after) := Entry(c, x, call);
            && Follows(c, salt, s', payloads', after)
            && !result.Failed?
            && Pending(payloads, x) == Heard(result) + Pending(payloads', after)
            && StepAll(s', payloads') == StepAll(s, payloads)
  {
    hide Wire, ShapedCodec.ReadRecord, Step;
    var held := CachedOctets(x);
    if held != [] {
      s', payloads' := s, payloads;
      match call {
        case NextRecord => AppendNothing(Tokens(payloads));
        case WaitReadBuffer => AppendNothing(Tokens(payloads));
        case Read(n) => CutOctets(held, Min(|held|, n), Tokens(payloads));
        case ReadBuffer(n) => CutOctets(held, Min(|held|, n), Tokens(payloads));
      }
    } else {
      AppendNothing(Tokens(payloads));
      NextOnWire(c, salt, s, payloads, x);
      s', payloads' := Step(s, payloads[0]), payloads[1..];
      AppendNothing(Tokens(payloads'));
      if payloads[0] != [] {
        match call {
          case NextRecord =>
          case WaitReadBuffer =>
          case Read(n) => CutOctets(payloads[0], Min(|payloads[0]|, n), Tokens(payloads'));
          case ReadBuffer(n) => CutOctets(payloads[0], Min(|payloads[0]|, n), Tokens(payloads'));
        }
      }
    }
  }

  lemma CutOctets(data: seq<byte>, n: nat, rest: seq<Token>)
    requires n <= |data|
    ensures Octets(data) + rest == Octets(data[..n]) + (Octets(data[n..]) + rest)
  {
    TakeDrop(data, n);
    OctetsAppend(data[..n], data[n..]);
    Assoc(Octets(data[..n]), Octets(data[n..]), rest);
  }

  /** A call that can hand out at least one octet. */
  predicate HasRoom(call: Call) { (call.Read? ==> call.len > 0) && (call.ReadBuffer? ==> call.free > 0) }

  predicate AllHaveRoom(calls: seq<Call>) { forall i :: 0 <= i < |calls| ==> HasRoom(calls[i]) }

  /** While something is pending, a call with room hears something. */
  lemma CallHears(c: Codec, salt: seq<byte>, s: Counters, payloads: seq<seq<byte>>, x: Cached, call: Call)
    requires |salt| == SALT_LEN && Follows(c, salt, s, payloads, x)
    requires Pending(payloads, x) != [] && HasRoom(call)
    ensures Heard(Entry(c, x, call).0) != []
  {
    hide Wire, ShapedCodec.ReadRecord, Step;
    if CachedOctets(x) == [] {
      AppendNothing(Tokens(payloads));
      NextOnWire(c, salt, s, payloads, x);
    }
  }

  /** What a run of calls hears, where it leaves the reader, and whether any call failed. */
  datatype Run = Run(heard: seq<Token>, end: Cached, failed: bool)

  /** Calls made one after the other, until nothing is left and the next one would wait. */
  function Listen(c: Codec, x: Cached, calls: seq<Call>): Run
    decreases |calls|
  {
    if calls == [] || (CachedOctets(x) == [] && x.r.wire == []) then Run([], x, false)
    else
      var (result, after) := Entry(c, x, calls[0]);
      var later := Listen(c, after, calls[1..]);
      Run(Heard(result) + later.heard, later.end, result.Failed? || later.failed)
  }

  lemma {:induction false} ListenDelivers(
    c: Codec, salt: seq<byte>, s: Counters, payloads: seq<seq<byte>>, x: Cached, calls: seq<Call>)
    returns (s': Counters, payloads': seq<seq<byte>>)
    requires |salt| == SALT_LEN && Follows(c, salt, s, payloads, x)
    ensures var run := Listen(c, x, calls);
            && Follows(c, salt, s', payloads', run.end)
            && Pending(payloads, x) == run.heard + Pending(payloads', run.end)
            && StepAll(s', payloads') == StepAll(s, payloads)
            && !run.failed
            && (AllHaveRoom(calls) ==> Pending(payloads', run.end) == [] || |run.heard| >= |calls|)
    decreases |calls|
  {
    hide Entry, Follows, Heard, StepAll, HasRoom;
    if calls == [] || (CachedOctets(x) == [] && x.r.wire == []) {
      AppendNothing(Pending(payloads, x));
      s', payloads' := s, payloads;
      if calls != [] {
        NothingOnWire(c, salt, s, payloads, x);
      }
    } else {
      PendingOnWire(c, salt, s, payloads, x);
      var s1, payloads1 := OneCall(c, salt, s, payloads, x, calls[0]);
      var (result, after) := Entry(c, x, calls[0]);
      s', payloads' := ListenDelivers(c, salt, s1, payloads1, after, calls[1..]);
      var later := Listen(c, after, calls[1..]);
      Assoc(Heard(result), later.heard, Pending(payloads', later.end));
    }
  }

  lemma OneCall(c: Codec, salt: seq<byte>, s: Counters, payloads: seq<seq<byte>>, x: Cached, call: Call)
    returns (s': Counters, payloads': seq<seq<byte>>)
    requires |salt| == SALT_LEN && Follows(c, salt, s, payloads, x)
    requires Pending(payloads, x) != []
    ensures var (result, after) := Entry(c, x, call);
            && Follows(c, salt, s', payloads', after)
            && !result.Failed?
            && Pending(payloads, x) == Heard(result) + Pending(payloads', after)
            && StepAll(s', payloads') == StepAll(s, payloads)
            && (HasRoom(call) ==> Heard(result) != [])
  {
    hide Follows, Entry, StepAll, Heard;
    s', payloads' := EntryDelivers(c, salt, s, payloads, x, call);
    if HasRoom(call) {
      CallHears(c, salt, s, payloads, x, call);
    }
  }

  /** Octets on the wire mean a record is pending. */
  lemma PendingOnWire(c: Codec, salt: seq<byte>, s: Counters, payloads: seq<seq<byte>>, x: Cached)
    requires |salt| == SALT_LEN && Follows(c, salt, s, payloads, x)
    requires CachedOctets(x) != [] || x.r.wire != []
    ensures Pending(payloads, x) != []
  {
    if CachedOctets(x) == [] {
      assert payloads != [];
    }
  }

  /** A reader at the start of what a run of operations has put on the wire. */
  function Receiving(c: Codec, salt: seq<byte>, ops: seq<Op>): Cached
    requires |salt| == SALT_LEN
  {
    Cached(None, Reading(None, 0, Zeros(NONCE_LEN), Wire(c, salt, Start(), PerformAll(c.p, NewStream(), ops).payloads)))
  }

  /**
   The stream theorem. For every profile, cipher and salt, every run of writes at any
   times and every mix of entry points: no call fails, what has been heard is a prefix of
   what was said, reading on until nothing is left hears all of it, and as many calls with
   room as there are tokens are enough for that.
   */
  lemma StreamRoundTrip(c: Codec, salt: seq<byte>, ops: seq<Op>, calls: seq<Call>)
    requires |salt| == SALT_LEN
    ensures var run := Listen(c, Receiving(c, salt, ops), calls);
            && !run.failed
            && run.heard <= SaidAll(ops)
            && (CachedOctets(run.end) == [] && run.end.r.wire == [] ==>
                  && run.heard == SaidAll(ops)
                  && run.end.r.seqNo as int == |PerformAll(c.p, NewStream(), ops).payloads| % 0x1_0000_0000)
            && (AllHaveRoom(calls) && |calls| >= |SaidAll(ops)| ==> run.heard == SaidAll(ops))
  {
    hide Listen, StepAll, AllHaveRoom;
    var written := PerformAll(c.p, NewStream(), ops);
    PerformAllSays(c.p, NewStream(), ops);
    var x := Receiving(c, salt, ops);
    assert x.r == InStep(c, salt, Start(), Wire(c, salt, Start(), written.payloads));
    var s', payloads' := ListenDelivers(c, salt, Start(), written.payloads, x, calls);
    AppendNothing(SaidAll(ops));
    var run := Listen(c, x, calls);
    AppendNothing(run.heard);
    if run.end.r.wire == [] && CachedOctets(run.end) == [] {
      NothingOnWire(c, salt, s', payloads', run.end);
      RecordsAreCounted(Start(), written.payloads);
      AllCounted(c, salt, s', payloads', run.end);
    }
  }

  lemma AllCounted(c: Codec, salt: seq<byte>, s: Counters, payloads: seq<seq<byte>>, x: Cached)
    requires |salt| == SALT_LEN && Follows(c, salt, s, payloads, x) && x.r.wire == []
    ensures x.r.seqNo == StepAll(s, payloads).seqNo
  {
    assert payloads == [];
  }

  lemma NothingOnWire(c: Codec, salt: seq<byte>, s: Counters, payloads: seq<seq<byte>>, x: Cached)
    requires |salt| == SALT_LEN && Follows(c, salt, s, payloads, x)
    requires CachedOctets(x) == [] && x.r.wire == []
    ensures Pending(payloads, x) == []
  {
    assert payloads == [];
  }

  /** After all of it was read, both ends have counted the same records and the same seals. */
  lemma CountersAgree(c: Codec, salt: seq<byte>, ops: seq<Op>, rest: seq<byte>)
    requires |salt| == SALT_LEN
    ensures var written := PerformAll(c.p, NewStream(), ops);
            var (results, end) := ReadMany(c,
              InStep(c, salt, Start(), Wire(c, salt, Start(), written.payloads) + rest), |written.payloads|);
            && results == Meanings(written.payloads)
            && end.seqNo == written.after.s.seqNo && end.nonce == written.after.s.nonce && end.wire == rest
            && end.seqNo as int == |written.payloads| % 0x1_0000_0000
            && end.nonce == Advance(Zeros(NONCE_LEN), Seals(written.payloads))
  {
    RecordsAreCounted(Start(), PerformAll(c.p, NewStream(), ops).payloads);
    SealsAreCounted(Start(), PerformAll(c.p, NewStream(), ops).payloads);
    PerformAllSays(c.p, NewStream(), ops);
    WireRoundTrip(c, salt, Start(), PerformAll(c.p, NewStream(), ops).payloads, rest);
  }
}
