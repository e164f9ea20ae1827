/**
 The v6 writer and reader at work: a run of calls of the writer's methods puts the wire of
 the stream theorem on the connection, a run of calls of the reader's methods hears what
 that theorem says, and so the two programs together pass a stream through.
 */
module ShapedRuns {
  import opened Bytes
  import opened Aead
  import opened Profile
  import opened ShapedCodec
  import opened ShapedStream
  import opened ShapedWriter
  import opened ShapedReader

  // ------------------------------------------------------------ writing

  /** A buffer as callers make it: the payload, with the room asked for on both sides. */
  method BufferFor(w: ShapedWriter, payload: seq<byte>) returns (b: Buffer)
    requires w.Valid()
    ensures b.Valid() && fresh(b) && fresh(b.data) && b.Contents() == payload
    ensures b.start >= w.FrontHeadroom() && b.data.Length - b.end >= TAG_LEN
  {
    var front := w.FrontHeadroom();
    var data := new byte[front + |payload| + TAG_LEN](i => 0);
    Put(data, front, payload);
    b := new Buffer(data, front, front + |payload|);
  }

  /** One operation by the method that does it. */
  method PerformOp(w: ShapedWriter, op: Op)
    requires w.Valid()
    modifies w, w.nonce
    ensures w.Wrote(old(w.sent), old(w.State()), op)
  {
    hide Wire, Split, Single;
    match op
    case Write(data, now) => w.Write(data, now);
    case WriteBuffer(data, now) =>
      var b := BufferFor(w, data);
      w.WriteBuffer(b, now);
    case WritePacket(data, now) =>
      var b := BufferFor(w, data);
      var error := w.WritePacketBuffer(b, now);
    case ZeroChunk(now) => w.WriteZeroChunk(now);
  }

  lemma OneOpFurther(c: Codec, salt: seq<byte>, w: Pacing, ops: seq<Op>)
    requires |salt| == SALT_LEN && ops != []
    ensures var first := Perform(c.p, w, ops[0]);
            Wire(c, salt, w.s, PerformAll(c.p, w, ops).payloads) ==
            Wire(c, salt, w.s, first.payloads)
            + Wire(c, salt, first.after.s, PerformAll(c.p, first.after, ops[1..]).payloads)
  {
    hide Wire, Perform, StepAll;
    var first := Perform(c.p, w, ops[0]);
    PerformSays(c.p, w, ops[0]);
    WireAppend(c, salt, w.s, first.payloads, PerformAll(c.p, first.after, ops[1..]).payloads);
  }

  lemma NothingWritten(c: Codec, salt: seq<byte>, w: Pacing)
    requires |salt| == SALT_LEN
    ensures PerformAll(c.p, w, []) == Written([], w) && Wire(c, salt, w.s, []) == []
  {
  }

  /** A whole run of operations: what they have sent is the wire of their records, whatever was sent before. */
  method RunOps(w: ShapedWriter, ops: seq<Op>)
    requires w.Valid()
    modifies w, w.nonce
    ensures var done := PerformAll(w.c.p, old(w.State()), ops);
            w.sent == old(w.sent) + Wire(w.c, w.salt, old(w.State()).s, done.payloads) && w.State() == done.after
  {
    hide Wire, Perform, PerformAll;
    ghost var state := w.State();
    ghost var all := PerformAll(w.c.p, state, ops);
    ghost var wire := w.sent + Wire(w.c, w.salt, state.s, all.payloads);
    var i := 0;
    assert ops[0..] == ops;
    while i < |ops|
      invariant 0 <= i <= |ops|
      invariant PerformAll(w.c.p, w.State(), ops[i..]).after == all.after
      invariant w.sent + Wire(w.c, w.salt, w.State().s, PerformAll(w.c.p, w.State(), ops[i..]).payloads) == wire
    {
      ghost var sent, s := w.sent, w.State();
      assert ops[i..][0] == ops[i] && ops[i..][1..] == ops[i + 1..];
      OneOpFurther(w.c, w.salt, s, ops[i..]);
      PerformAllFirst(w.c.p, s, ops[i..]);
      PerformOp(w, ops[i]);
      ghost var later := PerformAll(w.c.p, w.State(), ops[i + 1..]);
      Assoc(sent, Wire(w.c, w.salt, s.s, Perform(w.c.p, s, ops[i]).payloads),
        Wire(w.c, w.salt, w.State().s, later.payloads));
      i := i + 1;
    }
    assert ops[i..] == [];
    NothingWritten(w.c, w.salt, w.State());
    AppendNothing(w.sent);
  }

  lemma PerformAllFirst(p: Shape, w: Pacing, ops: seq<Op>)
    requires ops != []
    ensures PerformAll(p, w, ops).after == PerformAll(p, Perform(p, w, ops[0]).after, ops[1..]).after
  {
  }

  // ------------------------------------------------------------ reading

  /** One call by the method that it names. */
  method MakeCall(r: ShapedReader, call: Call) returns (result: ReadResult)
    modifies r, r.nonce
    ensures (result, r.Holding()) == Entry(r.c, old(r.Holding()), call)
  {
    match call
    case NextRecord => result := r.NextRecord();
    case WaitReadBuffer => result := r.WaitReadBuffer();
    case Read(len) => result := r.Read(len);
    case ReadBuffer(free) => result := r.ReadBuffer(free);
  }

  /** What has been heard, and what listening on would add to it. */
  function Heading(heard: seq<Token>, failed: bool, later: Run): Run
  {
    Run(heard + later.heard, later.end, failed || later.failed)
  }

  lemma ListenFurther(c: Codec, x: Cached, calls: seq<Call>, heard: seq<Token>, failed: bool)
    requires calls != [] && !(CachedOctets(x) == [] && x.r.wire == [])
    ensures var (result, after) := Entry(c, x, calls[0]);
            Heading(heard, failed, Listen(c, x, calls)) ==
            Heading(heard + Heard(result), failed || result.Failed?, Listen(c, after, calls[1..]))
  {
    hide Entry, Heard;
    var (result, after) := Entry(c, x, calls[0]);
    Assoc(heard, Heard(result), Listen(c, after, calls[1..]).heard);
  }

  lemma ListenNoFurther(c: Codec, x: Cached, calls: seq<Call>, heard: seq<Token>, failed: bool)
    requires calls == [] || (CachedOctets(x) == [] && x.r.wire == [])
    ensures Heading(heard, failed, Listen(c, x, calls)) == Run(heard, x, failed)
  {
    AppendNothing(heard);
  }

  /** A run of calls, until nothing is left and the next one would wait. */
  method RunCalls(r: ShapedReader, calls: seq<Call>) returns (heard: seq<Token>, failed: bool)
    modifies r, r.nonce
    ensures Run(heard, r.Holding(), failed) == Listen(r.c, old(r.Holding()), calls)
  {
    hide Entry, Heard, Listen, Heading;
    ghost var all := Listen(r.c, r.Holding(), calls);
    heard, failed := [], false;
    HeadingNothing(all);
    var i := 0;
    assert calls[0..] == calls;
    while i < |calls| && !(CachedOctets(r.Holding()) == [] && r.upstream == [])
      invariant 0 <= i <= |calls|
      invariant Heading(heard, failed, Listen(r.c, r.Holding(), calls[i..])) == all
    {
      assert calls[i..][0] == calls[i] && calls[i..][1..] == calls[i + 1..];
      ListenFurther(r.c, r.Holding(), calls[i..], heard, failed);
      var result := MakeCall(r, calls[i]);
      heard, failed := heard + Heard(result), failed || result.Failed?;
      i := i + 1;
    }
    ListenNoFurther(r.c, r.Holding(), calls[i..], heard, failed);
  }

  lemma HeadingNothing(run: Run)
    ensures Heading([], false, run) == run
  {
    AppendNothing(run.heard);
  }

  // ------------------------------------------------------------ both

  /**
   The programs, end to end: what a new writer has sent after any operations at any times, a
   new reader hears through any entry points, as the stream theorem says, and at the end its
   sequence number has counted the records.
   */
  method Transmit(c: Codec, salt: seq<byte>, ops: seq<Op>, calls: seq<Call>)
    returns (heard: seq<Token>, failed: bool, ended: bool, count: uint32)
    requires |salt| == SALT_LEN
    ensures !failed && heard <= SaidAll(ops)
    ensures ended ==> count as int == |PerformAll(c.p, NewStream(), ops).payloads| % 0x1_0000_0000
    ensures ended || (AllHaveRoom(calls) && |calls| >= |SaidAll(ops)|) ==> heard == SaidAll(ops)
  {
    hide Listen, Wire, PerformAll, SaidAll, AllHaveRoom;
    var w := new ShapedWriter(c, salt);
    RunOps(w, ops);
    AppendNothing(w.sent);
    var r := new ShapedReader(c, w.sent);
    assert r.Holding() == Receiving(c, salt, ops);
    heard, failed := RunCalls(r, calls);
    ended := CachedOctets(r.Holding()) == [] && r.upstream == [];
    count := r.seqNo;
    StreamRoundTrip(c, salt, ops, calls);
  }
}
