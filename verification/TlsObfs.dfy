/**
 The TLS-looking obfuscation layer (obfs.go): a fake ClientHello or ServerHello carries the
 first octets, application data records carry the rest, and each reader finds its way by
 fixed offsets. Seen from its ends it is to be a plain pipe of octets.
 */
module TlsObfs {
  import opened Bytes

  const CLIENT_HELLO_PAYLOAD_LEN := 0x400
  const RECORD_PAYLOAD_LEN := 0x4000
  const CLIENT_HELLO_OVERHEAD := 0xd9
  const CLIENT_HELLO_PAYLOAD_OFFSET := 0x8e
  const CLIENT_HELLO_NAME_HEADER_LEN := 9
  const CLIENT_HELLO_TRAILER_LEN := 0x42
  const CLIENT_RECORD_OVERHEAD := 0xd4
  const CLIENT_HANDSHAKE_OVERHEAD := 0xd0
  const CLIENT_EXTENSIONS_OVERHEAD := 0x4f
  const SERVER_HELLO_PAYLOAD_OFFSET := 0x6b
  const RECORD_HEADER_LEN := 5

  function DefaultHost(): seq<byte>
  {
    [0x63, 0x6c, 0x6f, 0x75, 0x64, 0x66, 0x72, 0x6f, 0x6e, 0x74, 0x2e, 0x6e, 0x65, 0x74] // cloudfront.net
  }

  // ------------------------------------------------------------ what is written

  predicate ChunkSized(chunk: seq<byte>) { 0 < |chunk| <= RECORD_PAYLOAD_LEN }

  function Frame(chunk: seq<byte>): seq<byte> { [0x17, 0x03, 0x03] + Be16(|chunk|) + chunk }

  function Framed(chunks: seq<seq<byte>>): seq<byte>
  {
    if chunks == [] then [] else Frame(chunks[0]) + Framed(chunks[1..])
  }

  function Chunks(p: seq<byte>): (c: seq<seq<byte>>)
    ensures forall i :: 0 <= i < |c| ==> ChunkSized(c[i])
    decreases |p|
  {
    if p == [] then [] else
      var n := Min(|p|, RECORD_PAYLOAD_LEN);
      [p[..n]] + Chunks(p[n..])
  }

  lemma {:induction false} ChunksJoin(p: seq<byte>)
    ensures Concat(Chunks(p)) == p
    decreases |p|
  {
    if p != [] {
      var n := Min(|p|, RECORD_PAYLOAD_LEN);
      ChunksJoin(p[n..]);
      SplitAppend([p[..n]], Chunks(p[n..]));
      assert p[..n] + p[n..] == p;
    }
  }

  lemma {:induction false} FramedAppend(a: seq<seq<byte>>, b: seq<seq<byte>>)
    ensures Framed(a + b) == Framed(a) + Framed(b)
  {
    if a == [] {
      AppendNothing(b);
      AppendNothing(Framed(b));
    } else {
      FramedAppend(a[1..], b);
      TailAppend(a, b);
      Assoc(Frame(a[0]), Framed(a[1..]), Framed(b));
    }
  }

  /** What a hello is filled with: the time, 28 random octets, a 32-octet session id. */
  datatype Fill = Fill(time: seq<byte>, random: seq<byte>, sessionId: seq<byte>)

  ghost predicate Filled(f: Fill) { |f.time| == 4 && |f.random| == 28 && |f.sessionId| == 32 }

  function CipherSuites(): (s: seq<byte>)
    ensures |s| == 56
  {
    [0xc0, 0x2c, 0xc0, 0x30, 0x00, 0x9f, 0xcc, 0xa9, 0xcc, 0xa8, 0xcc, 0xaa, 0xc0, 0x2b, 0xc0, 0x2f]
    + [0x00, 0x9e, 0xc0, 0x24, 0xc0, 0x28, 0x00, 0x6b, 0xc0, 0x23, 0xc0, 0x27, 0x00, 0x67, 0xc0, 0x0a]
    + [0xc0, 0x14, 0x00, 0x39, 0xc0, 0x09, 0xc0, 0x13, 0x00, 0x33, 0x00, 0x9d, 0x00, 0x9c, 0x00, 0x3d]
    + [0x00, 0x3c, 0x00, 0x35, 0x00, 0x2f, 0x00, 0xff]
  }

  function PointFormats(): (s: seq<byte>) ensures |s| == 4 { [0x03, 0x01, 0x00, 0x02] }

  function Groups(): (s: seq<byte>) ensures |s| == 10 { [0x00, 0x08, 0x00, 0x1d, 0x00, 0x17, 0x00, 0x19, 0x00, 0x18] }

  function SignatureAlgorithms(): (s: seq<byte>)
    ensures |s| == 32
  {
    [0x00, 0x1e, 0x06, 0x01, 0x06, 0x02, 0x06, 0x03, 0x05, 0x01, 0x05, 0x02, 0x05, 0x03, 0x04, 0x01]
    + [0x04, 0x02, 0x04, 0x03, 0x03, 0x01, 0x03, 0x02, 0x03, 0x03, 0x02, 0x01, 0x02, 0x02, 0x02, 0x03]
  }

  /** The fixed extensions that end the hello. */
  function Trailer(): (s: seq<byte>)
    ensures |s| == CLIENT_HELLO_TRAILER_LEN
  {
    ([0x00, 0x0b, 0x00, 0x04] + PointFormats())
    + (([0x00, 0x0a, 0x00, 0x0a] + Groups())
    + (([0x00, 0x0d, 0x00, 0x20] + SignatureAlgorithms())
    + ([0x00, 0x16, 0x00, 0x00]
    + [0x00, 0x17, 0x00, 0x00])))
  }

  /** The record's and the handshake message's type and length. */
  function HelloHead(h: nat, p: nat): (s: seq<byte>)
    ensures |s| == 9
  {
    [0x16, 0x03, 0x01] + (Be16(CLIENT_RECORD_OVERHEAD + h + p)
      + ([0x01, 0x00] + Be16(CLIENT_HANDSHAKE_OVERHEAD + h + p)))
  }

  function HelloMiddle(f: Fill): (s: seq<byte>)
    requires Filled(f)
    ensures |s| == 127
  {
    [0x03, 0x03] + f.time + f.random + [0x20] + f.sessionId + [0x00, 0x38] + CipherSuites() + [0x01, 0x00]
  }

  /** Everything before the session ticket's length. */
  function ClientPrelude(f: Fill, h: nat, p: nat): (s: seq<byte>)
    requires Filled(f)
    ensures |s| == CLIENT_HELLO_PAYLOAD_OFFSET - 2
  {
    HelloHead(h, p) + (HelloMiddle(f) + (Be16(CLIENT_EXTENSIONS_OVERHEAD + h + p) + [0x00, 0x23]))
  }

  /** The server name extension and the fixed extensions behind the ticket. */
  function NameBlock(host: seq<byte>): (s: seq<byte>)
    ensures |s| == CLIENT_HELLO_NAME_HEADER_LEN + |host| + CLIENT_HELLO_TRAILER_LEN
  {
    [0x00, 0x00] + (Be16(|host| + 5) + (Be16(|host| + 3) + [0x00])) + (Be16(|host|) + (host + Trailer()))
  }

  function ClientHello(f: Fill, host: seq<byte>, payload: seq<byte>): seq<byte>
    requires Filled(f)
  {
    ClientPrelude(f, |host|, |payload|) + (Be16(|payload|) + (payload + NameBlock(host)))
  }

  function ServerPrelude(f: Fill): (s: seq<byte>)
    requires Filled(f)
    ensures |s| == SERVER_HELLO_PAYLOAD_OFFSET - 2
  {
    [0x16, 0x03, 0x01] + Be16(91) + [0x02, 0x00, 0x00, 0x57, 0x03, 0x03] + f.time + f.random + [0x20] + f.sessionId
    + [0xcc, 0xa8, 0x00, 0x00, 0x00, 0xff, 0x01, 0x00, 0x01, 0x00, 0x00, 0x17, 0x00, 0x00,
       0x00, 0x0b, 0x00, 0x02, 0x01, 0x00, 0x14, 0x03, 0x03, 0x00, 0x01, 0x01, 0x16, 0x03, 0x03]
  }

  datatype Role = Client(host: seq<byte>) | Server

  function Hello(role: Role, f: Fill, payload: seq<byte>): seq<byte>
    requires Filled(f)
  {
    match role
    case Client(host) => ClientHello(f, if host == [] then DefaultHost() else host, payload)
    case Server => ServerPrelude(f) + (Be16(|payload|) + payload)
  }

  function FirstLen(role: Role): nat { if role.Client? then CLIENT_HELLO_PAYLOAD_LEN else RECORD_PAYLOAD_LEN }

  /** The octets one Write puts on the connection; the first one sends the hello even when it is empty. */
  function WriteBytes(role: Role, f: Fill, helloSent: bool, p: seq<byte>): seq<byte>
    requires Filled(f)
  {
    if helloSent then Framed(Chunks(p))
    else
      var n := Min(|p|, FirstLen(role));
      Hello(role, f, p[..n]) + Framed(Chunks(p[n..]))
  }

  function WriteAll(role: Role, f: Fill, helloSent: bool, writes: seq<seq<byte>>): seq<byte>
    requires Filled(f)
    decreases |writes|
  {
    if writes == [] then [] else WriteBytes(role, f, helloSent, writes[0]) + WriteAll(role, f, true, writes[1..])
  }

  // ------------------------------------------------------------ what is read

  /** A reader; the server has a server name to skip behind the ticket. */
  datatype Reader = Reader(remaining: nat, helloReceived: bool, nameSkipped: bool, wire: seq<byte>)

  datatype Got = Data(octets: seq<byte>) | Short // Short: the connection ended inside a record

  /** readRecord(p, headerLen) with len(p) == n. */
  function TakeRecord(r: Reader, n: nat, headerLen: nat): (Got, Reader)
    requires headerLen >= 2
  {
    if r.remaining > 0 then
      var k := Min(r.remaining, n);
      if |r.wire| < k then (Short, r) else (Data(r.wire[..k]), r.(remaining := r.remaining - k, wire := r.wire[k..]))
    else if |r.wire| < headerLen then (Short, r)
    else
      var len := FromBe16(r.wire, headerLen - 2);
      var rest := r.wire[headerLen..];
      var k := Min(len, n);
      if |rest| < k then (Short, r) else (Data(rest[..k]), r.(remaining := len - k, wire := rest[k..]))
  }

  /** The server name header, the name and the trailer. */
  function SkipName(r: Reader): Option<Reader>
  {
    if |r.wire| < CLIENT_HELLO_NAME_HEADER_LEN then None
    else
      var skip := CLIENT_HELLO_NAME_HEADER_LEN + FromBe16(r.wire, CLIENT_HELLO_NAME_HEADER_LEN - 2)
        + CLIENT_HELLO_TRAILER_LEN;
      if |r.wire| < skip then None else Some(r.(wire := r.wire[skip..]))
  }

  /** Read at the end facing a writer of the given role. */
  function TakeRead(role: Role, r: Reader, n: nat): (Got, Reader)
  {
    if n == 0 then (Data([]), r)
    else if !r.helloReceived then
      TakeRecord(r.(helloReceived := true), n,
        if role.Client? then CLIENT_HELLO_PAYLOAD_OFFSET else SERVER_HELLO_PAYLOAD_OFFSET)
    else if role.Client? && !r.nameSkipped && r.remaining == 0 then
      var skipped := SkipName(r.(nameSkipped := true));
      if skipped.None? then (Short, r.(nameSkipped := true)) else TakeRecord(skipped.value, n, RECORD_HEADER_LEN)
    else TakeRecord(r, n, RECORD_HEADER_LEN)
  }

  // ------------------------------------------------------------ a plain pipe

  ghost predicate AllSized(chunks: seq<seq<byte>>) { forall i :: 0 <= i < |chunks| ==> ChunkSized(chunks[i]) }

  function HostOf(role: Role): seq<byte> {
    if role.Server? then [] else if role.host == [] then DefaultHost() else role.host
  }

  /** A reader with the rest of a chunk and whole chunks before it, wherever it stands in the framing. */
  ghost predicate Carries(role: Role, f: Fill, r: Reader, chunk: seq<byte>, chunks: seq<seq<byte>>)
    requires Filled(f)
  {
    && AllSized(chunks)
    && if !r.helloReceived then
         !r.nameSkipped && r.remaining == 0 && |chunk| <= FirstLen(role)
           && r.wire == Hello(role, f, chunk) + Framed(chunks)
       else if role.Client? && !r.nameSkipped then
         r.remaining == |chunk| && r.wire == chunk + (NameBlock(HostOf(role)) + Framed(chunks))
       else
         r.remaining == |chunk| && r.wire == chunk + Framed(chunks)
  }

  /** A record's length is found right in front of its payload; what the caller has no room for is left for later. */
  lemma HeaderRead(r: Reader, n: nat, pre: seq<byte>, c: seq<byte>, rest: seq<byte>)
    requires r.remaining == 0 && |c| < 0x1_0000 && r.wire == pre + (Be16(|c|) + (c + rest))
    ensures var k := Min(|c|, n);
            TakeRecord(r, n, |pre| + 2) == (Data(c[..k]), r.(remaining := |c| - k, wire := c[k..] + rest))
  {
    Be16RoundTrip(|c|);
    var tail := r.wire[|pre| + 2..];
    assert tail == c + rest;
    assert r.wire[|pre|] == Be16(|c|)[0] && r.wire[|pre| + 1] == Be16(|c|)[1];
    CutFront(c, Min(|c|, n), rest);
  }

  lemma CutFront(c: seq<byte>, k: nat, rest: seq<byte>)
    requires k <= |c|
    ensures (c + rest)[..k] == c[..k] && (c + rest)[k..] == c[k..] + rest && c[..k] + c[k..] == c
  {
  }

  lemma FrameParts(c: seq<byte>, rest: seq<byte>)
    ensures Frame(c) + rest == [0x17, 0x03, 0x03] + (Be16(|c|) + (c + rest))
  {
    var type_: seq<byte> := [0x17, 0x03, 0x03];
    Assoc(type_ + Be16(|c|), c, rest);
    Assoc(type_, Be16(|c|), c + rest);
  }

  /** The skip ends exactly behind the trailer, for a host whose length fits its field. */
  lemma NameSkipped(r: Reader, host: seq<byte>, rest: seq<byte>)
    requires |host| < 0x1_0000 && r.wire == NameBlock(host) + rest
    ensures SkipName(r) == Some(r.(wire := rest))
  {
    Be16RoundTrip(|host|);
    var head: seq<byte> := [0x00, 0x00] + (Be16(|host| + 5) + (Be16(|host| + 3) + [0x00]));
    var block := NameBlock(host);
    assert block[7] == Be16(|host|)[0] && block[8] == Be16(|host|)[1] by {
      assert block == head + (Be16(|host|) + (host + Trailer()));
    }
    SplitAppend(block, rest);
  }

  /** A record read from the front of the framed chunks. */
  lemma ChunkRead(r: Reader, n: nat, chunks: seq<seq<byte>>)
    requires r.remaining == 0 && AllSized(chunks) && chunks != [] && r.wire == Framed(chunks) && n > 0
    ensures var k := Min(|chunks[0]|, n);
            && k > 0 && AllSized(chunks[1..])
            && TakeRecord(r, n, RECORD_HEADER_LEN) ==
              (Data(chunks[0][..k]), r.(remaining := |chunks[0]| - k, wire := chunks[0][k..] + Framed(chunks[1..])))
            && |r.wire| > |chunks[0][k..] + Framed(chunks[1..])|
  {
    assert ChunkSized(chunks[0]);
    FrameParts(chunks[0], Framed(chunks[1..]));
    HeaderRead(r, n, [0x17, 0x03, 0x03], chunks[0], Framed(chunks[1..]));
  }

  /** The rest of a chunk a read has cut into. */
  lemma RestRead(r: Reader, n: nat, chunk: seq<byte>, rest: seq<byte>)
    requires r.remaining == |chunk| > 0 && r.wire == chunk + rest && n > 0
    ensures var k := Min(|chunk|, n);
            && TakeRecord(r, n, RECORD_HEADER_LEN) ==
              (Data(chunk[..k]), r.(remaining := |chunk| - k, wire := chunk[k..] + rest))
            && |chunk[k..] + rest| < |r.wire|
  {
    CutFront(chunk, Min(|chunk|, n), rest);
  }

  /** The first read of all, into the hello. */
  lemma HelloRead(role: Role, f: Fill, r: Reader, n: nat, chunk: seq<byte>, chunks: seq<seq<byte>>)
    returns (chunk': seq<byte>, chunks': seq<seq<byte>>)
    requires Filled(f) && Carries(role, f, r, chunk, chunks) && !r.helloReceived && n > 0
    ensures var (got, after) := TakeRead(role, r, n);
            && got.Data? && Carries(role, f, after, chunk', chunks')
            && got.octets + (chunk' + Concat(chunks')) == chunk + Concat(chunks)
            && |after.wire| < |r.wire|
  {
    hide TakeRecord, SkipName, NameBlock, ClientPrelude, ServerPrelude, Frame, Framed, Be16, DefaultHost;
    var k := Min(|chunk|, n);
    chunk', chunks' := chunk[k..], chunks;
    var pre := if role.Client? then ClientPrelude(f, |HostOf(role)|, |chunk|) else ServerPrelude(f);
    var rest := if role.Client? then NameBlock(HostOf(role)) + Framed(chunks) else Framed(chunks);
    HelloParts(role, f, chunk, Framed(chunks));
    HeaderRead(r.(helloReceived := true), n, pre, chunk, rest);
    CutFront(chunk, k, Concat(chunks));
    Assoc(chunk[..k], chunk[k..], Concat(chunks));
  }

  lemma HelloParts(role: Role, f: Fill, chunk: seq<byte>, more: seq<byte>)
    requires Filled(f)
    ensures Hello(role, f, chunk) + more ==
              (if role.Client? then ClientPrelude(f, |HostOf(role)|, |chunk|) else ServerPrelude(f))
              + (Be16(|chunk|) + (chunk + (if role.Client? then NameBlock(HostOf(role)) + more else more)))
  {
    hide NameBlock, ClientPrelude, ServerPrelude, Be16, DefaultHost;
    var pre := if role.Client? then ClientPrelude(f, |HostOf(role)|, |chunk|) else ServerPrelude(f);
    var block := if role.Client? then NameBlock(HostOf(role)) else [];
    AppendNothing(chunk);
    AppendNothing(more);
    Assoc(pre, Be16(|chunk|) + (chunk + block), more);
    Assoc(Be16(|chunk|), chunk + block, more);
    Assoc(chunk, block, more);
  }

  /** A read between chunks: the server name is skipped if it is still there; with no chunk to come, it waits. */
  lemma BoundaryRead(role: Role, f: Fill, r: Reader, n: nat, chunks: seq<seq<byte>>)
    returns (chunk': seq<byte>, chunks': seq<seq<byte>>)
    requires Filled(f) && Carries(role, f, r, [], chunks) && |HostOf(role)| < 0x1_0000
    requires r.helloReceived && r.remaining == 0 && n > 0
    ensures var (got, after) := TakeRead(role, r, n);
            if chunks == [] then got.Short?
            else
              && got.Data? && Carries(role, f, after, chunk', chunks')
              && got.octets + (chunk' + Concat(chunks')) == Concat(chunks)
              && |after.wire| < |r.wire|
  {
    hide SkipName, NameBlock, Frame, Be16, DefaultHost;
    chunk', chunks' := [], [];
    AppendNothing(Framed(chunks));
    AppendNothing(NameBlock(HostOf(role)) + Framed(chunks));
    if role.Client? && !r.nameSkipped {
      NameSkipped(r.(nameSkipped := true), HostOf(role), Framed(chunks));
    }
    if chunks != [] {
      ChunkRead(r.(nameSkipped := r.nameSkipped || role.Client?, wire := Framed(chunks)), n, chunks);
      var k := Min(|chunks[0]|, n);
      chunk', chunks' := chunks[0][k..], chunks[1..];
      CutFront(chunks[0], k, Concat(chunks'));
      Assoc(chunks[0][..k], chunk', Concat(chunks'));
    }
  }

  /**
   One read hands out the octets next in line and leaves the reader in step, and the
   connection's octets run down; it waits only when nothing written is left.
   */
  lemma ReadStep(role: Role, f: Fill, r: Reader, n: nat, chunk: seq<byte>, chunks: seq<seq<byte>>)
    returns (chunk': seq<byte>, chunks': seq<seq<byte>>)
    requires Filled(f) && Carries(role, f, r, chunk, chunks) && |HostOf(role)| < 0x1_0000 && n > 0
    ensures var (got, after) := TakeRead(role, r, n);
            if got.Short? then chunk == [] && chunks == []
            else
              && Carries(role, f, after, chunk', chunks')
              && got.octets + (chunk' + Concat(chunks')) == chunk + Concat(chunks)
              && |after.wire| < |r.wire|
  {
    hide TakeRecord, SkipName, NameBlock, Frame, Framed, Be16, DefaultHost, Hello;
    if !r.helloReceived {
      chunk', chunks' := HelloRead(role, f, r, n, chunk, chunks);
    } else if r.remaining > 0 {
      var k := Min(|chunk|, n);
      chunk', chunks' := chunk[k..], chunks;
      RestRead(r, n, chunk,
        if role.Client? && !r.nameSkipped then NameBlock(HostOf(role)) + Framed(chunks) else Framed(chunks));
      CutFront(chunk, k, Concat(chunks));
      Assoc(chunk[..k], chunk[k..], Concat(chunks));
    } else {
      chunk', chunks' := BoundaryRead(role, f, r, n, chunks);
      AppendNothing(Concat(chunks));
    }
  }

  /** Reads of the given sizes until one has to wait; whether one had to. */
  function Listen(role: Role, r: Reader, sizes: seq<nat>): (seq<byte>, bool)
    decreases |sizes|
  {
    if sizes == [] then ([], false)
    else
      var (got, after) := TakeRead(role, r, sizes[0]);
      if got.Short? then ([], true)
      else
        var (later, waits) := Listen(role, after, sizes[1..]);
        (got.octets + later, waits)
  }

  lemma {:induction false} ListenHears(role: Role, f: Fill, r: Reader, sizes: seq<nat>, chunk: seq<byte>,
      chunks: seq<seq<byte>>)
    requires Filled(f) && Carries(role, f, r, chunk, chunks) && |HostOf(role)| < 0x1_0000
    requires forall i :: 0 <= i < |sizes| ==> sizes[i] > 0
    ensures var (heard, waits) := Listen(role, r, sizes);
            && heard <= chunk + Concat(chunks)
            && (waits ==> heard == chunk + Concat(chunks))
            && (|sizes| > |r.wire| ==> waits)
    decreases |sizes|
  {
    hide TakeRead, Carries, HostOf;
    if sizes != [] {
      var chunk', chunks' := ReadStep(role, f, r, sizes[0], chunk, chunks);
      var (got, after) := TakeRead(role, r, sizes[0]);
      if got.Short? {
        AppendNothing<byte>([]);
      } else {
        ListenHears(role, f, after, sizes[1..], chunk', chunks');
      }
    }
  }

  /** Everything a writer puts on the connection, its hello first, is one payload and sized chunks. */
  lemma {:induction false} WritesFramed(role: Role, f: Fill, writes: seq<seq<byte>>) returns (chunks: seq<seq<byte>>)
    requires Filled(f)
    ensures AllSized(chunks) && WriteAll(role, f, true, writes) == Framed(chunks) && Concat(chunks) == Concat(writes)
    decreases |writes|
  {
    chunks := [];
    if writes != [] {
      var later := WritesFramed(role, f, writes[1..]);
      chunks := Chunks(writes[0]) + later;
      FramedAppend(Chunks(writes[0]), later);
      ConcatAppend(Chunks(writes[0]), later);
      ChunksJoin(writes[0]);
    }
  }

  /**
   The pipe theorem, for both directions: whatever is written in whatever pieces, reads of
   any positive sizes hear a prefix of it, and all of it before any read has to wait.
   */
  lemma PipeRefines(role: Role, f: Fill, writes: seq<seq<byte>>, sizes: seq<nat>)
    requires Filled(f) && |HostOf(role)| < 0x1_0000
    requires forall i :: 0 <= i < |sizes| ==> sizes[i] > 0
    ensures var wire := WriteAll(role, f, false, writes);
            var (heard, waits) := Listen(role, Reader(0, false, false, wire), sizes);
            && heard <= Concat(writes)
            && (waits ==> heard == Concat(writes))
            && (|sizes| > |wire| ==> waits)
  {
    hide NameBlock, ClientPrelude, ServerPrelude, Frame, DefaultHost, Be16;
    var wire := WriteAll(role, f, false, writes);
    if writes == [] {
      assert sizes != [] ==> TakeRead(role, Reader(0, false, false, []), sizes[0]).0.Short?;
    } else {
      var p := writes[0];
      var n := Min(|p|, FirstLen(role));
      var later := WritesFramed(role, f, writes[1..]);
      var chunks := Chunks(p[n..]) + later;
      FirstWire(role, f, p, n, later);
      assert AllSized(chunks);
      FramedAppend(Chunks(p[n..]), later);
      ConcatAppend(Chunks(p[n..]), later);
      ChunksJoin(p[n..]);
      CutFront(p, n, Concat(later));
      Assoc(p[..n], p[n..], Concat(later));
      ListenHears(role, f, Reader(0, false, false, wire), sizes, p[..n], chunks);
    }
  }

  lemma FirstWire(role: Role, f: Fill, p: seq<byte>, n: nat, later: seq<seq<byte>>)
    requires Filled(f) && n == Min(|p|, FirstLen(role))
    ensures WriteBytes(role, f, false, p) + Framed(later) ==
            Hello(role, f, p[..n]) + (Framed(Chunks(p[n..])) + Framed(later))
  {
    Assoc(Hello(role, f, p[..n]), Framed(Chunks(p[n..])), Framed(later));
  }

  // ------------------------------------------------------------ the program

  /**
   tlsObfsClientConn and tlsObfsServerConn: role is how this end writes, peer how the
   other end does. wire is what the connection still has to give, sent what was put on it.
   */
  class Conn {
    const role: Role
    const peer: Role
    var helloSent: bool
    var sent: seq<byte>
    var remaining: nat
    var helloReceived: bool
    var nameSkipped: bool
    var wire: seq<byte>

    function State(): Reader
      reads this
    {
      Reader(remaining, helloReceived, nameSkipped, wire)
    }

    constructor (role: Role, peer: Role, wire: seq<byte>)
      ensures this.role == role && this.peer == peer
      ensures State() == Reader(0, false, false, wire) && sent == [] && !helloSent
    {
      this.role, this.peer, this.wire := role, peer, wire;
      helloSent, sent, remaining, helloReceived, nameSkipped := false, [], 0, false, false;
    }

    /** appendRecords: all of p, in records of at most 0x4000 octets. */
    static method AppendRecords(out: seq<byte>, p: seq<byte>) returns (r: seq<byte>)
      ensures r == out + Framed(Chunks(p))
    {
      hide Frame;
      r := out;
      AppendNothing(out);
      var rest := p;
      while |rest| > 0
        invariant r + Framed(Chunks(rest)) == out + Framed(Chunks(p))
        decreases |rest|
      {
        var n := Min(|rest|, RECORD_PAYLOAD_LEN);
        SplitAppend([rest[..n]], Chunks(rest[n..]));
        Assoc(r, Frame(rest[..n]), Framed(Chunks(rest[n..])));
        r := r + Frame(rest[..n]);
        rest := rest[n..];
      }
      AppendNothing(r);
    }

    method Write(p: seq<byte>, f: Fill)
      requires Filled(f)
      modifies `helloSent, `sent
      ensures helloSent && sent == old(sent) + WriteBytes(role, f, old(helloSent), p)
    {
      hide ClientHello, ServerPrelude, DefaultHost, Framed;
      var out;
      if helloSent {
        out := AppendRecords([], p);
        AppendNothing(out);
        sent := sent + out;
        return;
      }
      helloSent := true;
      var payload := if |p| > FirstLen(role) then p[..FirstLen(role)] else p;
      assert payload == p[..Min(|p|, FirstLen(role))];
      out := AppendRecords(Hello(role, f, payload), p[|payload|..]);
      sent := sent + out;
    }

    method ReadRecord(n: nat, headerLen: nat) returns (got: Got)
      requires headerLen >= 2
      modifies `remaining, `wire
      ensures (got, State()) == TakeRecord(old(State()), n, headerLen)
    {
      if remaining > 0 {
        var k := Min(remaining, n);
        if |wire| < k {
          return Short;
        }
        got := Data(wire[..k]);
        remaining, wire := remaining - k, wire[k..];
        return;
      }
      if |wire| < headerLen {
        return Short;
      }
      var payloadLen := FromBe16(wire, headerLen - 2);
      var k := Min(payloadLen, n);
      if |wire[headerLen..]| < k {
        return Short;
      }
      got := Data(wire[headerLen..][..k]);
      remaining, wire := payloadLen - k, wire[headerLen..][k..];
    }

    method Read(n: nat) returns (got: Got)
      modifies `remaining, `wire, `helloReceived, `nameSkipped
      ensures (got, State()) == TakeRead(peer, old(State()), n)
    {
      if n == 0 {
        return Data([]);
      }
      if !helloReceived {
        helloReceived := true;
        got := ReadRecord(n, if peer.Client? then CLIENT_HELLO_PAYLOAD_OFFSET else SERVER_HELLO_PAYLOAD_OFFSET);
        return;
      }
      if peer.Client? && !nameSkipped && remaining == 0 {
        nameSkipped := true;
        var skipped := SkipName(State());
        if skipped.None? {
          return Short;
        }
        wire := skipped.value.wire;
      }
      got := ReadRecord(n, RECORD_HEADER_LEN);
    }
  }
}
