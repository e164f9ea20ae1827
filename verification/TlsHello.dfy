/**
 What an observer sees of the TLS-looking obfuscation (obfs.go): parsed by the lengths it
 states about itself, the stream is a sequence of TLS records, and the ClientHello's nested
 lengths count exactly the octets that follow them.
 */
module TlsHello {
  import opened Bytes
  import opened TlsObfs

  const MAX_FRAGMENT := 0x4000 // section 6.2.1 of RFC 5246

  datatype Record = Record(kind: byte, fragment: seq<byte>)

  /** A stream taken apart into records by their own lengths (section 6.2.1 of RFC 5246). */
  function ParseRecords(s: seq<byte>): Option<seq<Record>>
    decreases |s|
  {
    if s == [] then Some([])
    else if |s| < 5 then None
    else
      var n := FromBe16(s, 3);
      if |s| < 5 + n then None
      else
        var rest := ParseRecords(s[5 + n..]);
        if rest.None? then None else Some([Record(s[0], s[5..5 + n])] + rest.value)
  }

  datatype Extension = Extension(kind: uint16, body: seq<byte>)

  /** An extension block, taken apart by its own lengths (section 7.4.1.4 of RFC 5246). */
  function ParseExtensions(s: seq<byte>): Option<seq<Extension>>
    decreases |s|
  {
    if s == [] then Some([])
    else if |s| < 4 then None
    else
      var n := FromBe16(s, 2);
      if |s| < 4 + n then None
      else
        var rest := ParseExtensions(s[4 + n..]);
        if rest.None? then None else Some([Extension(FromBe16(s, 0), s[4..4 + n])] + rest.value)
  }

  /** A server name extension's one host name (section 3 of RFC 6066). */
  function ParseServerName(s: seq<byte>): Option<seq<byte>>
  {
    if |s| >= 5 && FromBe16(s, 0) == |s| - 2 && s[2] == 0 && FromBe16(s, 3) == |s| - 5 then Some(s[5..]) else None
  }

  // ------------------------------------------------------------ extensions

  function Ext(kind: seq<byte>, body: seq<byte>): seq<byte> { kind + (Be16(|body|) + body) }

  lemma PairRead(n: nat, pre: seq<byte>, rest: seq<byte>)
    ensures var s := pre + (Be16(n) + rest); FromBe16(s, |pre|) == n % 0x1_0000 && s[|pre| + 2..] == rest
  {
    Be16RoundTrip(n);
    var s := pre + (Be16(n) + rest);
    assert s[|pre|] == Be16(n)[0] && s[|pre| + 1] == Be16(n)[1];
  }

  lemma ParseFirstExtension(s: seq<byte>, n: nat, body: seq<byte>, rest: seq<byte>)
    requires |s| >= 4 + n && FromBe16(s, 2) == n && s[4..4 + n] == body && s[4 + n..] == rest
    ensures ParseExtensions(s) ==
            if ParseExtensions(rest).None? then None
              else Some([Extension(FromBe16(s, 0), body)] + ParseExtensions(rest).value)
  {
    hide FromBe16;
  }

  lemma OneExtension(kind: seq<byte>, body: seq<byte>, rest: seq<byte>)
    requires |kind| == 2 && |body| < 0x1_0000
    ensures ParseExtensions(Ext(kind, body) + rest) ==
            if ParseExtensions(rest).None? then None
              else Some([Extension(FromBe16(kind, 0), body)] + ParseExtensions(rest).value)
  {
    hide Be16, ParseExtensions;
    Assoc(kind, Be16(|body|) + body, rest);
    Assoc(Be16(|body|), body, rest);
    PairRead(|body|, kind, body + rest);
    var s := kind + (Be16(|body|) + (body + rest));
    assert s[4..] == body + rest && s[0] == kind[0] && s[1] == kind[1];
    assert s[4..4 + |body|] == s[4..][..|body|] && s[4 + |body|..] == s[4..][|body|..];
    SplitAppend(body, rest);
    ParseFirstExtension(s, |body|, body, rest);
  }

  function FixedExtensions(): seq<Extension>
  {
    [Extension(0x0b, PointFormats())] + ([Extension(0x0a, Groups())] + ([Extension(0x0d, SignatureAlgorithms())]
    + ([Extension(0x16, [])] + ([Extension(0x17, [])] + []))))
  }

  lemma ExtIs(a: byte, b: byte, c: byte, d: byte, body: seq<byte>)
    requires Be16(|body|) == [c, d]
    ensures [a, b, c, d] + body == Ext([a, b], body)
  {
    assert [a, b, c, d] == [a, b] + [c, d];
    Assoc([a, b], [c, d], body);
  }

  lemma TrailerIs()
    ensures Trailer() ==
            Ext([0x00, 0x0b], PointFormats()) + (Ext([0x00, 0x0a], Groups()) + (Ext([0x00, 0x0d], SignatureAlgorithms())
                         + (Ext([0x00, 0x16], []) + Ext([0x00, 0x17], []))))
  {
    hide PointFormats, Groups, SignatureAlgorithms, Ext;
    ExtIs(0x00, 0x0b, 0x00, 0x04, PointFormats());
    ExtIs(0x00, 0x0a, 0x00, 0x0a, Groups());
    ExtIs(0x00, 0x0d, 0x00, 0x20, SignatureAlgorithms());
    ExtIs(0x00, 0x16, 0x00, 0x00, []);
    ExtIs(0x00, 0x17, 0x00, 0x00, []);
    AppendNothing<byte>([0x00, 0x16, 0x00, 0x00]);
    AppendNothing<byte>([0x00, 0x17, 0x00, 0x00]);
  }

  lemma TrailerParses()
    ensures ParseExtensions(Trailer()) == Some(FixedExtensions())
  {
    hide Ext, PointFormats, Groups, SignatureAlgorithms, ParseExtensions, Trailer;
    TrailerIs();
    var e17, e16 := Ext([0x00, 0x17], []), Ext([0x00, 0x16], []);
    var e0d, e0a := Ext([0x00, 0x0d], SignatureAlgorithms()), Ext([0x00, 0x0a], Groups());
    AppendNothing(e17);
    NoExtensions();
    OneExtension([0x00, 0x17], [], []);
    OneExtension([0x00, 0x16], [], e17);
    OneExtension([0x00, 0x0d], SignatureAlgorithms(), e16 + e17);
    OneExtension([0x00, 0x0a], Groups(), e0d + (e16 + e17));
    OneExtension([0x00, 0x0b], PointFormats(), e0a + (e0d + (e16 + e17)));
  }

  lemma NoExtensions()
    ensures ParseExtensions([]) == Some([])
  {
  }

  /** The server name extension's body. */
  function ServerName(host: seq<byte>): seq<byte> { Be16(|host| + 3) + ([0x00] + (Be16(|host|) + host)) }

  lemma ServerNameParses(host: seq<byte>)
    requires |host| + 5 < 0x1_0000
    ensures |ServerName(host)| == |host| + 5 && ParseServerName(ServerName(host)) == Some(host)
  {
    Be16RoundTrip(|host| + 3);
    Be16RoundTrip(|host|);
    var s := ServerName(host);
    assert s[3] == Be16(|host|)[0] && s[4] == Be16(|host|)[1] && s[5..] == host;
  }

  lemma NameBlockIs(host: seq<byte>)
    requires |host| + 5 < 0x1_0000
    ensures NameBlock(host) == Ext([0x00, 0x00], ServerName(host)) + Trailer()
  {
    hide Be16, Trailer;
    ServerNameParses(host);
    var b, c, d := Be16(|host| + 5), Be16(|host| + 3), Be16(|host|);
    var z: seq<byte> := [0x00, 0x00];
    Assoc(c, [0x00], d + host);
    Assoc(d, host, Trailer());
    Assoc(b, c + [0x00], d + host);
    Assoc(z, b + (c + [0x00]), d + host);
    Assoc(z + (b + (c + [0x00])), d + host, Trailer());
  }

  function HelloExtensions(host: seq<byte>, payload: seq<byte>): seq<Extension>
  {
    [Extension(0x23, payload)] + ([Extension(0x00, ServerName(host))] + FixedExtensions())
  }

  lemma BlockParses(host: seq<byte>, payload: seq<byte>)
    requires |host| + 5 < 0x1_0000 && |payload| < 0x1_0000
    ensures ParseExtensions(Ext([0x00, 0x23], payload) + NameBlock(host)) == Some(HelloExtensions(host, payload))
  {
    hide Ext, Trailer, ServerName, ParseExtensions, NameBlock, FixedExtensions;
    NameBlockIs(host);
    TrailerParses();
    ServerNameParses(host);
    OneExtension([0x00, 0x00], ServerName(host), Trailer());
    OneExtension([0x00, 0x23], payload, NameBlock(host));
  }

  // ------------------------------------------------------------ the nested lengths

  lemma HeadFields(h: nat, p: nat, rest: seq<byte>)
    ensures var s := HelloHead(h, p) + rest;
            && s[0] == 0x16 && s[5] == 1 && s[6] == 0 && s[9..] == rest && s[..9] == HelloHead(h, p)
            && FromBe16(s, 3) == (CLIENT_RECORD_OVERHEAD + h + p) % 0x1_0000
            && FromBe16(s, 7) == (CLIENT_HANDSHAKE_OVERHEAD + h + p) % 0x1_0000
  {
    Be16RoundTrip(CLIENT_RECORD_OVERHEAD + h + p);
    Be16RoundTrip(CLIENT_HANDSHAKE_OVERHEAD + h + p);
    var s := HelloHead(h, p);
    var r, m := Be16(CLIENT_RECORD_OVERHEAD + h + p), Be16(CLIENT_HANDSHAKE_OVERHEAD + h + p);
    assert s[3] == r[0] && s[4] == r[1] && s[7] == m[0] && s[8] == m[1];
    SplitAppend(s, rest);
  }

  lemma HelloRegrouped(f: Fill, host: seq<byte>, payload: seq<byte>)
    requires Filled(f)
    ensures ClientHello(f, host, payload) ==
              HelloHead(|host|, |payload|) + (HelloMiddle(f) + (Be16(CLIENT_EXTENSIONS_OVERHEAD + |host| + |payload|)
              + (Ext([0x00, 0x23], payload) + NameBlock(host))))
  {
    hide HelloHead, HelloMiddle, Be16, NameBlock;
    var a, m, e := HelloHead(|host|, |payload|), HelloMiddle(f), Be16(CLIENT_EXTENSIONS_OVERHEAD + |host| + |payload|);
    var k: seq<byte> := [0x00, 0x23];
    var l, block := Be16(|payload|), NameBlock(host);
    var tail := l + (payload + block);
    Assoc(a, m + (e + k), tail);
    Assoc(m, e + k, tail);
    Assoc(e, k, tail);
    Assoc(l, payload, block);
    Assoc(k, l + payload, block);
  }

  /** A ticket and a name that leave every length inside its 16 bits. */
  predicate LengthsFit(host: seq<byte>, payload: seq<byte>) { CLIENT_RECORD_OVERHEAD + |host| + |payload| < 0x1_0000 }

  /**
   The record, the handshake message and the extensions each count exactly the octets that
   follow their own length, and the extensions parse to the ticket with the payload, the
   server name with the host, and the fixed ones.
   */
  lemma HelloWellFormed(f: Fill, host: seq<byte>, payload: seq<byte>)
    requires Filled(f) && LengthsFit(host, payload)
    ensures var s := ClientHello(f, host, payload);
            && |s| == CLIENT_HELLO_OVERHEAD + |host| + |payload|
            && s[0] == 0x16 && FromBe16(s, 3) == |s| - 5
            && s[5] == 1 && s[6] == 0 && FromBe16(s, 7) == |s| - 9
            && FromBe16(s, 136) == |s| - 138
            && ParseExtensions(s[138..]) == Some(HelloExtensions(host, payload))
            && ParseServerName(ServerName(host)) == Some(host)
  {
    hide HelloHead, HelloMiddle, Be16, NameBlock, FromBe16, ParseExtensions, HelloExtensions, ServerName,
      ParseServerName, ClientHello;
    HelloRegrouped(f, host, payload);
    var s := ClientHello(f, host, payload);
    var block := Ext([0x00, 0x23], payload) + NameBlock(host);
    var n := CLIENT_EXTENSIONS_OVERHEAD + |host| + |payload|;
    HeadFields(|host|, |payload|, HelloMiddle(f) + (Be16(n) + block));
    Assoc(HelloHead(|host|, |payload|), HelloMiddle(f), Be16(n) + block);
    PairRead(n, HelloHead(|host|, |payload|) + HelloMiddle(f), block);
    BlockParses(host, payload);
    ServerNameParses(host);
  }

  /** The stated record length is right exactly when it fits, and the record is
      within bounds exactly for hosts this short. */
  lemma HelloLengthIff(f: Fill, host: seq<byte>, payload: seq<byte>)
    requires Filled(f)
    ensures var s := ClientHello(f, host, payload);
            && (FromBe16(s, 3) == |s| - 5 <==> LengthsFit(host, payload))
            && (|s| - 5 <= MAX_FRAGMENT <==> |host| + |payload| <= 16172)
  {
    hide HelloHead, HelloMiddle, NameBlock, FromBe16, ClientHello;
    HelloRegrouped(f, host, payload);
    var n := CLIENT_EXTENSIONS_OVERHEAD + |host| + |payload|;
    HeadFields(|host|, |payload|, HelloMiddle(f) + (Be16(n) + (Ext([0x00, 0x23], payload) + NameBlock(host))));
  }

  // ------------------------------------------------------------ the stream of records

  lemma FromFive(s: seq<byte>, fragment: seq<byte>, rest: seq<byte>)
    requires |s| >= 5 && s[5..] == fragment + rest
    ensures |s| >= 5 + |fragment| && s[5..5 + |fragment|] == fragment && s[5 + |fragment|..] == rest
  {
    assert s[5..5 + |fragment|] == s[5..][..|fragment|] && s[5 + |fragment|..] == s[5..][|fragment|..];
  }

  lemma ParseFirst(s: seq<byte>, n: nat, fragment: seq<byte>, rest: seq<byte>)
    requires |s| >= 5 + n && FromBe16(s, 3) == n && s[5..5 + n] == fragment && s[5 + n..] == rest
    ensures ParseRecords(s) ==
            if ParseRecords(rest).None? then None
            else Some([Record(s[0], fragment)] + ParseRecords(rest).value)
  {
    hide FromBe16;
  }

  lemma OneRecord(head: seq<byte>, fragment: seq<byte>, rest: seq<byte>)
    requires |head| == 3 && |fragment| < 0x1_0000
    ensures ParseRecords(head + (Be16(|fragment|) + (fragment + rest))) ==
            if ParseRecords(rest).None? then None else Some([Record(head[0], fragment)] + ParseRecords(rest).value)
  {
    hide Be16, FromBe16, ParseRecords;
    PairRead(|fragment|, head, fragment + rest);
    var s := head + (Be16(|fragment|) + (fragment + rest));
    FromFive(s, fragment, rest);
    assert s[0] == head[0];
    ParseFirst(s, |fragment|, fragment, rest);
  }

  function DataRecords(chunks: seq<seq<byte>>): seq<Record>
  {
    if chunks == [] then [] else [Record(0x17, chunks[0])] + DataRecords(chunks[1..])
  }

  lemma {:induction false} ChunksParse(chunks: seq<seq<byte>>)
    requires AllSized(chunks)
    ensures ParseRecords(Framed(chunks)) == Some(DataRecords(chunks))
  {
    if chunks != [] {
      assert ChunkSized(chunks[0]);
      ChunksParse(chunks[1..]);
      FrameParts(chunks[0], Framed(chunks[1..]));
      OneRecord([0x17, 0x03, 0x03], chunks[0], Framed(chunks[1..]));
    }
  }

  predicate AllFragmentsFit(records: seq<Record>) {
    forall i :: 0 <= i < |records| ==> |records[i].fragment| <= MAX_FRAGMENT
  }

  lemma {:induction false} DataRecordsFit(chunks: seq<seq<byte>>)
    requires AllSized(chunks)
    ensures AllFragmentsFit(DataRecords(chunks))
  {
    if chunks != [] {
      assert ChunkSized(chunks[0]);
      DataRecordsFit(chunks[1..]);
    }
  }

  /** The client's whole stream: one handshake record holding the ClientHello, then application data, none too long. */
  lemma ClientStreamParses(f: Fill, host: seq<byte>, payload: seq<byte>, chunks: seq<seq<byte>>)
    requires Filled(f) && LengthsFit(host, payload) && AllSized(chunks)
    ensures var hello := ClientHello(f, host, payload);
            && ParseRecords(hello + Framed(chunks)) == Some([Record(0x16, hello[5..])] + DataRecords(chunks))
            && (|host| + |payload| <= 16172 ==> AllFragmentsFit([Record(0x16, hello[5..])] + DataRecords(chunks)))
  {
    hide HelloHead, HelloMiddle, NameBlock, FromBe16, ClientHello, ParseRecords, ParseExtensions, ServerName, Be16,
      DataRecords;
    var hello := ClientHello(f, host, payload);
    HelloSplit(f, host, payload);
    ChunksParse(chunks);
    DataRecordsFit(chunks);
    HelloLengthIff(f, host, payload);
    var head: seq<byte> := [0x16, 0x03, 0x01];
    Assoc(head, Be16(|hello| - 5) + hello[5..], Framed(chunks));
    Assoc(Be16(|hello| - 5), hello[5..], Framed(chunks));
    OneRecord(head, hello[5..], Framed(chunks));
  }

  lemma HelloSplit(f: Fill, host: seq<byte>, payload: seq<byte>)
    requires Filled(f) && LengthsFit(host, payload)
    ensures var hello := ClientHello(f, host, payload);
            |hello| == CLIENT_HELLO_OVERHEAD + |host| + |payload|
              && hello == [0x16, 0x03, 0x01] + (Be16(|hello| - 5) + hello[5..])
  {
    hide HelloMiddle, Be16, NameBlock, ClientHello;
    HelloRegrouped(f, host, payload);
    var hello := ClientHello(f, host, payload);
    assert hello[..5] == [0x16, 0x03, 0x01] + Be16(|hello| - 5);
    assert hello == hello[..5] + hello[5..];
    Assoc([0x16, 0x03, 0x01], Be16(|hello| - 5), hello[5..]);
  }

  /** The server's stream: a handshake record of 91 octets, a change of cipher spec, a
      record with the first payload, application data. */
  lemma ServerStreamParses(f: Fill, payload: seq<byte>, chunks: seq<seq<byte>>)
    requires Filled(f) && |payload| <= RECORD_PAYLOAD_LEN && AllSized(chunks)
    ensures var s := Hello(Server, f, payload) + Framed(chunks);
            var records := [Record(0x16, s[5..96])]
              + ([Record(0x14, [0x01])] + ([Record(0x16, payload)] + DataRecords(chunks)));
            ParseRecords(s) == Some(records) && AllFragmentsFit(records)
  {
    hide ParseRecords, DataRecords, FromBe16;
    ChunksParse(chunks);
    DataRecordsFit(chunks);
    var third := [0x16, 0x03, 0x03] + (Be16(|payload|) + (payload + Framed(chunks)));
    OneRecord([0x16, 0x03, 0x03], payload, Framed(chunks));
    OneRecord([0x14, 0x03, 0x03], [0x01], third);
    ServerRegrouped(f, payload, Framed(chunks));
    var s := Hello(Server, f, payload) + Framed(chunks);
    OneRecord([0x16, 0x03, 0x01], s[5..96], [0x14, 0x03, 0x03] + (Be16(1) + ([0x01] + third)));
  }

  lemma ServerRegrouped(f: Fill, payload: seq<byte>, more: seq<byte>)
    requires Filled(f)
    ensures var s := Hello(Server, f, payload) + more;
            |s| >= 96 && s == [0x16, 0x03, 0x01] + (Be16(91) + (s[5..96] + ([0x14, 0x03, 0x03] + (Be16(1) + ([0x01]
                 + ([0x16, 0x03, 0x03] + (Be16(|payload|) + (payload + more))))))))
  {
  }

  // ------------------------------------------------------------ whole streams

  /** What is written parses to records of at most 2^14 octets. */
  predicate StreamFits(role: Role, f: Fill, writes: seq<seq<byte>>)
    requires Filled(f)
  {
    var records := ParseRecords(WriteAll(role, f, false, writes));
    records.Some? && AllFragmentsFit(records.value)
  }

  /** What stands behind the hello: the rest of the first write, and the others. */
  lemma HelloAndChunks(role: Role, f: Fill, writes: seq<seq<byte>>) returns (chunks: seq<seq<byte>>)
    requires Filled(f) && writes != []
    ensures AllSized(chunks)
    ensures var n := Min(|writes[0]|, FirstLen(role));
            WriteAll(role, f, false, writes) == Hello(role, f, writes[0][..n]) + Framed(chunks)
  {
    hide Hello, Chunks, Framed;
    var p := writes[0];
    var n := Min(|p|, FirstLen(role));
    var later := WritesFramed(role, f, writes[1..]);
    FirstWire(role, f, p, n, later);
    FramedAppend(Chunks(p[n..]), later);
    chunks := Chunks(p[n..]) + later;
  }

  /** Every server's stream does. */
  lemma ServerStreamFits(f: Fill, writes: seq<seq<byte>>)
    requires Filled(f)
    ensures StreamFits(Server, f, writes)
  {
    hide ParseRecords, Hello;
    if writes == [] {
      NoRecords();
    } else {
      var chunks := HelloAndChunks(Server, f, writes);
      ServerStreamParses(f, writes[0][..Min(|writes[0]|, FirstLen(Server))], chunks);
    }
  }

  lemma NoRecords()
    ensures ParseRecords([]) == Some([])
  {
  }

  /** A client's does whatever it writes, if and only if its host has at most 15148 octets. */
  lemma ClientStreamFitsIff(f: Fill, host: seq<byte>)
    requires Filled(f) && LengthsFit(host, Zeros(CLIENT_HELLO_PAYLOAD_LEN))
    ensures (forall writes :: StreamFits(Client(host), f, writes)) <==> |host| <= 15148
  {
    hide StreamFits;
    if |host| <= 15148 {
      forall writes ensures StreamFits(Client(host), f, writes) {
        ClientStreamFits(f, host, writes);
      }
    } else {
      LongHostIsTooLong(f, host);
    }
  }

  lemma ClientStreamFits(f: Fill, host: seq<byte>, writes: seq<seq<byte>>)
    requires Filled(f) && |host| <= 15148
    ensures StreamFits(Client(host), f, writes)
  {
    hide ParseRecords, ClientHello;
    if writes == [] {
      NoRecords();
    } else {
      var chunks := HelloAndChunks(Client(host), f, writes);
      ClientStreamParses(f, HostOf(Client(host)), writes[0][..Min(|writes[0]|, FirstLen(Client(host)))], chunks);
    }
  }

  lemma LongHostIsTooLong(f: Fill, host: seq<byte>)
    requires Filled(f) && LengthsFit(host, Zeros(CLIENT_HELLO_PAYLOAD_LEN)) && |host| > 15148
    ensures !StreamFits(Client(host), f, [Zeros(CLIENT_HELLO_PAYLOAD_LEN)])
  {
    hide ParseRecords, ClientHello;
    var p := Zeros(CLIENT_HELLO_PAYLOAD_LEN);
    assert p[..|p|] == p;
    var chunks := HelloAndChunks(Client(host), f, [p]);
    ClientStreamParses(f, host, p, chunks);
    HelloLengthIff(f, host, p);
    var records := [Record(0x16, ClientHello(f, host, p)[5..])] + DataRecords(chunks);
    assert records[0].fragment == ClientHello(f, host, p)[5..];
  }
}
