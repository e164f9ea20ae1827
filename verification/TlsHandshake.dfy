/**
 The handshake messages of the TLS-looking obfuscation (obfs.go), walked field by field by
 the lengths they state about themselves (section 7.4.1 of RFC 5246).
 */
module TlsHandshake {
  import opened Bytes
  import opened TlsObfs
  import opened TlsHello

  datatype Vector = Vector(body: seq<byte>, rest: seq<byte>)

  /** A vector with a length of one octet, and one with a length of two. */
  function Vector1(s: seq<byte>): Option<Vector>
  {
    if |s| < 1 || |s| < 1 + s[0] as int then None else Some(Vector(s[1..1 + s[0] as int], s[1 + s[0] as int..]))
  }

  function Vector2(s: seq<byte>): Option<Vector>
  {
    if |s| < 2 || |s| < 2 + FromBe16(s, 0) then None
    else Some(Vector(s[2..2 + FromBe16(s, 0)], s[2 + FromBe16(s, 0)..]))
  }

  datatype Message = Message(kind: byte, body: seq<byte>)

  /** A record's fragment that holds one handshake message, with its 24-bit length. */
  function ParseMessage(s: seq<byte>): Option<Message>
  {
    if |s| >= 4 && s[1] as int * 0x1_0000 + FromBe16(s, 2) == |s| - 4 then Some(Message(s[0], s[4..])) else None
  }

  datatype HelloFields = HelloFields(
    version: seq<byte>,
    random: seq<byte>,
    sessionId: seq<byte>,
    cipherSuites: seq<byte>,
    compressions: seq<byte>,
    extensions: seq<Extension>
  )

  function ParseClientHello(body: seq<byte>): Option<HelloFields>
  {
    if |body| < 34 then None
    else
      var session := Vector1(body[34..]);
      if session.None? then None
      else
        var suites := Vector2(session.value.rest);
        if suites.None? || |suites.value.body| % 2 != 0 then None
        else
          var methods := Vector1(suites.value.rest);
          if methods.None? then None
          else
            var block := Vector2(methods.value.rest);
            if block.None? || block.value.rest != [] then None
            else
              var extensions := ParseExtensions(block.value.body);
              if extensions.None? then None
              else Some(HelloFields(body[..2], body[2..34], session.value.body, suites.value.body, methods.value.body,
                                    extensions.value))
  }

  /** Version and random, session id, cipher suite, compression method, and extensions that fill what is left. */
  function ParseServerHello(body: seq<byte>): Option<HelloFields>
  {
    if |body| < 34 then None
    else
      var session := Vector1(body[34..]);
      if session.None? || |session.value.rest| < 3 then None
      else
        var block := Vector2(session.value.rest[3..]);
        if block.None? || block.value.rest != [] then None
        else
          var extensions := ParseExtensions(block.value.body);
          if extensions.None? then None
          else Some(HelloFields(body[..2], body[2..34], session.value.body, session.value.rest[..2],
                                session.value.rest[2..3], extensions.value))
  }

  // ------------------------------------------------------------ the client's

  lemma Vector1Of(body: seq<byte>, rest: seq<byte>)
    requires |body| < 256
    ensures Vector1([|body|] + (body + rest)) == Some(Vector(body, rest))
  {
    var s := [|body|] + (body + rest);
    assert s[1..] == body + rest;
    assert s[1..1 + |body|] == body && s[1 + |body|..] == rest;
  }

  lemma Vector2Of(body: seq<byte>, rest: seq<byte>)
    requires |body| < 0x1_0000
    ensures Vector2(Be16(|body|) + (body + rest)) == Some(Vector(body, rest))
  {
    Be16RoundTrip(|body|);
    var s := Be16(|body|) + (body + rest);
    assert s[0] == Be16(|body|)[0] && s[1] == Be16(|body|)[1];
    assert s[2..2 + |body|] == body && s[2 + |body|..] == rest;
  }

  /** A client hello's body, put together from its fields. */
  function HelloBody(f: Fill, block: seq<byte>): seq<byte>
    requires Filled(f)
  {
    ([0x03, 0x03] + (f.time + f.random))
    + ([0x20] + (f.sessionId + (Be16(56) + (CipherSuites() + ([0x01] + ([0x00] + (Be16(|block|) + (block + []))))))))
  }

  lemma HelloBodyParses(f: Fill, block: seq<byte>)
    requires Filled(f) && |block| < 0x1_0000
    ensures ParseClientHello(HelloBody(f, block)) ==
            if ParseExtensions(block).None? then None
            else Some(HelloFields([0x03, 0x03], f.time + f.random, f.sessionId, CipherSuites(), [0x00],
              ParseExtensions(block).value))
  {
    hide ParseExtensions, Vector1, Vector2, CipherSuites, Be16;
    var front := [0x03, 0x03] + (f.time + f.random);
    var afterMethods := Be16(|block|) + (block + []);
    var afterSuites := [0x01] + ([0x00] + afterMethods);
    var afterSession := Be16(56) + (CipherSuites() + afterSuites);
    var tail := [0x20] + (f.sessionId + afterSession);
    SplitAppend(front, tail);
    FrontFields(front, tail, f.time + f.random);
    Vector1Of(f.sessionId, afterSession);
    Vector2Of(CipherSuites(), afterSuites);
    Vector1Of([0x00], afterMethods);
    Vector2Of(block, []);
  }

  lemma FrontFields(front: seq<byte>, tail: seq<byte>, random: seq<byte>)
    requires front == [0x03, 0x03] + random && |random| == 32
    ensures (front + tail)[..2] == [0x03, 0x03] && (front + tail)[2..34] == random
  {
  }

  lemma Length56()
    ensures Be16(56) == [0x00, 0x38]
  {
  }

  lemma MiddleIsBody(f: Fill, block: seq<byte>)
    requires Filled(f)
    ensures HelloMiddle(f) + (Be16(|block|) + block) == HelloBody(f, block)
  {
    hide CipherSuites, Be16;
    Length56();
    AppendNothing(block);
    var e := Be16(|block|) + block;
    var a: seq<byte> := [0x03, 0x03];
    var l, z: seq<byte> := [0x20], [0x00, 0x38];
    var m: seq<byte> := [0x01, 0x00];
    assert m == [0x01] + [0x00];
    Assoc([0x01], [0x00], e);
    Assoc(a, f.time, f.random);
    var front := a + (f.time + f.random);
    Assoc(front + l + f.sessionId + z + CipherSuites(), m, e);
    Assoc(front + l + f.sessionId + z, CipherSuites(), m + e);
    Assoc(front + l + f.sessionId, z, CipherSuites() + (m + e));
    Assoc(front + l, f.sessionId, z + (CipherSuites() + (m + e)));
    Assoc(front, l, f.sessionId + (z + (CipherSuites() + (m + e))));
  }

  lemma MessageOf(kind: byte, n: nat, body: seq<byte>)
    requires n == |body| < 0x1_0000
    ensures ParseMessage([kind, 0x00] + (Be16(n) + body)) == Some(Message(kind, body))
  {
    Be16RoundTrip(n);
    var s := [kind, 0x00] + (Be16(n) + body);
    assert s[2] == Be16(n)[0] && s[3] == Be16(n)[1] && s[4..] == body;
  }

  /**
   The ClientHello, walked by its own lengths from the handshake header to the last octet:
   the session id, the cipher suites, the one compression method, and the extensions with
   the payload as ticket and the host as server name, whose own lists fill them exactly.
   */
  lemma ClientHelloParses(f: Fill, host: seq<byte>, payload: seq<byte>)
    requires Filled(f) && LengthsFit(host, payload)
    ensures var message := ParseMessage(ClientHello(f, host, payload)[5..]);
            && message.Some? && message.value.kind == 1
            && ParseClientHello(message.value.body) ==
               Some(HelloFields([0x03, 0x03], f.time + f.random, f.sessionId, CipherSuites(), [0x00],
                 HelloExtensions(host, payload)))
    ensures |CipherSuites()| % 2 == 0
    ensures ParseServerName(ServerName(host)) == Some(host)
    ensures Vector1(PointFormats()) == Some(Vector([0x01, 0x00, 0x02], []))
    ensures Vector2(Groups()).Some? && Vector2(Groups()).value.rest == []
    ensures Vector2(SignatureAlgorithms()).Some? && Vector2(SignatureAlgorithms()).value.rest == []
  {
    hide NameBlock, HelloMiddle, HelloBody, ParseClientHello, ParseExtensions, HelloExtensions, ParseMessage,
      CipherSuites;
    hide PointFormats, Groups, SignatureAlgorithms, ServerName, ParseServerName, HelloHead, ClientHello, Vector1,
      Vector2, Be16;
    var block := Ext([0x00, 0x23], payload) + NameBlock(host);
    var n := CLIENT_EXTENSIONS_OVERHEAD + |host| + |payload|;
    assert |block| == n;
    HelloRegrouped(f, host, payload);
    MiddleIsBody(f, block);
    HelloBodyParses(f, block);
    BlockParses(host, payload);
    ServerNameParses(host);
    InnerLists();
    var body := HelloBody(f, block);
    HeadSplit(|host|, |payload|, body);
    MessageOf(1, CLIENT_HANDSHAKE_OVERHEAD + |host| + |payload|, body);
  }

  lemma HeadSplit(h: nat, p: nat, body: seq<byte>)
    ensures (HelloHead(h, p) + body)[5..] == [0x01, 0x00] + (Be16(CLIENT_HANDSHAKE_OVERHEAD + h + p) + body)
  {
    hide Be16;
    var r, m := Be16(CLIENT_RECORD_OVERHEAD + h + p), Be16(CLIENT_HANDSHAKE_OVERHEAD + h + p);
    var t: seq<byte> := [0x16, 0x03, 0x01];
    var k: seq<byte> := [0x01, 0x00];
    Assoc(t, r, k + m);
    SplitAppend(t + r, k + m);
    Assoc(t + r, k + m, body);
    Assoc(k, m, body);
    SplitAppend(t + r, k + m + body);
  }

  lemma InnerLists()
    ensures Vector1(PointFormats()) == Some(Vector([0x01, 0x00, 0x02], []))
    ensures Vector2(Groups()).Some? && Vector2(Groups()).value.rest == []
    ensures Vector2(SignatureAlgorithms()).Some? && Vector2(SignatureAlgorithms()).value.rest == []
  {
    assert PointFormats()[1..4] == [0x01, 0x00, 0x02];
    assert SignatureAlgorithms()[0] == 0x00 && SignatureAlgorithms()[1] == 0x1e;
  }

  // ------------------------------------------------------------ the server's

  /** The extensions at the end of the fake ServerHello. */
  function ServerExtensions(): (s: seq<byte>)
    ensures |s| == 15
  {
    [0xff, 0x01, 0x00, 0x01, 0x00] + ([0x00, 0x17, 0x00, 0x00] + [0x00, 0x0b, 0x00, 0x02, 0x01, 0x00])
  }

  lemma ServerExtensionsParse()
    ensures ParseExtensions(ServerExtensions()) ==
            Some([Extension(0xff01, [0x00])] + ([Extension(0x17, [])] + [Extension(0x0b, [0x01, 0x00])]))
  {
    hide ParseExtensions;
    var a, b, c := Ext([0xff, 0x01], [0x00]), Ext([0x00, 0x17], []), Ext([0x00, 0x0b], [0x01, 0x00]);
    assert a == [0xff, 0x01, 0x00, 0x01, 0x00] && b == [0x00, 0x17, 0x00, 0x00]
      && c == [0x00, 0x0b, 0x00, 0x02, 0x01, 0x00];
    NoExtensions();
    AppendNothing(c);
    AppendNothing([Extension(0x0b, [0x01, 0x00])]);
    OneExtension([0x00, 0x0b], [0x01, 0x00], []);
    OneExtension([0x00, 0x17], [], c);
    OneExtension([0xff, 0x01], [0x00], b + c);
  }

  /** The body of the fake ServerHello, were it to state n octets of extensions. */
  function ServerBody(f: Fill, n: nat): seq<byte>
    requires Filled(f) && n < 0x1_0000
  {
    ([0x03, 0x03] + (f.time + f.random))
    + ([0x20] + (f.sessionId + ([0xcc, 0xa8, 0x00] + (Be16(n) + ServerExtensions()))))
  }

  lemma Vector2Whole(n: nat, s: seq<byte>)
    requires n < 0x1_0000
    ensures var v := Vector2(Be16(n) + s); n == |s| <==> v.Some? && v.value.rest == []
    ensures n == |s| ==> Vector2(Be16(n) + s).value.body == s
  {
    hide Be16, FromBe16;
    Be16RoundTrip(n);
    var t := Be16(n) + s;
    assert t[0] == Be16(n)[0] && t[1] == Be16(n)[1] && t[2..] == s;
    FromBe16OfFront(t, Be16(n));
    if |s| >= n {
      assert t[2..2 + n] == s[..n] && t[2 + n..] == s[n..];
    }
  }

  lemma FromBe16OfFront(t: seq<byte>, front: seq<byte>)
    requires |t| >= 2 == |front| && t[0] == front[0] && t[1] == front[1]
    ensures FromBe16(t, 0) == FromBe16(front, 0)
  {
  }

  /** It would parse exactly if it stated its fifteen octets. */
  lemma ServerHelloParsesIff(f: Fill, n: nat)
    requires Filled(f) && n < 0x1_0000
    ensures ParseServerHello(ServerBody(f, n)) ==
            if n != 15 then None
            else Some(HelloFields([0x03, 0x03], f.time + f.random, f.sessionId, [0xcc, 0xa8], [0x00],
              [Extension(0xff01, [0x00])] + ([Extension(0x17, [])] + [Extension(0x0b, [0x01, 0x00])])))
  {
    hide ParseExtensions, Vector1, Vector2, Be16, ServerExtensions;
    var front := [0x03, 0x03] + (f.time + f.random);
    var fixed: seq<byte> := [0xcc, 0xa8, 0x00];
    var rest := fixed + (Be16(n) + ServerExtensions());
    SplitAppend(front, [0x20] + (f.sessionId + rest));
    FrontFields(front, [0x20] + (f.sessionId + rest), f.time + f.random);
    Vector1Of(f.sessionId, rest);
    SplitAppend(fixed, Be16(n) + ServerExtensions());
    assert rest[..2] == [0xcc, 0xa8] && rest[2..3] == [0x00];
    Vector2Whole(n, ServerExtensions());
    ServerExtensionsParse();
  }

  /**
   The fake ServerHello's handshake length is right, and its fields can be walked up to the
   extensions. But it states no extensions at all where three follow, so it does not parse:
   the two octets of the extensions' length are 0, and 15 octets of well-formed extensions
   stand behind them.
   */
  lemma ServerHelloIllFormed(f: Fill, payload: seq<byte>)
    requires Filled(f)
    ensures var message := ParseMessage(Hello(Server, f, payload)[5..96]);
            && message.Some? && message.value.kind == 2
            && message.value.body == ServerBody(f, 0)
            && ParseServerHello(message.value.body) == None
            && var session := Vector1(message.value.body[34..]);
               && session.Some? && session.value.body == f.sessionId
               && session.value.rest == [0xcc, 0xa8, 0x00] + (Be16(0) + ServerExtensions())
    ensures ParseExtensions(ServerExtensions()).Some?
  {
    hide ParseExtensions;
    var s := Hello(Server, f, payload)[5..96];
    var rest := [0xcc, 0xa8, 0x00] + (Be16(0) + ServerExtensions());
    var body := ServerBody(f, 0);
    ServerBodyIs(f, payload, body);
    MessageOf(2, 87, body);
    SplitAppend([0x03, 0x03] + (f.time + f.random), [0x20] + (f.sessionId + rest));
    Vector1Of(f.sessionId, rest);
    SplitAppend([0xcc, 0xa8, 0x00], Be16(0) + ServerExtensions());
    ServerHelloParsesIff(f, 0);
    ServerExtensionsParse();
  }

  /** The change of cipher spec and the head of the record with the first payload, which end the prelude. */
  function PreludeEnd(): seq<byte> { [0x14, 0x03, 0x03, 0x00, 0x01, 0x01] + [0x16, 0x03, 0x03] }

  lemma PreludeTail()
    ensures [0xcc, 0xa8, 0x00, 0x00, 0x00, 0xff, 0x01, 0x00, 0x01, 0x00, 0x00, 0x17, 0x00, 0x00,
             0x00, 0x0b, 0x00, 0x02, 0x01, 0x00, 0x14, 0x03, 0x03, 0x00, 0x01, 0x01, 0x16, 0x03, 0x03] ==
            [0xcc, 0xa8, 0x00] + (Be16(0) + ServerExtensions()) + PreludeEnd()
  {
  }

  lemma ServerBodyIs(f: Fill, payload: seq<byte>, body: seq<byte>)
    requires Filled(f)
    requires body == ServerBody(f, 0)
    ensures Hello(Server, f, payload)[5..96] == [0x02, 0x00] + (Be16(87) + body)
  {
    hide ServerExtensions, PreludeEnd, Be16;
    PreludeTail();
    Length87();
    var end := PreludeEnd();
    var rest := [0xcc, 0xa8, 0x00] + (Be16(0) + ServerExtensions());
    var inside := f.time + (f.random + ([0x20] + (f.sessionId + rest)));
    PreludeParts(f, rest, end);
    var front: seq<byte> := [0x16, 0x03, 0x01] + Be16(91);
    var m: seq<byte> := [0x02, 0x00, 0x00, 0x57, 0x03, 0x03];
    CutOut(front, m + inside, end + (Be16(|payload|) + payload));
    Assoc(front + (m + inside), end, Be16(|payload|) + payload);
    Assoc([0x02, 0x00], Be16(87), [0x03, 0x03]);
    Assoc([0x02, 0x00], Be16(87) + [0x03, 0x03], inside);
    Assoc(Be16(87), [0x03, 0x03], inside);
    Assoc(f.time, f.random, [0x20] + (f.sessionId + rest));
    Assoc([0x03, 0x03], f.time + f.random, [0x20] + (f.sessionId + rest));
  }

  lemma Length87()
    ensures Be16(87) == [0x00, 0x57] && [0x02, 0x00] + (Be16(87) + [0x03, 0x03]) == [0x02, 0x00, 0x00, 0x57, 0x03, 0x03]
  {
  }

  lemma PreludeParts(f: Fill, rest: seq<byte>, end: seq<byte>)
    requires Filled(f)
    requires [0xcc, 0xa8, 0x00, 0x00, 0x00, 0xff, 0x01, 0x00, 0x01, 0x00, 0x00, 0x17, 0x00, 0x00,
              0x00, 0x0b, 0x00, 0x02, 0x01, 0x00, 0x14, 0x03, 0x03, 0x00, 0x01, 0x01, 0x16, 0x03, 0x03] == rest + end
    ensures var inside := f.time + (f.random + ([0x20] + (f.sessionId + rest)));
            ServerPrelude(f) == [0x16, 0x03, 0x01] + Be16(91) + ([0x02, 0x00, 0x00, 0x57, 0x03, 0x03] + inside) + end
  {
    hide Be16;
    var front: seq<byte> := [0x16, 0x03, 0x01] + Be16(91);
    var m: seq<byte> := [0x02, 0x00, 0x00, 0x57, 0x03, 0x03];
    var l: seq<byte> := [0x20];
    Assoc(front + m + f.time + f.random + l + f.sessionId, rest, end);
    Assoc(front + m + f.time + f.random + l, f.sessionId, rest);
    Assoc(front + m + f.time + f.random, l, f.sessionId + rest);
    Assoc(front + m + f.time, f.random, l + (f.sessionId + rest));
    Assoc(front + m, f.time, f.random + (l + (f.sessionId + rest)));
    Assoc(front, m, f.time + (f.random + (l + (f.sessionId + rest))));
  }

  lemma CutOut(front: seq<byte>, middle: seq<byte>, end: seq<byte>)
    requires |front| == 5 && |middle| == 91
    ensures (front + middle + end)[5..96] == middle
  {
  }
}
