/**
 The request at the head of a logical connection (request.go, address.go) and the server's
 own reading of it in v6 (snellv6/server.go). A destination is a host string and a port;
 the text forms of addresses are not looked into.
 */
module Request {
  import opened Bytes

  const REQUEST_VERSION: byte := 1
  const COMMAND_PING: byte := 0
  const COMMAND_CONNECT: byte := 1
  const COMMAND_CONNECT_V2: byte := 5
  const COMMAND_UDP: byte := 6

  datatype Request = Request(command: byte, clientId: seq<byte>, host: seq<byte>, port: uint16)

  datatype RequestError = Eof | UnexpectedEof | BadVersion | UnsupportedCommand | ClientIdTooLong | HostTooLong

  datatype Encoded = Encoded(octets: seq<byte>) | Refused(error: RequestError)

  datatype Parsed = Parsed(request: Request, rest: seq<byte>) | Malformed(error: RequestError)

  predicate IsConnect(command: byte) { command == COMMAND_CONNECT || command == COMMAND_CONNECT_V2 }

  function EncodeAddress(r: Request): seq<byte>
    requires |r.host| <= 255
  {
    [|r.host|] + r.host + Be16(r.port)
  }

  function EncodeRequest(r: Request): Encoded
  {
    if |r.clientId| > 255 then Refused(ClientIdTooLong)
    else
      var prefix := [REQUEST_VERSION, r.command, |r.clientId|] + r.clientId;
      if IsConnect(r.command) then
        if |r.host| > 255 then Refused(HostTooLong) else Encoded(prefix + EncodeAddress(r))
      else if r.command == COMMAND_PING || r.command == COMMAND_UDP then Encoded(prefix)
      else Refused(UnsupportedCommand)
  }

  /** Request.Len: what the caller reserves before writing. */
  function RequestLen(r: Request): nat
  {
    3 + |r.clientId| + if IsConnect(r.command) then 1 + |r.host| + 2 else 0
  }

  /** io.ReadFull of at least one octet: nothing there is EOF, too little is an unexpected EOF. */
  function ShortRead(s: seq<byte>): RequestError { if s == [] then Eof else UnexpectedEof }

  function ParseAddress(r: Request, s: seq<byte>): Parsed
  {
    if s == [] then Malformed(Eof)
    else
      var n := s[0] as nat;
      if |s| < 1 + n then Malformed(ShortRead(s[1..]))
      else if |s| < 3 + n then Malformed(ShortRead(s[1 + n..]))
      else Parsed(r.(host := s[1..1 + n], port := FromBe16(s, 1 + n)), s[3 + n..])
  }

  function ParseBody(command: byte, idLen: byte, s: seq<byte>): Parsed
  {
    var n := idLen as nat;
    if |s| < n then Malformed(ShortRead(s))
    else
      var r := Request(command, s[..n], [], 0);
      if IsConnect(command) then ParseAddress(r, s[n..])
      else if command == COMMAND_PING || command == COMMAND_UDP then Parsed(r, s[n..])
      else Malformed(UnsupportedCommand)
  }

  function ParseRequest(s: seq<byte>): Parsed
  {
    if |s| < 3 then Malformed(ShortRead(s))
    else if s[0] != REQUEST_VERSION then Malformed(BadVersion)
    else ParseBody(s[1], s[2], s[3..])
  }

  /** The v6 server answers a ping after its third octet, before any client id. */
  function ParseRequestV6(s: seq<byte>): Parsed
  {
    if |s| >= 3 && s[0] == REQUEST_VERSION && s[1] == COMMAND_PING then
      Parsed(Request(COMMAND_PING, [], [], 0), s[3..])
    else
      ParseRequest(s)
  }

  predicate Encodable(r: Request) {
    && |r.clientId| <= 255
    && (if IsConnect(r.command) then |r.host| <= 255
        else (r.command == COMMAND_PING || r.command == COMMAND_UDP) && r.host == [] && r.port == 0)
  }

  lemma ParseAddressEncoded(r: Request, q: Request, rest: seq<byte>)
    requires |q.host| <= 255
    ensures ParseAddress(r, EncodeAddress(q) + rest) == Parsed(r.(host := q.host, port := q.port), rest)
  {
    Be16RoundTrip(q.port);
    var s := EncodeAddress(q) + rest;
    var n := |q.host|;
    assert s[0] == n && s[1..1 + n] == q.host;
    assert s[3 + n..] == rest;
    assert s[1 + n] == Be16(q.port)[0] && s[2 + n] == Be16(q.port)[1];
  }

  /** The bytes after the client id. */
  function Tail(r: Request): seq<byte>
    requires Encodable(r)
  {
    if IsConnect(r.command) then EncodeAddress(r) else []
  }

  lemma EncodedParts(r: Request, rest: seq<byte>)
    requires Encodable(r)
    ensures EncodeRequest(r).Encoded? && |EncodeRequest(r).octets| == RequestLen(r) <= 516
    ensures var s := EncodeRequest(r).octets + rest;
            |s| >= 3 && s[0] == REQUEST_VERSION && s[1] == r.command && s[2] == |r.clientId|
              && s[3..] == r.clientId + (Tail(r) + rest)
  {
    var s := EncodeRequest(r).octets + rest;
    var prefix: seq<byte> := [REQUEST_VERSION, r.command, |r.clientId|];
    AppendNothing(prefix + r.clientId);
    AppendNothing(rest);
    calc {
      s;
      (prefix + r.clientId + Tail(r)) + rest;
      { Assoc(prefix + r.clientId, Tail(r), rest); Assoc(prefix, r.clientId, Tail(r) + rest); }
      prefix + (r.clientId + (Tail(r) + rest));
    }
    SplitAppend(prefix, r.clientId + (Tail(r) + rest));
  }

  /** Reading back what was written, with anything behind it: early data comes out untouched. */
  lemma RequestRoundTrip(r: Request, rest: seq<byte>)
    requires Encodable(r)
    ensures var e := EncodeRequest(r);
            && e.Encoded? && |e.octets| == RequestLen(r) <= 516
            && ParseRequest(e.octets + rest) == Parsed(r, rest)
  {
    hide EncodeRequest, EncodeAddress, ParseAddress, RequestLen;
    EncodedParts(r, rest);
    SplitAppend(r.clientId, Tail(r) + rest);
    if IsConnect(r.command) {
      ParseAddressEncoded(Request(r.command, r.clientId, [], 0), r, rest);
    } else {
      AppendNothing(rest);
    }
  }

  lemma AcceptedAddress(r: Request, s: seq<byte>)
    requires ParseAddress(r, s).Parsed?
    ensures var p := ParseAddress(r, s);
            && p.request == r.(host := p.request.host, port := p.request.port) && |p.request.host| <= 255
            && EncodeAddress(p.request) + p.rest == s
  {
    var p := ParseAddress(r, s);
    var n := s[0] as nat;
    var port := p.request.port;
    assert Be16(port) == [s[1 + n], s[2 + n]];
    assert EncodeAddress(p.request) == s[..3 + n];
  }

  /** The other direction: whatever is accepted is exactly an encoding and what follows it. */
  lemma AcceptedIsEncoded(s: seq<byte>)
    requires ParseRequest(s).Parsed?
    ensures var p := ParseRequest(s);
            Encodable(p.request) && EncodeRequest(p.request).Encoded?
            && EncodeRequest(p.request).octets + p.rest == s
  {
    hide ParseAddress, EncodeAddress, EncodeRequest, RequestLen;
    var p := ParseRequest(s);
    var n := s[2] as nat;
    if IsConnect(s[1]) {
      AcceptedAddress(Request(s[1], s[3..][..n], [], 0), s[3..][n..]);
    } else {
      AppendNothing(p.rest);
    }
    EncodedParts(p.request, p.rest);
    SameFromThree(s, EncodeRequest(p.request).octets + p.rest, n);
  }

  lemma SameFromThree(s: seq<byte>, t: seq<byte>, n: nat)
    requires |s| >= 3 + n && |t| >= 3 && s[0] == t[0] && s[1] == t[1] && s[2] == t[2]
    requires t[3..] == s[3..][..n] + s[3..][n..]
    ensures t == s
  {
    assert s == s[..3] + s[3..] && t == t[..3] + t[3..];
    assert s[3..] == s[3..][..n] + s[3..][n..];
  }

  /** How long an input must be at least, as far as its own octets say. */
  function Wanted(s: seq<byte>): nat
  {
    if |s| < 3 then 3
    else
      var id := 3 + s[2] as nat;
      if |s| < id || !IsConnect(s[1]) then id
      else if |s| == id then id + 1
      else id + 1 + s[id] as nat + 2
  }

  /** The input ends where a field that is not empty would begin. */
  predicate EndsBetween(s: seq<byte>) {
    if |s| < 3 then s == []
    else
      var id := 3 + s[2] as nat;
      (|s| == 3 && id > 3)
      || (IsConnect(s[1]) && (|s| == id || (|s| > id && (|s| == id + 1 || |s| == id + 1 + s[id] as nat))))
  }

  /** Which error an input is refused with. */
  lemma ErrorIff(s: seq<byte>)
    ensures ParseRequest(s) == Malformed(BadVersion) <==> |s| >= 3 && s[0] != REQUEST_VERSION
    ensures ParseRequest(s) == Malformed(Eof) <==>
            |s| < Wanted(s) && EndsBetween(s) && (|s| >= 3 ==> s[0] == REQUEST_VERSION)
    ensures ParseRequest(s) == Malformed(UnexpectedEof) <==>
            |s| < Wanted(s) && !EndsBetween(s) && (|s| >= 3 ==> s[0] == REQUEST_VERSION)
    ensures ParseRequest(s) == Malformed(UnsupportedCommand) <==>
            |s| >= 3 && s[0] == REQUEST_VERSION && |s| >= Wanted(s)
            && !IsConnect(s[1]) && s[1] != COMMAND_PING && s[1] != COMMAND_UDP
  {
  }

  /** The v6 server knows a ping by its first two octets, whatever the third and the rest. */
  lemma PingByTwoOctets(idLen: byte, rest: seq<byte>)
    ensures ParseRequestV6([REQUEST_VERSION, COMMAND_PING, idLen] + rest) ==
            Parsed(Request(COMMAND_PING, [], [], 0), rest)
  {
    SplitAppend([REQUEST_VERSION, COMMAND_PING, idLen], rest);
  }

  /**
   A front of a connect request parses exactly if it holds the whole request: what is cut
   off short is never taken for another request.
   */
  lemma FrontParsesIff(r: Request, early: seq<byte>, n: nat)
    requires Encodable(r) && IsConnect(r.command) && n <= RequestLen(r) + |early|
    ensures EncodeRequest(r).Encoded? && |EncodeRequest(r).octets| == RequestLen(r)
    ensures var front := (EncodeRequest(r).octets + early)[..n];
            if RequestLen(r) <= n then ParseRequestV6(front) == Parsed(r, early[..n - RequestLen(r)])
            else ParseRequestV6(front).Malformed?
  {
    hide EncodeRequest, ParseRequest, RequestLen;
    RequestRoundTrip(r, early);
    var head := EncodeRequest(r).octets;
    var front := (head + early)[..n];
    if |head| <= n {
      assert front == head + early[..n - |head|];
      RequestRoundTrip(r, early[..n - |head|]);
      V6RoundTrip(r, early[..n - |head|]);
    } else {
      assert front == head[..n];
      assert head == front + head[n..];
      if ParseRequest(front).Parsed? {
        FrontExtends(front, head[n..]);
        AppendNothing(head);
        RequestRoundTrip(r, []);
      }
      SecondOctet(r);
      NotAPing(front);
    }
  }

  /** What parses still parses, to the same request, with more behind it. */
  lemma FrontExtends(s: seq<byte>, more: seq<byte>)
    requires ParseRequest(s).Parsed?
    ensures ParseRequest(s + more) == Parsed(ParseRequest(s).request, ParseRequest(s).rest + more)
    ensures |EncodeRequest(ParseRequest(s).request).octets| <= |s|
  {
    hide ParseRequest;
    AcceptedIsEncoded(s);
    var p := ParseRequest(s);
    RequestRoundTrip(p.request, p.rest + more);
    Assoc(EncodeRequest(p.request).octets, p.rest, more);
  }

  lemma SecondOctet(r: Request)
    requires Encodable(r) && IsConnect(r.command)
    ensures EncodeRequest(r).Encoded? && |EncodeRequest(r).octets| >= 3 && EncodeRequest(r).octets[1] == r.command
  {
  }

  lemma NotAPing(s: seq<byte>)
    requires |s| >= 3 ==> s[1] != COMMAND_PING
    ensures ParseRequestV6(s) == ParseRequest(s)
  {
  }

  /** Write refuses exactly what no request can say. */
  lemma RefusedIff(r: Request)
    ensures EncodeRequest(r).Refused? <==>
      || |r.clientId| > 255
      || (IsConnect(r.command) && |r.host| > 255)
      || r.command !in {COMMAND_PING, COMMAND_CONNECT, COMMAND_CONNECT_V2, COMMAND_UDP}
  {
  }

  /** The v6 server reads every encodable request the same way, except that a ping's client id is left unread. */
  lemma V6RoundTrip(r: Request, rest: seq<byte>)
    requires Encodable(r)
    ensures var s := EncodeRequest(r).octets + rest;
            ParseRequestV6(s) ==
            if r.command == COMMAND_PING then Parsed(r.(clientId := []), r.clientId + rest) else Parsed(r, rest)
  {
    hide EncodeRequest, ParseRequest, RequestLen;
    RequestRoundTrip(r, rest);
    EncodedParts(r, rest);
    AppendNothing(rest);
  }
}
