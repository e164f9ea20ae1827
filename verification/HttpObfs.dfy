/**
 The HTTP-looking obfuscation layer (obfs.go): the first write carries a fake request or
 response head, and the reader drops everything up to the first empty line, matching it
 octet by octet.
 */
module HttpObfs {
  import opened Bytes

  const CR: byte := 13
  const LF: byte := 10

  function Terminator(): seq<byte> { [CR, LF, CR, LF] }

  // ------------------------------------------------------------ the matcher

  /** One octet: matched counts the octets of the terminator seen last. */
  function Matched(matched: nat, value: byte): (m: nat)
    requires matched < 4
    ensures m <= 4
  {
    if value == Terminator()[matched] then matched + 1
    else if value == Terminator()[0] then 1
    else 0
  }

  /** The matcher after all of s, or None once the terminator has been found. */
  function Scan(matched: nat, s: seq<byte>): (m: Option<nat>)
    requires matched < 4
    ensures m.Some? ==> m.value < 4
    decreases |s|
  {
    if s == [] then Some(matched)
    else if Matched(matched, s[0]) == 4 then None
    else Scan(Matched(matched, s[0]), s[1..])
  }

  /** How many octets are consumed up to the end of the terminator. */
  function HeadEnd(matched: nat, s: seq<byte>): (e: Option<nat>)
    requires matched < 4
    ensures e.Some? ==> 0 < e.value <= |s|
    ensures e.None? <==> Scan(matched, s).Some?
    decreases |s|
  {
    if s == [] then None
    else if Matched(matched, s[0]) == 4 then Some(1)
    else
      var rest := HeadEnd(Matched(matched, s[0]), s[1..]);
      if rest.None? then None else Some(rest.value + 1)
  }

  lemma {:induction false} ScanAppend(matched: nat, s: seq<byte>, t: seq<byte>)
    requires matched < 4
    ensures Scan(matched, s + t) == if Scan(matched, s).None? then None else Scan(Scan(matched, s).value, t)
    ensures HeadEnd(matched, s + t) ==
            if HeadEnd(matched, s).Some? then HeadEnd(matched, s)
            else if HeadEnd(Scan(matched, s).value, t).None? then None
            else Some(|s| + HeadEnd(Scan(matched, s).value, t).value)
    decreases |s|
  {
    hide Matched;
    if s == [] {
      AppendNothing(t);
    } else {
      TailAppend(s, t);
      if Matched(matched, s[0]) != 4 {
        ScanAppend(Matched(matched, s[0]), s[1..], t);
      }
    }
  }

  // ------------------------------------------------------------ what it matches

  /** The last m octets of s are the first m of the terminator. */
  predicate Borders(s: seq<byte>, m: nat) { m <= 4 && m <= |s| && s[|s| - m..] == Terminator()[..m] }

  /** m is the length of the longest suffix of s that is a prefix of the terminator. */
  ghost predicate LongestBorder(s: seq<byte>, m: nat) { Borders(s, m) && forall n :: m < n <= 4 ==> !Borders(s, n) }

  /** The terminator ends at e. */
  predicate EndsAt(s: seq<byte>, e: nat) { e <= |s| && Borders(s[..e], 4) }

  ghost predicate HasTerminator(s: seq<byte>) { exists e :: 0 <= e <= |s| && EndsAt(s, e) }

  /** The octet k places before the last, if there is one. */
  function Last(s: seq<byte>, k: nat): int { if k < |s| then s[|s| - 1 - k] else -1 }

  lemma BordersByLast(s: seq<byte>)
    ensures Borders(s, 0)
    ensures Borders(s, 1) <==> Last(s, 0) == CR
    ensures Borders(s, 2) <==> Last(s, 1) == CR && Last(s, 0) == LF
    ensures Borders(s, 3) <==> Last(s, 2) == CR && Last(s, 1) == LF && Last(s, 0) == CR
    ensures Borders(s, 4) <==> Last(s, 3) == CR && Last(s, 2) == LF && Last(s, 1) == CR && Last(s, 0) == LF
  {
    hide Borders, Last;
    BorderByLast(s, 0);
    BorderByLast(s, 1);
    BorderByLast(s, 2);
    BorderByLast(s, 3);
    BorderByLast(s, 4);
  }

  lemma BorderByLast(s: seq<byte>, m: nat)
    requires m <= 4
    ensures Borders(s, m) <==> forall j :: 0 <= j < m ==> Last(s, j) == Terminator()[m - 1 - j]
  {
    if m <= |s| {
      forall k | 0 <= k < m ensures s[|s| - m..][k] == Last(s, m - 1 - k) && Terminator()[..m][k] == Terminator()[k] { }
      forall j | 0 <= j < m ensures Last(s, j) == s[|s| - m..][m - 1 - j] { }
    } else {
      assert Last(s, m - 1) == -1;
    }
  }

  /** One octet more: the matcher falls back to the right place, although it never goes back more than to one. */
  lemma MatchedIsLongest(s: seq<byte>, v: byte, m: nat)
    requires LongestBorder(s, m) && m < 4
    ensures LongestBorder(s + [v], Matched(m, v))
  {
    hide Borders;
    var t := s + [v];
    BordersByLast(s);
    BordersByLast(t);
    assert Last(t, 0) == v && Last(t, 1) == Last(s, 0) && Last(t, 2) == Last(s, 1) && Last(t, 3) == Last(s, 2);
    assert m < 1 ==> !Borders(s, 1);
    assert m < 2 ==> !Borders(s, 2);
    assert m < 3 ==> !Borders(s, 3);
  }

  /** After any input that holds no terminator, matched is the length of its longest suffix that begins one. */
  lemma {:induction false} ScanIsLongest(s: seq<byte>)
    ensures Scan(0, s).Some? <==> !HasTerminator(s)
    ensures Scan(0, s).Some? ==> LongestBorder(s, Scan(0, s).value)
  {
    if s == [] {
      assert forall e :: 0 <= e <= |s| ==> !EndsAt(s, e);
      assert Borders(s, 0);
    } else {
      var n := |s| - 1;
      var t, v := s[..n], s[n];
      assert s == t + [v];
      ScanIsLongest(t);
      ScanAppend(0, t, [v]);
      OneMore(t, v);
      if Scan(0, t).Some? {
        var m := Scan(0, t).value;
        MatchedIsLongest(t, v, m);
        ScanOne(m, v);
        assert Borders(s, 4) <==> Matched(m, v) == 4;
      }
    }
  }

  lemma ScanOne(m: nat, v: byte)
    requires m < 4
    ensures Scan(m, [v]) == if Matched(m, v) == 4 then None else Some(Matched(m, v))
  {
  }

  /** A terminator in a longer input either lay in the shorter one or ends with the new octet. */
  lemma OneMore(t: seq<byte>, v: byte)
    ensures HasTerminator(t + [v]) <==> HasTerminator(t) || Borders(t + [v], 4)
  {
    hide Borders;
    var s := t + [v];
    assert s[..|s|] == s;
    forall e | 0 <= e <= |t| ensures EndsAt(s, e) <==> EndsAt(t, e) { assert s[..e] == t[..e]; }
    if HasTerminator(t) {
      var e :| 0 <= e <= |t| && EndsAt(t, e);
      assert EndsAt(s, e);
    }
    if Borders(s, 4) { assert EndsAt(s, |s|); }
  }

  /** The reader resumes exactly behind the first terminator, and fails exactly if there is none. */
  lemma HeadEndIsFirst(s: seq<byte>)
    ensures HeadEnd(0, s).None? <==> !HasTerminator(s)
    ensures HeadEnd(0, s).Some? ==>
            EndsAt(s, HeadEnd(0, s).value) && forall e :: 0 <= e < HeadEnd(0, s).value ==> !EndsAt(s, e)
  {
    hide Borders, Scan, HeadEnd, LongestBorder;
    ScanIsLongest(s);
    if HeadEnd(0, s).Some? {
      var end := HeadEnd(0, s).value;
      HeadEndSplits(0, s);
      ScanIsLongest(s[..end]);
      ScanIsLongest(s[..end - 1]);
      assert s[..end] == s[..end - 1] + [s[end - 1]];
      OneMore(s[..end - 1], s[end - 1]);
      forall e | 0 <= e < end ensures !EndsAt(s, e) {
        assert s[..end - 1][..e] == s[..e];
        assert !EndsAt(s[..end - 1], e);
      }
    }
  }

  lemma {:induction false} HeadEndSplits(matched: nat, s: seq<byte>)
    requires matched < 4 && HeadEnd(matched, s).Some?
    ensures var end := HeadEnd(matched, s).value; Scan(matched, s[..end]).None? && Scan(matched, s[..end - 1]).Some?
    decreases |s|
  {
    if Matched(matched, s[0]) != 4 {
      var end := HeadEnd(matched, s).value;
      HeadEndSplits(Matched(matched, s[0]), s[1..]);
      assert s[..end][1..] == s[1..][..end - 1] && s[..end - 1][1..] == s[1..][..end - 2];
    }
  }

  // ------------------------------------------------------------ the heads

  const CRLF := [CR, LF]

  /** No line break: user agents, dates, lengths and keys are such. */
  predicate Clean(s: seq<byte>) { forall i :: 0 <= i < |s| ==> s[i] != CR && s[i] != LF }

  predicate LineLike(s: seq<byte>) { s != [] && Clean(s) }

  ghost predicate AllLines(lines: seq<seq<byte>>) { forall i :: 0 <= i < |lines| ==> LineLike(lines[i]) }

  /** Lines and the empty line that ends a head. */
  function Lines(lines: seq<seq<byte>>): (s: seq<byte>)
    ensures |s| >= 2
  {
    if lines == [] then CRLF else lines[0] + (CRLF + Lines(lines[1..]))
  }

  lemma {:induction false} ScanClean(m: nat, s: seq<byte>)
    requires m < 4 && LineLike(s)
    ensures Scan(m, s) == Some(0)
    decreases |s|
  {
    assert Matched(m, s[0]) == 0;
    if |s| > 1 {
      assert Clean(s[1..]);
      ScanClean(0, s[1..]);
    }
  }

  lemma ScanBreak()
    ensures Scan(0, CRLF) == Some(2) && Scan(2, CRLF).None? && HeadEnd(2, CRLF) == Some(2)
  {
    assert CRLF[1..] == [LF];
    ScanOne(1, LF);
    ScanOne(3, LF);
    assert HeadEnd(3, [LF]) == Some(1);
  }

  /** Nonempty lines without breaks contain no terminator before their own end. */
  lemma {:induction false} LinesEnd(m: nat, lines: seq<seq<byte>>)
    requires m < 4 && AllLines(lines) && (lines == [] ==> m == 2)
    ensures HeadEnd(m, Lines(lines)) == Some(|Lines(lines)|)
    decreases |lines|
  {
    ScanBreak();
    if lines != [] {
      assert LineLike(lines[0]);
      ScanClean(m, lines[0]);
      LinesEnd(2, lines[1..]);
      ScanAppend(m, lines[0], CRLF + Lines(lines[1..]));
      ScanAppend(0, CRLF, Lines(lines[1..]));
    }
  }

  function Get(): seq<byte> { [0x47, 0x45, 0x54, 0x20] }                                       // "GET "
  function Version(): seq<byte> { [0x20, 0x48, 0x54, 0x54, 0x50, 0x2f, 0x31, 0x2e, 0x31] }    // " HTTP/1.1"
  function Host(): seq<byte> { [0x48, 0x6f, 0x73, 0x74, 0x3a, 0x20] }                         // "Host: "

  /** The request head; fields are the lines after the host, any without breaks. */
  function RequestHead(uri: seq<byte>, host: seq<byte>, fields: seq<seq<byte>>): seq<byte>
  {
    Get() + (uri + (Version() + (CRLF + (Host() + ((host + CRLF) + Lines(fields))))))
  }

  /** A piece that does not hold the terminator leads on to the next; one that does ends the head inside it. */
  lemma Leads(m: nat, s: seq<byte>, t: seq<byte>)
    requires m < 4
    ensures var through := Scan(m, s);
            if through.Some? then HeadEnd(m, s + t).Some? == HeadEnd(through.value, t).Some?
              && (HeadEnd(through.value, t).Some? ==> HeadEnd(m, s + t).value == |s| + HeadEnd(through.value, t).value)
            else HeadEnd(m, s + t).Some? && HeadEnd(m, s + t).value <= |s|
  {
    ScanAppend(m, s, t);
  }

  /** What the reader hands on once the head is gone; None if there is no head. */
  function Delivered(wire: seq<byte>): Option<seq<byte>>
  {
    var e := HeadEnd(0, wire);
    if e.None? then None else Some(wire[e.value..])
  }

  /** The request head ends where it is meant to exactly if the address and the host line hold no empty line. */
  lemma RequestHeadEndsIff(uri: seq<byte>, host: seq<byte>, fields: seq<seq<byte>>)
    requires AllLines(fields) && fields != []
    ensures HeadEnd(0, RequestHead(uri, host, fields)) == Some(|RequestHead(uri, host, fields)|) <==>
            !HasTerminator(uri) && !HasTerminator(host + CRLF)
    ensures HeadEnd(0, RequestHead(uri, host, fields)).Some?
  {
    hide Scan, HeadEnd, HasTerminator, Lines;
    ScanBreak();
    var last := Lines(fields);
    var line := (host + CRLF) + last;
    var named := Host() + line;
    var broken := CRLF + named;
    var versioned := Version() + broken;
    ScanClean(0, Get());
    Leads(0, Get(), uri + versioned);
    ScanIsLongest(uri);
    Leads(0, uri, versioned);
    if !HasTerminator(uri) {
      var m := Scan(0, uri).value;
      ScanClean(m, Version());
      Leads(m, Version(), broken);
      Leads(0, CRLF, named);
      ScanClean(2, Host());
      Leads(2, Host(), line);
      ScanIsLongest(host + CRLF);
      Leads(0, host + CRLF, last);
      if !HasTerminator(host + CRLF) {
        LinesEnd(Scan(0, host + CRLF).value, fields);
      }
    }
  }

  /** What a client puts on the connection: the head with the first write, every later write as it is. */
  function ClientWire(uri: seq<byte>, host: seq<byte>, fields: nat -> seq<seq<byte>>, writes: seq<seq<byte>>): seq<byte>
  {
    if writes == [] then [] else RequestHead(uri, host, fields(|writes[0]|)) + Concat(writes)
  }

  /** The server hears exactly what was written, if and only if neither address nor host line holds an empty line. */
  lemma ClientPipeIff(uri: seq<byte>, host: seq<byte>, fields: nat -> seq<seq<byte>>, writes: seq<seq<byte>>)
    requires writes != [] && forall n :: fields(n) != [] && AllLines(fields(n))
    ensures Delivered(ClientWire(uri, host, fields, writes)) == Some(Concat(writes)) <==>
            !HasTerminator(uri) && !HasTerminator(host + CRLF)
  {
    hide Scan, HeadEnd, HasTerminator, RequestHead;
    var lines := fields(|writes[0]|);
    var head := RequestHead(uri, host, lines);
    RequestHeadEndsIff(uri, host, lines);
    ScanAppend(0, head, Concat(writes));
    SplitAppend(head, Concat(writes));
  }

  /** The other direction: the fake response is lines without breaks, and the client hears exactly what follows. */
  lemma ServerPipe(lines: seq<seq<byte>>, data: seq<byte>)
    requires AllLines(lines) && lines != []
    ensures Delivered(Lines(lines) + data) == Some(data)
  {
    LinesEnd(0, lines);
    ScanAppend(0, Lines(lines), data);
    SplitAppend(Lines(lines), data);
  }

  // ------------------------------------------------------------ the program

  datatype Got = Data(octets: seq<byte>) | HeadMissing

  /** httpObfsHead; found once the head has been dropped. */
  class Head {
    var found: bool
    var wire: seq<byte> // what the connection still has to give

    constructor (wire: seq<byte>)
      ensures !found && this.wire == wire
    {
      this.found, this.wire := false, wire;
    }

    method Read(n: nat) returns (got: Got)
      modifies this
      ensures old(found) ==>
              found && got == Data(old(wire)[..Min(n, |old(wire)|)]) && wire == old(wire)[Min(n, |old(wire)|)..]
      ensures !old(found) ==>
        match Delivered(old(wire))
        case None => got == HeadMissing && !found && wire == []
        case Some(rest) => found && got == Data(rest[..Min(n, |rest|)]) && wire == rest[Min(n, |rest|)..]
    {
      hide Matched;
      if !found {
        var matched := 0;
        ghost var all := wire;
        while matched < 4
          invariant matched <= 4 && !found && |wire| <= |all|
          invariant wire == all[|all| - |wire|..]
          invariant matched < 4 ==>
                    HeadEnd(0, all) ==
                    (if HeadEnd(matched, wire).None? then None else Some(|all| - |wire| + HeadEnd(matched, wire).value))
          invariant matched == 4 ==> HeadEnd(0, all) == Some(|all| - |wire|)
          decreases |wire|, 4 - matched
        {
          if wire == [] {
            return HeadMissing;
          }
          var value := wire[0];
          wire := wire[1..];
          matched := Matched(matched, value);
        }
        found := true;
      }
      var k := Min(n, |wire|);
      got := Data(wire[..k]);
      wire := wire[k..];
    }
  }

  const DEFAULT_HOST: seq<byte> := [0x62, 0x69, 0x6e, 0x67, 0x2e, 0x63, 0x6f, 0x6d] // bing.com
  const DEFAULT_URI: seq<byte> := [0x2f]

  /** httpObfsClientConn, the writing side; sent is what has been put on the connection. */
  class Client {
    const host: seq<byte>
    const uri: seq<byte>
    const fields: nat -> seq<seq<byte>>
    var requestSent: bool
    var sent: seq<byte>
    ghost var writes: seq<seq<byte>>

    /** What is on the connection is the wire of the writes so far. */
    ghost predicate Valid()
      reads this
    {
      && (requestSent <==> writes != [])
      && sent == ClientWire(if uri == [] then DEFAULT_URI else uri,
                            if host == [] then DEFAULT_HOST else host, fields, writes)
    }

    constructor (host: seq<byte>, uri: seq<byte>, fields: nat -> seq<seq<byte>>)
      ensures Valid() && writes == [] && this.host == host && this.uri == uri && this.fields == fields
    {
      this.host, this.uri, this.fields := host, uri, fields;
      requestSent, sent, writes := false, [], [];
    }

    method Write(p: seq<byte>)
      requires Valid()
      modifies this
      ensures Valid() && writes == old(writes) + [p]
    {
      hide RequestHead;
      ConcatAppend(writes, [p]);
      AppendNothing(p);
      writes := writes + [p];
      if requestSent {
        Assoc(RequestHead(if uri == [] then DEFAULT_URI else uri,
                          if host == [] then DEFAULT_HOST else host, fields(|writes[0]|)),
              Concat(old(writes)), p);
        sent := sent + p;
        return;
      }
      requestSent := true;
      sent := RequestHead(if uri == [] then DEFAULT_URI else uri,
                          if host == [] then DEFAULT_HOST else host, fields(|p|)) + p;
    }
  }
}
