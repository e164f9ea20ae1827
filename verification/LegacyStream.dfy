/** What a run of v4 or v5 records says, and that either reader hears it. */
module LegacyStream {
  import opened Bytes
  import opened Aead
  import opened Nonce
  import opened Profile
  import opened ShapedCodec
  import opened ShapedStream
  import opened LegacyCodec
  import opened LegacyWriter

  function Payloads(xs: seq<Piece>): (p: seq<seq<byte>>)
    ensures |p| == |xs|
  {
    if xs == [] then [] else [xs[0].payload] + Payloads(xs[1..])
  }

  lemma {:induction false} PayloadsAppend(xs: seq<Piece>, ys: seq<Piece>)
    ensures Payloads(xs + ys) == Payloads(xs) + Payloads(ys)
  {
    if xs == [] {
      AppendNothing(ys);
      AppendNothing(Payloads(ys));
    } else {
      PayloadsAppend(xs[1..], ys);
      TailAppend(xs, ys);
      Assoc([xs[0].payload], Payloads(xs[1..]), Payloads(ys));
    }
  }

  /** Octets for data, End for a zero chunk. */
  function PieceTokens(xs: seq<Piece>): seq<Token> { Tokens(Payloads(xs)) }

  lemma PieceTokensAppend(xs: seq<Piece>, ys: seq<Piece>)
    ensures PieceTokens(xs + ys) == PieceTokens(xs) + PieceTokens(ys)
  {
    PayloadsAppend(xs, ys);
    TokensAppend(Payloads(xs), Payloads(ys));
  }

  lemma PieceTokensFirst(x: Piece, xs: seq<Piece>)
    ensures PieceTokens([x] + xs) == (if x.payload == [] then [End] else Octets(x.payload)) + PieceTokens(xs)
  {
    SplitAppend([x], xs);
    SplitAppend([x.payload], Payloads(xs));
  }

  /** Cutting data into records says the data. */
  lemma {:induction false} CutSays(data: seq<byte>, limit: nat, padding: seq<byte>)
    requires limit > 0
    ensures PieceTokens(CutPieces(data, limit, padding)) == Octets(data)
    decreases |data|
  {
    if data != [] {
      var n := Min(|data|, limit);
      CutSays(data[n..], limit, []);
      PieceTokensFirst(Piece(data[..n], padding), CutPieces(data[n..], limit, []));
      OctetsAppend(data[..n], data[n..]);
      assert data == data[..n] + data[n..];
    }
  }

  function HeardAll(results: seq<ReadResult>): seq<Token>
  {
    if results == [] then [] else Heard(results[0]) + HeardAll(results[1..])
  }

  /** No v4 reader finds anything behind a zero chunk already buffered. */
  predicate Quiet(v: Version, xs: seq<Piece>, buffered: seq<nat>)
    requires |xs| == |buffered|
  {
    forall i :: 0 <= i < |xs| ==> v.V4? && xs[i].payload == [] ==> buffered[i] == 0
  }

  lemma {:induction false} MeaningsHeard(v: Version, xs: seq<Piece>, buffered: seq<nat>)
    requires |xs| == |buffered|
    ensures var heard := HeardAll(PieceMeanings(v, xs, buffered));
            && |heard| <= |PieceTokens(xs)|
            && (|heard| == |PieceTokens(xs)| ==> Quiet(v, xs, buffered))
            && (Quiet(v, xs, buffered) ==> heard == PieceTokens(xs))
  {
    hide PieceTokens;
    if xs == [] {
      NothingToHear();
    } else {
      MeaningsHeard(v, xs[1..], buffered[1..]);
      PieceTokensFirst(xs[0], xs[1..]);
      assert xs == [xs[0]] + xs[1..];
      var first := PieceMeaning(v, xs[0], buffered[0]);
      SplitAppend([first], PieceMeanings(v, xs[1..], buffered[1..]));
      QuietFirst(v, xs, buffered);
    }
  }

  lemma QuietFirst(v: Version, xs: seq<Piece>, buffered: seq<nat>)
    requires |xs| == |buffered| && xs != []
    ensures Quiet(v, xs, buffered) <==>
            (v.V4? && xs[0].payload == [] ==> buffered[0] == 0) && Quiet(v, xs[1..], buffered[1..])
  {
    if Quiet(v, xs[1..], buffered[1..]) {
      forall i | 0 < i < |xs| ensures v.V4? && xs[i].payload == [] ==> buffered[i] == 0 {
        assert xs[i] == xs[1..][i - 1] && buffered[i] == buffered[1..][i - 1];
      }
    }
  }

  lemma NothingToHear()
    ensures PieceTokens([]) == []
  {
  }

  /**
   A reader of either version, from the salt on, hears exactly what the records say, if and
   only if no v4 reader finds octets behind a zero chunk; in any case it ends on the writer's
   cipher and nonce, with the rest untouched.
   */
  lemma ConnectionHeardIff(v: Version, keyed: Keyed, salt: seq<byte>, xs: seq<Piece>, rest: seq<byte>,
      buffered: seq<nat>)
    requires |salt| == SALT_LEN && AllFit(xs) && xs != [] && |buffered| == |xs|
    ensures var wire := ConnectionBytes(keyed, salt, xs) + rest;
            var (results, end) := ReadLegacyAll(v, keyed, LegacyReceiving(None, LegacyReading([], wire)), buffered);
            && (HeardAll(results) == PieceTokens(xs) <==> Quiet(v, xs, buffered))
            && end == LegacyReceiving(Some(keyed(salt)), LegacyReading(NonceAfterAll(Zeros(NONCE_LEN), xs), rest))
  {
    hide ReadLegacyAll, ConnectionBytes, PieceTokens, Quiet, PieceMeanings;
    ConnectionRoundTrip(v, keyed, salt, xs, rest, buffered);
    MeaningsHeard(v, xs, buffered);
  }
}
