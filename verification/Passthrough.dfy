/** When the rewrite leaves the rest of a query byte for byte as it was. */
module Passthrough {
  import opened Query
  import opened Wrappers

  predicate UpperHex(b: byte) {
    0x30 <= b <= 0x39 || 0x41 <= b <= 0x46
  }

  /** Plus signs for spaces, and a percent escape, in upper case, for just those bytes that need one. */
  predicate Tidy(s: Bytes) {
    s == [] ||
    if s[0] != PERCENT then (s[0] == PLUS || Unreserved(s[0])) && Tidy(s[1..])
    else
      && |s| >= 3 && UpperHex(s[1]) && UpperHex(s[2])
      && var b := 16 * HexValue(s[1]).value + HexValue(s[2]).value;
      && !Unreserved(b) && b != SPACE
      && Tidy(s[3..])
  }

  /** Tidy, and well-formed text underneath. */
  predicate TidyText(s: Bytes) {
    Tidy(s) && Text(Decode(s))
  }

  /** A name other than `api-key`, an equals sign and a value. */
  predicate TidyPiece(piece: Bytes) {
    var i := Cut(piece, EQUALS);
    i < |piece| && TidyText(piece[..i]) && TidyText(piece[i + 1..]) && Decode(piece[..i]) != API_KEY
  }

  /** Tidy pieces with one ampersand between each two. */
  predicate TidyQuery(q: Bytes)
    decreases |q|
  {
    q == [] ||
    var i := Cut(q, AMPERSAND);
    TidyPiece(q[..i]) && (i < |q| ==> i + 1 < |q| && TidyQuery(q[i + 1..]))
  }

  lemma {:induction false} EncodedIsTidy(s: Bytes)
    ensures Tidy(Encode(s))
  {
    if s != [] {
      EncodedIsTidy(s[1..]);
      assert Encode(s)[|EncodeByte(s[0])|..] == Encode(s[1..]);
      assert 16 * (s[0] / 16) + s[0] % 16 == s[0];
    }
  }

  lemma TidyEscape(hi: byte, lo: byte)
    requires UpperHex(hi) && UpperHex(lo)
    requires var b := 16 * HexValue(hi).value + HexValue(lo).value; !Unreserved(b) && b != SPACE
    ensures EncodeByte(16 * HexValue(hi).value + HexValue(lo).value) == [PERCENT, hi, lo]
  {
  }

  lemma {:induction false} TidyIsEncoded(s: Bytes)
    requires Tidy(s)
    ensures Encode(Decode(s)) == s
  {
    if s != [] {
      var n := if s[0] == PERCENT then 3 else 1;
      TidyIsEncoded(s[n..]);
      assert Decode(s)[1..] == Decode(s[n..]);
      if s[0] == PERCENT {
        TidyEscape(s[1], s[2]);
        assert s[..3] == [PERCENT, s[1], s[2]];
      }
      assert s == s[..n] + s[n..];
    }
  }

  lemma SerializedPairIsTidy(p: Pair)
    requires Text(p.name) && Text(p.value) && p.name != API_KEY
    ensures TidyPiece(SerializePair(p)) && AMPERSAND !in SerializePair(p)
  {
    var e, v := Encode(p.name), Encode(p.value);
    EncodedIsPlain(p.name);
    EncodedIsPlain(p.value);
    CutPastPlain(e, EQUALS, v);
    assert SerializePair(p)[..|e|] == e && SerializePair(p)[|e| + 1..] == v;
    EncodedIsTidy(p.name);
    EncodedIsTidy(p.value);
    DecodeEncoded(p.name);
    DecodeEncoded(p.value);
  }

  lemma TidyTextIsKept(s: Bytes)
    requires TidyText(s)
    ensures Encode(Lossy(Decode(s))) == s && Lossy(Decode(s)) == Decode(s)
  {
    TidyIsEncoded(s);
  }

  lemma SplitPiece(piece: Bytes) returns (name: Bytes, value: Bytes)
    requires TidyPiece(piece)
    ensures TidyText(name) && TidyText(value) && Decode(name) != API_KEY
    ensures piece == name + [EQUALS] + value
    ensures ParsePair(piece) == Pair(Lossy(Decode(name)), Lossy(Decode(value)))
  {
    var i := Cut(piece, EQUALS);
    name, value := piece[..i], piece[i + 1..];
  }

  lemma TidyPieceIsItsPair(piece: Bytes)
    requires TidyPiece(piece)
    ensures SerializePair(ParsePair(piece)) == piece && ParsePair(piece).name != API_KEY
  {
    var name, value := SplitPiece(piece);
    TidyTextIsKept(name);
    TidyTextIsKept(value);
  }

  lemma {:induction false} SerializeFirst(p: Pair, rest: seq<Pair>)
    requires rest != []
    ensures Serialize([p] + rest) == Join(SerializePair(p), Serialize(rest))
    ensures Serialize(rest) != []
  {
    var n := |rest| - 1;
    assert ([p] + rest)[..n + 1] == [p] + rest[..n];
    if n == 0 {
      assert Serialize([p] + []) == AppendPair(Serialize([]), p) by { assert ([p] + [])[..0] == []; }
    } else {
      SerializeFirst(p, rest[..n]);
      JoinAssociates(SerializePair(p), Serialize(rest[..n]), SerializePair(rest[n]));
    }
  }

  lemma {:induction false} OthersFirst(p: Pair, rest: seq<Pair>, name: Bytes)
    ensures Others([p] + rest, name) == (if p.name != name then [p] else []) + Others(rest, name)
  {
    if rest == [] {
      assert ([p] + rest)[..0] == [];
    } else {
      var n := |rest| - 1;
      assert ([p] + rest)[..n + 1] == [p] + rest[..n];
      OthersFirst(p, rest[..n], name);
    }
  }

  lemma TidyPieceAlone(piece: Bytes)
    requires TidyPiece(piece) && AMPERSAND !in piece
    ensures TidyQuery(piece)
  {
    CutPastPlain(piece, AMPERSAND, []);
    assert piece[..|piece|] == piece;
  }

  lemma TidyJoined(piece: Bytes, rest: Bytes)
    requires TidyPiece(piece) && AMPERSAND !in piece && rest != [] && TidyQuery(rest)
    ensures TidyQuery(Join(piece, rest))
  {
    CutPastPlain(piece, AMPERSAND, rest);
    assert Join(piece, rest)[..|piece|] == piece && Join(piece, rest)[|piece| + 1..] == rest;
  }

  lemma {:induction false} SerializedIsTidy(pairs: seq<Pair>)
    requires AllText(pairs) && Nameless(pairs, API_KEY)
    ensures TidyQuery(Serialize(pairs))
  {
    if pairs != [] {
      var p, rest := pairs[0], pairs[1..];
      SerializedPairIsTidy(p);
      if rest == [] {
        assert pairs[..0] == [] && Serialize(pairs) == SerializePair(p);
        TidyPieceAlone(SerializePair(p));
      } else {
        assert pairs == [p] + rest;
        SerializedIsTidy(rest);
        SerializeFirst(p, rest);
        TidyJoined(SerializePair(p), Serialize(rest));
      }
    }
  }

  lemma PieceAloneIsKept(piece: Bytes)
    requires TidyPiece(piece) && AMPERSAND !in piece
    ensures Serialize(Others(Parse(piece), API_KEY)) == piece
  {
    var p := ParsePair(piece);
    TidyPieceIsItsPair(piece);
    ParsePlainPiece(piece);
    assert [p][..0] == [] && Others([p], API_KEY) == [p] && Serialize([p]) == SerializePair(p);
  }

  lemma JoinedIsKept(piece: Bytes, rest: Bytes)
    requires TidyPiece(piece) && AMPERSAND !in piece
    requires rest != [] && Serialize(Others(Parse(rest), API_KEY)) == rest
    ensures Serialize(Others(Parse(Join(piece, rest)), API_KEY)) == Join(piece, rest)
  {
    TidyPieceIsItsPair(piece);
    ParseFirstPiece(piece, rest);
    OthersFirst(ParsePair(piece), Parse(rest), API_KEY);
    SerializeFirst(ParsePair(piece), Others(Parse(rest), API_KEY));
  }

  lemma SplitTidy(q: Bytes) returns (piece: Bytes, rest: Bytes)
    requires TidyQuery(q) && q != []
    ensures TidyPiece(piece) && AMPERSAND !in piece
    ensures rest == [] ==> q == piece
    ensures rest != [] ==> TidyQuery(rest) && |rest| < |q| && q == Join(piece, rest)
  {
    var i := Cut(q, AMPERSAND);
    piece, rest := q[..i], After(q, i);
  }

  lemma {:induction false} TidyQueryIsKept(q: Bytes)
    requires TidyQuery(q)
    ensures Serialize(Others(Parse(q), API_KEY)) == q
    decreases |q|
  {
    if q != [] {
      var piece, rest := SplitTidy(q);
      if rest == [] {
        PieceAloneIsKept(piece);
      } else {
        TidyQueryIsKept(rest);
        JoinedIsKept(piece, rest);
      }
    }
  }

  lemma AppendPairIsInjective(a: Bytes, b: Bytes, p: Pair)
    requires AppendPair(a, p) == AppendPair(b, p)
    ensures a == b
  {
    var s := SerializePair(p);
    assert |AppendPair(a, p)| == if a == [] then |s| else |a| + 1 + |s|;
    assert |AppendPair(b, p)| == if b == [] then |s| else |b| + 1 + |s|;
    if a != [] {
      assert Join(a, s)[..|a|] == a && Join(b, s)[..|b|] == b;
    }
  }

  /** The rewrite only appends its pair, leaving the client's bytes alone, exactly when the query is tidy
      already and has no `api-key` pair. */
  lemma BytesPassThroughIffTidy(q: Bytes, upstreamKey: Bytes)
    ensures Rewrite(Some(q), upstreamKey) == AppendPair(q, Pair(API_KEY, upstreamKey)) <==> TidyQuery(q)
  {
    if TidyQuery(q) {
      TidyQueryIsKept(q);
    } else if Rewrite(Some(q), upstreamKey) == AppendPair(q, Pair(API_KEY, upstreamKey)) {
      AppendPairIsInjective(Serialize(Preserved(Some(q))), q, Pair(API_KEY, upstreamKey));
      PreservedIsText(Some(q));
      SerializedIsTidy(Preserved(Some(q)));
      assert false;
    }
  }

  // ---------------------------------------------------------------------- queries with an `api-key`

  predicate IsApiKey(piece: Bytes) {
    ParsePair(piece).name == API_KEY
  }

  /** The pieces between ampersands, as they are, but for the `api-key` ones. */
  function KeptPieces(q: Bytes): seq<Bytes>
    decreases |q|
  {
    var i := Cut(q, AMPERSAND);
    (if IsApiKey(q[..i]) then [] else [q[..i]]) + if i < |q| then KeptPieces(q[i + 1..]) else []
  }

  function Rejoin(pieces: seq<Bytes>): Bytes {
    if pieces == [] then []
    else if |pieces| == 1 then pieces[0]
    else Join(pieces[0], Rejoin(pieces[1..]))
  }

  /** The query without its `api-key` pieces, every other byte as it was. */
  function Strip(q: Bytes): Bytes {
    Rejoin(KeptPieces(q))
  }

  lemma ParseRejoined(piece: Bytes, rest: seq<Bytes>)
    requires AMPERSAND !in piece
    ensures Parse(Rejoin([piece] + rest)) == Piece(piece) + Parse(Rejoin(rest))
  {
    if rest == [] {
      ParsePlainPiece(piece);
    } else {
      assert ([piece] + rest)[1..] == rest;
      ParseFirstPiece(piece, Rejoin(rest));
    }
  }

  lemma OthersOfPiece(piece: Bytes, rest: seq<Pair>)
    ensures Others(Piece(piece) + rest, API_KEY)
         == (if IsApiKey(piece) then [] else Piece(piece)) + Others(rest, API_KEY)
  {
    if piece == [] {
      EmptyPieceIsKept();
      assert Piece(piece) + rest == rest;
    } else {
      OthersFirst(ParsePair(piece), rest, API_KEY);
    }
  }

  lemma EmptyPieceIsKept()
    ensures !IsApiKey([])
  {
    assert Lossy(Decode([])) == [];
  }

  lemma SplitFirst(q: Bytes) returns (piece: Bytes, rest: Bytes)
    requires AMPERSAND in q
    ensures AMPERSAND !in piece && q == Join(piece, rest) && |rest| < |q|
    ensures KeptPieces(q) == (if IsApiKey(piece) then [] else [piece]) + KeptPieces(rest)
  {
    var i := Cut(q, AMPERSAND);
    assert q[..|q|] == q;
    piece, rest := q[..i], q[i + 1..];
  }

  lemma {:induction false} StripKeepsOthers(q: Bytes)
    ensures Parse(Strip(q)) == Others(Parse(q), API_KEY)
    decreases |q|
  {
    if AMPERSAND in q {
      var piece, rest := SplitFirst(q);
      StripKeepsOthers(rest);
      ParseFirstPiece(piece, rest);
      OthersOfPiece(piece, Parse(rest));
      if IsApiKey(piece) {
        assert [] + KeptPieces(rest) == KeptPieces(rest);
      } else {
        ParseRejoined(piece, KeptPieces(rest));
      }
    } else {
      assert Cut(q, AMPERSAND) == |q| && q[..|q|] == q;
      ParsePlainPiece(q);
      OthersOfPiece(q, []);
      assert Piece(q) + [] == Piece(q);
    }
  }

  /** Whatever `api-key` the client sent, and wherever, makes no difference. */
  lemma ClientKeyIsIgnored(q: Bytes, upstreamKey: Bytes)
    ensures Rewrite(Some(q), upstreamKey) == Rewrite(Some(Strip(q)), upstreamKey)
  {
    StripKeepsOthers(q);
    PreservedIsText(Some(q));
    OthersOfOthers(Preserved(Some(q)), API_KEY);
  }

  /** The rest of the query passes byte for byte, and the upstream's pair follows it, exactly when that rest is in
      the encoder's own form. */
  lemma OthersPassThroughIffTidy(q: Bytes, upstreamKey: Bytes)
    ensures Rewrite(Some(q), upstreamKey) == AppendPair(Strip(q), Pair(API_KEY, upstreamKey)) <==> TidyQuery(Strip(q))
  {
    ClientKeyIsIgnored(q, upstreamKey);
    BytesPassThroughIffTidy(Strip(q), upstreamKey);
  }

  lemma NamelessParts(a: seq<Pair>, b: seq<Pair>)
    requires Nameless(a + b, API_KEY)
    ensures Nameless(a, API_KEY) && Nameless(b, API_KEY)
  {
    assert forall i :: 0 <= i < |a| ==> (a + b)[i] == a[i];
    assert forall i :: 0 <= i < |b| ==> (a + b)[|a| + i] == b[i];
  }

  lemma NamelessPiece(piece: Bytes)
    requires Nameless(Piece(piece), API_KEY)
    ensures !IsApiKey(piece)
  {
    if piece == [] {
      EmptyPieceIsKept();
    } else {
      assert Piece(piece)[0] == ParsePair(piece);
    }
  }

  /** A query without an `api-key` pair has nothing to strip. */
  lemma {:induction false} NothingToStrip(q: Bytes)
    requires Nameless(Parse(q), API_KEY)
    ensures Strip(q) == q && KeptPieces(q) != []
    decreases |q|
  {
    if AMPERSAND in q {
      var piece, rest := SplitFirst(q);
      ParseFirstPiece(piece, rest);
      NamelessParts(Piece(piece), Parse(rest));
      NamelessPiece(piece);
      NothingToStrip(rest);
      assert ([piece] + KeptPieces(rest))[1..] == KeptPieces(rest);
    } else {
      assert Cut(q, AMPERSAND) == |q| && q[..|q|] == q;
      ParsePlainPiece(q);
      NamelessPiece(q);
      assert KeptPieces(q) == [q];
    }
  }

  /** The query `a` becomes `a=`, and so is not passed through. */
  lemma FlagIsRewritten(upstreamKey: Bytes)
    ensures Rewrite(Some([0x61]), upstreamKey) == AppendPair([0x61, EQUALS], Pair(API_KEY, upstreamKey))
    ensures !TidyQuery([0x61])
  {
    var a: Bytes := [0x61];
    assert Cut(a, AMPERSAND) == Cut(a, EQUALS) == 1 && a[..1] == a;
    assert Text(a) && Decode(a) == a;
    ParsePlainPiece(a);
    assert Encode(a) == a;
    var p := ParsePair(a);
    assert p == Pair(a, []);
    assert [p][..0] == [] && Others([p], API_KEY) == [p];
    assert Serialize([p]) == [0x61, EQUALS];
  }
}
