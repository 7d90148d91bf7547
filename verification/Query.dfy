/** The query rewrite: every pair but `api-key` is kept, and one `api-key` pair is appended.

    The codec is application/x-www-form-urlencoded, sections 5.1 (parsing) and 5.2 (serializing) of
    the URL Standard, with "UTF-8 decode without BOM" from the Encoding Standard.  Text is the
    sequence of its UTF-8 bytes. */
module Query {
  import opened Wrappers

  type byte = x: int | 0 <= x < 256

  type Bytes = seq<byte>

  const PLUS: byte := 0x2B
  const PERCENT: byte := 0x25
  const AMPERSAND: byte := 0x26
  const EQUALS: byte := 0x3D
  const SPACE: byte := 0x20
  const REPLACEMENT: Bytes := [0xEF, 0xBF, 0xBD]
  const API_KEY: Bytes := [0x61, 0x70, 0x69, 0x2D, 0x6B, 0x65, 0x79]

  datatype Pair = Pair(name: Bytes, value: Bytes)

  // ---------------------------------------------------------------------- UTF-8, lossily

  /** How many bytes a character with this first byte has; 0 if none starts with it. */
  function Need(lead: byte): nat {
    if lead < 0x80 then 1
    else if 0xC2 <= lead <= 0xDF then 2
    else if 0xE0 <= lead <= 0xEF then 3
    else if 0xF0 <= lead <= 0xF4 then 4
    else 0
  }

  predicate FollowsLead(lead: byte, b: byte) {
    (if lead == 0xE0 then 0xA0 else if lead == 0xF0 then 0x90 else 0x80) <= b
    <= (if lead == 0xED then 0x9F else if lead == 0xF4 then 0x8F else 0xBF)
  }

  /** How many bytes of `s`, the first `i` of which do, go into the character it starts with. */
  function Fit(s: Bytes, i: nat): (n: nat)
    requires 0 < i <= |s| && (Need(s[0]) > 0 ==> i <= Need(s[0]))
    ensures i <= n <= |s|
    decreases |s| - i
  {
    if i < |s| && i < Need(s[0]) && (if i == 1 then FollowsLead(s[0], s[1]) else 0x80 <= s[i] <= 0xBF)
    then Fit(s, i + 1) else i
  }

  predicate StartsWithCharacter(s: Bytes)
    requires s != []
  {
    Need(s[0]) > 0 && Fit(s, 1) == Need(s[0])
  }

  /** Ill-formed stretches become U+FFFD, one for each maximal prefix of a character. */
  function Lossy(s: Bytes): Bytes {
    if s == [] then [] else (if StartsWithCharacter(s) then s[..Fit(s, 1)] else REPLACEMENT) + Lossy(s[Fit(s, 1)..])
  }

  /** Well-formed text. */
  predicate Text(s: Bytes) {
    Lossy(s) == s
  }

  lemma {:induction false} FitLooksNoFurther(s: Bytes, t: Bytes, i: nat)
    requires 0 < i <= |s| && Need(s[0]) > 0 && i <= Need(s[0])
    requires Fit(s, i) == Need(s[0])
    ensures Fit(s + t, i) == Need(s[0])
    ensures Fit(s[..Need(s[0])], i) == Need(s[0])
    decreases |s| - i
  {
    if i < Need(s[0]) {
      FitLooksNoFurther(s, t, i + 1);
    }
  }

  lemma LossyOfCharacter(c: Bytes, rest: Bytes)
    requires c != [] && StartsWithCharacter(c) && |c| == Need(c[0])
    ensures Lossy(c + rest) == c + Lossy(rest)
  {
    FitLooksNoFurther(c, rest, 1);
    assert (c + rest)[..|c|] == c && (c + rest)[|c|..] == rest;
  }

  /** What decoding yields is well formed. */
  lemma {:induction false} LossyIsText(s: Bytes)
    ensures Text(Lossy(s))
  {
    if s != [] {
      var n := Fit(s, 1);
      LossyIsText(s[n..]);
      if StartsWithCharacter(s) {
        FitLooksNoFurther(s, [], 1);
        LossyOfCharacter(s[..n], Lossy(s[n..]));
      } else {
        assert Fit(REPLACEMENT, 2) == Fit(REPLACEMENT, 3) == 3;
        LossyOfCharacter(REPLACEMENT, Lossy(s[n..]));
      }
    }
  }

  // ---------------------------------------------------------------------- one component

  predicate Unreserved(b: byte) {
    || 0x30 <= b <= 0x39 || 0x41 <= b <= 0x5A || 0x61 <= b <= 0x7A
    || b == 0x2A || b == 0x2D || b == 0x2E || b == 0x5F
  }

  function HexDigit(n: nat): byte
    requires n < 16
  {
    if n < 10 then 0x30 + n else 0x41 + n - 10
  }

  /** The value of a hexadecimal digit of either case. */
  function HexValue(b: byte): (v: Option<nat>)
    ensures v.Some? ==> v.value < 16
  {
    if 0x30 <= b <= 0x39 then Some(b - 0x30)
    else if 0x41 <= b <= 0x46 then Some(b - 0x41 + 10)
    else if 0x61 <= b <= 0x66 then Some(b - 0x61 + 10)
    else None
  }

  function EncodeByte(b: byte): Bytes {
    if b == SPACE then [PLUS] else if Unreserved(b) then [b] else [PERCENT, HexDigit(b / 16), HexDigit(b % 16)]
  }

  function Encode(s: Bytes): Bytes {
    if s == [] then [] else EncodeByte(s[0]) + Encode(s[1..])
  }

  /** Plus signs are spaces, and `%` with two hexadecimal digits is a byte; any other `%` stands for itself. */
  function Decode(s: Bytes): Bytes {
    if s == [] then []
    else if s[0] == PLUS then [SPACE] + Decode(s[1..])
    else if s[0] == PERCENT && |s| >= 3 && HexValue(s[1]).Some? && HexValue(s[2]).Some?
    then [16 * HexValue(s[1]).value + HexValue(s[2]).value] + Decode(s[3..])
    else [s[0]] + Decode(s[1..])
  }

  lemma DecodeEncodedByte(b: byte, rest: Bytes)
    ensures Decode(EncodeByte(b) + rest) == [b] + Decode(rest)
  {
    var e := EncodeByte(b);
    assert (e + rest)[|e|..] == rest;
    assert 16 * (b / 16) + b % 16 == b;
  }

  lemma {:induction false} DecodeEncoded(s: Bytes)
    ensures Decode(Encode(s)) == s
  {
    if s != [] {
      DecodeEncodedByte(s[0], Encode(s[1..]));
      DecodeEncoded(s[1..]);
    }
  }

  lemma {:induction false} EncodedIsPlain(s: Bytes)
    ensures AMPERSAND !in Encode(s) && EQUALS !in Encode(s)
  {
    if s != [] {
      EncodedIsPlain(s[1..]);
    }
  }

  // ---------------------------------------------------------------------- the whole query

  /** Where `sep` first occurs, or the length. */
  function Cut(s: Bytes, sep: byte): (i: nat)
    ensures i <= |s| && sep !in s[..i] && (i < |s| ==> s[i] == sep)
  {
    if s == [] || s[0] == sep then 0 else 1 + Cut(s[1..], sep)
  }

  function After(s: Bytes, i: nat): Bytes
    requires i <= |s|
  {
    if i < |s| then s[i + 1..] else []
  }

  function ParsePair(piece: Bytes): Pair {
    var i := Cut(piece, EQUALS);
    Pair(Lossy(Decode(piece[..i])), Lossy(Decode(After(piece, i))))
  }

  function Parse(q: Bytes): seq<Pair>
    decreases |q|
  {
    if q == [] then [] else
      var i := Cut(q, AMPERSAND);
      (if i == 0 then [] else [ParsePair(q[..i])]) + Parse(After(q, i))
  }

  function SerializePair(p: Pair): Bytes {
    Encode(p.name) + [EQUALS] + Encode(p.value)
  }

  function Join(a: Bytes, b: Bytes): Bytes {
    a + [AMPERSAND] + b
  }

  function AppendPair(q: Bytes, p: Pair): Bytes {
    if q == [] then SerializePair(p) else Join(q, SerializePair(p))
  }

  function Serialize(pairs: seq<Pair>): Bytes {
    if pairs == [] then [] else AppendPair(Serialize(pairs[..|pairs| - 1]), pairs[|pairs| - 1])
  }

  /** The pairs of other names, in order. */
  function Others(pairs: seq<Pair>, name: Bytes): seq<Pair> {
    if pairs == [] then [] else
      Others(pairs[..|pairs| - 1], name) + if pairs[|pairs| - 1].name != name then [pairs[|pairs| - 1]] else []
  }

  function Preserved(query: Option<Bytes>): seq<Pair> {
    match query
    case None => []
    case Some(q) => Others(Parse(q), API_KEY)
  }

  function Rewrite(query: Option<Bytes>, upstreamKey: Bytes): Bytes {
    AppendPair(Serialize(Preserved(query)), Pair(API_KEY, upstreamKey))
  }

  method BuildUpstreamQuery(query: Option<Bytes>, upstreamKey: Bytes) returns (q: Bytes)
    ensures q == Rewrite(query, upstreamKey)
  {
    var preserved := Preserved(query);
    q := [];
    for i := 0 to |preserved|
      invariant q == Serialize(preserved[..i])
    {
      q := AppendPair(q, preserved[i]);
      assert preserved[..i + 1][..i] == preserved[..i];
    }
    assert preserved[..|preserved|] == preserved;
    q := AppendPair(q, Pair(API_KEY, upstreamKey));
  }

  lemma {:induction false} CutPastPlain(s: Bytes, sep: byte, rest: Bytes)
    requires sep !in s
    ensures Cut(s + [sep] + rest, sep) == |s| && Cut(s, sep) == |s|
  {
    if s != [] {
      assert (s + [sep] + rest)[1..] == s[1..] + [sep] + rest;
      assert s[0] in s;
      CutPastPlain(s[1..], sep, rest);
    }
  }

  lemma ParseSerializedPair(p: Pair)
    requires Text(p.name) && Text(p.value)
    ensures ParsePair(SerializePair(p)) == p
  {
    var e, v := Encode(p.name), Encode(p.value);
    EncodedIsPlain(p.name);
    CutPastPlain(e, EQUALS, v);
    assert SerializePair(p)[..|e|] == e && SerializePair(p)[|e| + 1..] == v;
    DecodeEncoded(p.name);
    DecodeEncoded(p.value);
  }

  function Piece(piece: Bytes): seq<Pair> {
    if piece == [] then [] else [ParsePair(piece)]
  }

  lemma ParsePlainPiece(piece: Bytes)
    requires AMPERSAND !in piece
    ensures Parse(piece) == Piece(piece)
  {
    CutPastPlain(piece, AMPERSAND, []);
    assert piece[..|piece|] == piece;
  }

  lemma ParseFirstPiece(piece: Bytes, rest: Bytes)
    requires AMPERSAND !in piece
    ensures Parse(Join(piece, rest)) == Piece(piece) + Parse(rest)
  {
    CutPastPlain(piece, AMPERSAND, rest);
    assert Join(piece, rest)[..|piece|] == piece && Join(piece, rest)[|piece| + 1..] == rest;
  }

  lemma JoinAssociates(a: Bytes, b: Bytes, c: Bytes)
    ensures Join(Join(a, b), c) == Join(a, Join(b, c))
  {
    assert a + [AMPERSAND] + b + [AMPERSAND] + c == a + [AMPERSAND] + (b + [AMPERSAND] + c);
  }

  lemma ParsePastHead(head: Bytes, rest: Bytes, piece: Bytes)
    requires AMPERSAND !in head
    requires Parse(Join(rest, piece)) == Parse(rest) + Piece(piece)
    ensures Parse(Join(Join(head, rest), piece)) == Parse(Join(head, rest)) + Piece(piece)
  {
    JoinAssociates(head, rest, piece);
    ParseFirstPiece(head, rest);
    ParseFirstPiece(head, Join(rest, piece));
    PairsAssociate(Piece(head), Parse(rest), Piece(piece));
  }

  lemma PairsAssociate(a: seq<Pair>, b: seq<Pair>, c: seq<Pair>)
    ensures a + (b + c) == (a + b) + c
  {
  }

  lemma ParseOnePieceJoined(q: Bytes, piece: Bytes)
    requires AMPERSAND !in q && AMPERSAND !in piece
    ensures Parse(Join(q, piece)) == Parse(q) + Piece(piece)
  {
    ParseFirstPiece(q, piece);
    ParsePlainPiece(q);
    ParsePlainPiece(piece);
  }

  lemma SplitAtCut(q: Bytes) returns (head: Bytes, rest: Bytes)
    requires AMPERSAND in q
    ensures AMPERSAND !in head && q == Join(head, rest) && |rest| < |q|
  {
    var i := Cut(q, AMPERSAND);
    assert q[..|q|] == q;
    head, rest := q[..i], q[i + 1..];
  }

  lemma {:induction false} ParseJoined(q: Bytes, piece: Bytes)
    requires AMPERSAND !in piece
    ensures Parse(Join(q, piece)) == Parse(q) + Piece(piece)
    decreases |q|
  {
    if AMPERSAND in q {
      var head, rest := SplitAtCut(q);
      ParseJoined(rest, piece);
      ParsePastHead(head, rest, piece);
    } else {
      ParseOnePieceJoined(q, piece);
    }
  }

  /** A whole pair appended to a query is one more pair. */
  lemma ParseAppendedPair(q: Bytes, p: Pair)
    requires Text(p.name) && Text(p.value)
    ensures Parse(AppendPair(q, p)) == Parse(q) + [p]
  {
    var piece := SerializePair(p);
    EncodedIsPlain(p.name);
    EncodedIsPlain(p.value);
    ParseSerializedPair(p);
    if q == [] {
      ParsePlainPiece(piece);
    } else {
      ParseJoined(q, piece);
    }
  }

  predicate AllText(pairs: seq<Pair>) {
    forall i :: 0 <= i < |pairs| ==> Text(pairs[i].name) && Text(pairs[i].value)
  }

  /** The codec round-trips. */
  lemma {:induction false} ParseSerialized(pairs: seq<Pair>)
    requires AllText(pairs)
    ensures Parse(Serialize(pairs)) == pairs
  {
    if pairs != [] {
      var n := |pairs| - 1;
      ParseSerialized(pairs[..n]);
      ParseAppendedPair(Serialize(pairs[..n]), pairs[n]);
      assert Serialize(pairs) == AppendPair(Serialize(pairs[..n]), pairs[n]);
    }
  }

  lemma ParsedPairIsText(piece: Bytes)
    ensures AllText(Piece(piece))
  {
    var j := Cut(piece, EQUALS);
    LossyIsText(Decode(piece[..j]));
    LossyIsText(Decode(After(piece, j)));
  }

  lemma {:induction false} ParsedIsText(q: Bytes)
    ensures AllText(Parse(q))
    decreases |q|
  {
    if q != [] {
      var i := Cut(q, AMPERSAND);
      ParsedPairIsText(q[..i]);
      ParsedIsText(After(q, i));
    }
  }

  predicate Nameless(pairs: seq<Pair>, name: Bytes) {
    forall i :: 0 <= i < |pairs| ==> pairs[i].name != name
  }

  lemma {:induction false} OthersAreText(pairs: seq<Pair>, name: Bytes)
    requires AllText(pairs)
    ensures AllText(Others(pairs, name)) && Nameless(Others(pairs, name), name)
  {
    if pairs != [] {
      OthersAreText(pairs[..|pairs| - 1], name);
    }
  }

  lemma {:induction false} OthersOfOthers(pairs: seq<Pair>, name: Bytes)
    requires Nameless(pairs, name)
    ensures Others(pairs, name) == pairs
  {
    if pairs != [] {
      OthersOfOthers(pairs[..|pairs| - 1], name);
    }
  }

  lemma OthersDropLast(kept: seq<Pair>, last: Pair)
    requires Nameless(kept, last.name)
    ensures Others(kept + [last], last.name) == kept
  {
    OthersOfOthers(kept, last.name);
    assert (kept + [last])[..|kept|] == kept;
  }

  lemma ApiKeyIsText()
    ensures Text(API_KEY)
  {
    var s := API_KEY;
    assert Lossy(s[6..]) == s[6..];
    assert Lossy(s[5..]) == s[5..];
    assert Lossy(s[4..]) == s[4..];
    assert Lossy(s[3..]) == s[3..];
    assert Lossy(s[2..]) == s[2..];
    assert Lossy(s[1..]) == s[1..];
  }

  lemma PreservedIsText(query: Option<Bytes>)
    ensures AllText(Preserved(query)) && Nameless(Preserved(query), API_KEY)
  {
    if query.Some? {
      ParsedIsText(query.value);
      OthersAreText(Parse(query.value), API_KEY);
    }
  }

  /** Whatever the query was, decoding the rewritten one gives its pairs in order without any `api-key`
      pair, then exactly one `api-key` pair with the upstream's key. */
  lemma RewriteRoundTrips(query: Option<Bytes>, upstreamKey: Bytes)
    requires Text(upstreamKey)
    ensures Parse(Rewrite(query, upstreamKey)) == Preserved(query) + [Pair(API_KEY, upstreamKey)]
    ensures Preserved(query) == if query.Some? then Others(Parse(query.value), API_KEY) else []
    ensures Nameless(Preserved(query), API_KEY)
  {
    ApiKeyIsText();
    PreservedIsText(query);
    ParseSerialized(Preserved(query));
    ParseAppendedPair(Serialize(Preserved(query)), Pair(API_KEY, upstreamKey));
  }

  /** Only the last rewrite shows. */
  lemma LastRewriteWins(query: Option<Bytes>, first: Bytes, second: Bytes)
    requires Text(first)
    ensures Rewrite(Some(Rewrite(query, first)), second) == Rewrite(query, second)
  {
    RewriteRoundTrips(query, first);
    OthersDropLast(Preserved(query), Pair(API_KEY, first));
    assert Preserved(Some(Rewrite(query, first))) == Preserved(query);
  }
}
