/** The query codec against the tables of the standards: which bytes are escaped and how, how escapes,
    pieces and pairs are read, and what counts as text. */
module FormCodec {
  import opened Query
  import opened Wrappers
  import Cyclic

  // ---------------------------------------------------------------------- writing

  /** Letters, digits, and `*`, `-`, `.`, `_`. */
  predicate Plain(b: byte) {
    0x30 <= b <= 0x39 || 0x41 <= b <= 0x5A || 0x61 <= b <= 0x7A || b == 0x2A || b == 0x2D || b == 0x2E || b == 0x5F
  }

  function UpperDigit(n: nat): byte
    requires n < 16
  {
    if n < 10 then 0x30 + n else 0x37 + n
  }

  lemma {:induction false} EncodeConcat(s: Bytes, t: Bytes)
    ensures Encode(s + t) == Encode(s) + Encode(t)
  {
    if s == [] {
      assert s + t == t;
    } else {
      assert (s + t)[1..] == s[1..] + t;
      EncodeConcat(s[1..], t);
    }
  }

  /** Byte by byte: plain bytes stay, a space becomes a plus sign, and every other byte a percent sign and two
      upper-case digits. */
  lemma EncodingOfByte(b: byte, rest: Bytes)
    ensures Encode([b]) == if Plain(b) then [b] else if b == 0x20 then [0x2B]
                           else [0x25, UpperDigit(b / 16), UpperDigit(b % 16)]
    ensures Encode([b]) == [b] <==> Plain(b)
    ensures Encode([b] + rest) == Encode([b]) + Encode(rest)
  {
    EncodeConcat([b], rest);
  }

  lemma {:induction false} PlainIsKept(s: Bytes)
    requires forall b <- s :: Plain(b)
    ensures Encode(s) == s
  {
    if s != [] {
      EncodingOfByte(s[0], s[1..]);
      assert s == [s[0]] + s[1..];
      PlainIsKept(s[1..]);
    }
  }

  /** A key of plain bytes is the end of every rewritten query, after the bytes of `api-key=`, which are its beginning
      or follow an ampersand. */
  lemma KeyComesLastInPlain(query: Option<Bytes>, upstreamKey: Bytes)
    requires forall b <- upstreamKey :: Plain(b)
    ensures var q := Rewrite(query, upstreamKey);
            var tail := [0x61, 0x70, 0x69, 0x2D, 0x6B, 0x65, 0x79, 0x3D] + upstreamKey;
            q == tail || exists before: Bytes :: q == before + [0x26] + tail
  {
    var name: Bytes := [0x61, 0x70, 0x69, 0x2D, 0x6B, 0x65, 0x79];
    PlainIsKept(name);
    PlainIsKept(upstreamKey);
    var tail := name + [0x3D] + upstreamKey;
    assert SerializePair(Pair(API_KEY, upstreamKey)) == tail;
    assert tail == [0x61, 0x70, 0x69, 0x2D, 0x6B, 0x65, 0x79, 0x3D] + upstreamKey;
    assert Rewrite(query, upstreamKey) == tail
        || Rewrite(query, upstreamKey) == Serialize(Preserved(query)) + [0x26] + tail;
  }

  // ---------------------------------------------------------------------- reading

  predicate AnyDigit(b: byte) {
    0x30 <= b <= 0x39 || 0x41 <= b <= 0x46 || 0x61 <= b <= 0x66
  }

  function DigitValue(b: byte): nat
    requires AnyDigit(b)
  {
    if b <= 0x39 then b - 0x30 else if b <= 0x46 then b - 0x37 else b - 0x57
  }

  predicate Escaped(s: Bytes) {
    |s| >= 3 && s[0] == 0x25 && AnyDigit(s[1]) && AnyDigit(s[2])
  }

  lemma PlusReadsAsSpace(s: Bytes)
    requires s != [] && s[0] == 0x2B
    ensures Decode(s) == [0x20] + Decode(s[1..])
  {
  }

  lemma EscapeReadsAsByte(s: Bytes)
    requires Escaped(s)
    ensures Decode(s) == [16 * DigitValue(s[1]) + DigitValue(s[2])] + Decode(s[3..])
  {
    DigitsHaveValues(s[1]);
    DigitsHaveValues(s[2]);
  }

  lemma OtherReadsAsItself(s: Bytes)
    requires s != [] && s[0] != 0x2B && !Escaped(s)
    ensures Decode(s) == [s[0]] + Decode(s[1..])
  {
    if |s| >= 3 {
      DigitsHaveValues(s[1]);
      DigitsHaveValues(s[2]);
    }
  }

  /** A plus sign reads as a space, a percent sign with two digits of either case as the byte they name, and anything
      else, a percent sign without them included, as itself. */
  lemma DecodingOfFirst(s: Bytes)
    requires s != []
    ensures Decode(s) ==
            if s[0] == 0x2B then [0x20] + Decode(s[1..])
            else if Escaped(s) then [16 * DigitValue(s[1]) + DigitValue(s[2])] + Decode(s[3..])
            else [s[0]] + Decode(s[1..])
  {
    if s[0] == 0x2B {
      PlusReadsAsSpace(s);
    } else if Escaped(s) {
      EscapeReadsAsByte(s);
    } else {
      OtherReadsAsItself(s);
    }
  }

  lemma DigitsHaveValues(b: byte)
    ensures HexValue(b) == if AnyDigit(b) then Some(DigitValue(b)) else None
  {
  }

  /** A piece reads as a pair: what is before and after its first equals sign, or all of it and nothing. */
  lemma ReadingOfPiece(name: Bytes, value: Bytes)
    requires 0x3D !in name
    ensures ParsePair(name + [0x3D] + value) == Pair(Lossy(Decode(name)), Lossy(Decode(value)))
    ensures ParsePair(name) == Pair(Lossy(Decode(name)), [])
  {
    CutPastPlain(name, 0x3D, value);
    assert (name + [0x3D] + value)[..|name|] == name && (name + [0x3D] + value)[|name| + 1..] == value;
    assert name[..|name|] == name;
    assert Lossy(Decode([])) == [];
  }

  /** Pieces lie between ampersands, and empty ones read as nothing. */
  lemma ReadingOfQuery(piece: Bytes, rest: Bytes)
    requires 0x26 !in piece
    ensures Parse(piece) == if piece == [] then [] else [ParsePair(piece)]
    ensures Parse(piece + [0x26] + rest) == (if piece == [] then [] else [ParsePair(piece)]) + Parse(rest)
  {
    ParsePlainPiece(piece);
    ParseFirstPiece(piece, rest);
  }

  // ---------------------------------------------------------------------- text

  predicate Scalar(c: nat) {
    c < 0xD800 || 0xE000 <= c < 0x11_0000
  }

  /** The UTF-8 form of a scalar value. */
  function Utf8Of(c: nat): Bytes
    requires Scalar(c)
  {
    if c < 0x80 then [c]
    else if c < 0x800 then [0xC0 + c / 64, 0x80 + c % 64]
    else if c < 0x1_0000 then [0xE0 + c / 4096, 0x80 + c / 64 % 64, 0x80 + c % 64]
    else [0xF0 + c / 262_144, 0x80 + c / 4096 % 64, 0x80 + c / 64 % 64, 0x80 + c % 64]
  }

  function Utf8(cs: seq<nat>): Bytes
    requires forall c <- cs :: Scalar(c)
  {
    if cs == [] then [] else Utf8Of(cs[0]) + Utf8(cs[1..])
  }

  lemma ScalarIsCharacter(c: nat)
    requires Scalar(c)
    ensures StartsWithCharacter(Utf8Of(c)) && |Utf8Of(c)| == Need(Utf8Of(c)[0])
  {
    var e := Utf8Of(c);
    assert |e| > 3 ==> Fit(e, 4) == 4;
    assert |e| > 2 ==> Fit(e, 3) == |e|;
    assert |e| > 1 ==> Fit(e, 2) == |e|;
  }

  lemma DivModOf(q: nat, r: nat, n: nat)
    requires r < n
    ensures (q * n + r) / n == q && (q * n + r) % n == r
  {
    Cyclic.DivModUnique(q * n + r, n, q, r);
  }

  lemma TwoBytes(a: int, b: int) returns (c: nat)
    requires 0xC2 <= a <= 0xDF && 0x80 <= b <= 0xBF
    ensures Scalar(c) && Utf8Of(c) == [a, b]
  {
    c := (a - 0xC0) * 64 + (b - 0x80);
    DivModOf(a - 0xC0, b - 0x80, 64);
  }

  lemma ThreeBytes(a: int, b: int, d: int) returns (c: nat)
    requires 0xE0 <= a <= 0xEF && 0x80 <= b <= 0xBF && 0x80 <= d <= 0xBF
    requires (a == 0xE0 ==> b >= 0xA0) && (a == 0xED ==> b <= 0x9F)
    ensures Scalar(c) && Utf8Of(c) == [a, b, d]
  {
    var high := (a - 0xE0) * 64 + (b - 0x80);
    c := high * 64 + (d - 0x80);
    DivModOf(high, d - 0x80, 64);
    DivModOf(a - 0xE0, b - 0x80, 64);
    assert c == (a - 0xE0) * 4096 + ((b - 0x80) * 64 + (d - 0x80));
    DivModOf(a - 0xE0, (b - 0x80) * 64 + (d - 0x80), 4096);
  }

  lemma FourBytes(a: int, b: int, d: int, e: int) returns (c: nat)
    requires 0xF0 <= a <= 0xF4 && 0x80 <= b <= 0xBF && 0x80 <= d <= 0xBF && 0x80 <= e <= 0xBF
    requires (a == 0xF0 ==> b >= 0x90) && (a == 0xF4 ==> b <= 0x8F)
    ensures Scalar(c) && Utf8Of(c) == [a, b, d, e]
  {
    var top := (a - 0xF0) * 64 + (b - 0x80);
    var high := top * 64 + (d - 0x80);
    c := high * 64 + (e - 0x80);
    DivModOf(high, e - 0x80, 64);
    DivModOf(top, d - 0x80, 64);
    assert c == top * 4096 + ((d - 0x80) * 64 + (e - 0x80));
    DivModOf(top, (d - 0x80) * 64 + (e - 0x80), 4096);
    DivModOf(a - 0xF0, b - 0x80, 64);
    assert c == (a - 0xF0) * 262_144 + ((b - 0x80) * 4096 + (d - 0x80) * 64 + (e - 0x80));
    DivModOf(a - 0xF0, (b - 0x80) * 4096 + (d - 0x80) * 64 + (e - 0x80), 262_144);
  }

  /** The scalar value of the character that `s` starts with. */
  lemma CharacterIsScalar(s: Bytes) returns (c: nat)
    requires s != [] && StartsWithCharacter(s)
    ensures Scalar(c) && Utf8Of(c) == s[..Need(s[0])]
  {
    FitStays(s, 1);
    var n := Need(s[0]);
    assert forall j :: 1 <= j < n ==> if j == 1 then FollowsLead(s[0], s[1]) else 0x80 <= s[j] <= 0xBF;
    if n == 1 {
      c := s[0];
    } else if n == 2 {
      c := TwoBytes(s[0], s[1]);
    } else if n == 3 {
      c := ThreeBytes(s[0], s[1], s[2]);
    } else {
      c := FourBytes(s[0], s[1], s[2], s[3]);
    }
  }

  /** Every byte that fits is one that may follow. */
  lemma {:induction false} FitStays(s: Bytes, i: nat)
    requires 0 < i <= |s| && Need(s[0]) > 0 && i <= Need(s[0])
    ensures Fit(s, i) <= Need(s[0])
    ensures forall j :: i <= j < Fit(s, i) ==> if j == 1 then FollowsLead(s[0], s[1]) else 0x80 <= s[j] <= 0xBF
    decreases |s| - i
  {
    if Fit(s, i) > i {
      FitStays(s, i + 1);
    }
  }

  /** Text is UTF-8: the forms of scalar values, one after the other, and nothing else. */
  lemma TextIsUtf8(s: Bytes)
    ensures Text(s) <==> exists cs: seq<nat> :: (forall c <- cs :: Scalar(c)) && s == Utf8(cs)
  {
    if Text(s) {
      var cs := ScalarsOf(s);
    }
    if cs: seq<nat> :| (forall c <- cs :: Scalar(c)) && s == Utf8(cs) {
      Utf8IsText(cs);
    }
  }

  lemma {:induction false} Utf8IsText(cs: seq<nat>)
    requires forall c <- cs :: Scalar(c)
    ensures Text(Utf8(cs))
  {
    if cs != [] {
      Utf8IsText(cs[1..]);
      ScalarIsCharacter(cs[0]);
      LossyOfCharacter(Utf8Of(cs[0]), Utf8(cs[1..]));
    }
  }

  lemma {:induction false} ScalarsOf(s: Bytes) returns (cs: seq<nat>)
    requires Text(s)
    ensures (forall c <- cs :: Scalar(c)) && s == Utf8(cs)
  {
    cs := [];
    if s != [] {
      TextStartsWithCharacter(s);
      var n := Need(s[0]);
      var c := CharacterIsScalar(s);
      assert s == s[..n] + s[n..];
      assert Lossy(s)[n..] == Lossy(s[n..]);
      var rest := ScalarsOf(s[n..]);
      cs := [c] + rest;
      assert cs[1..] == rest;
    }
  }

  lemma ReplacementIsCharacter(s: Bytes)
    requires |s| >= 3 && s[0] == 0xEF && s[1] == 0xBF && s[2] == 0xBD
    ensures StartsWithCharacter(s)
  {
    assert Fit(s, 3) == 3 && Fit(s, 2) == 3;
  }

  lemma TextStartsWithCharacter(s: Bytes)
    requires Text(s) && s != []
    ensures StartsWithCharacter(s)
  {
    if !StartsWithCharacter(s) {
      assert Lossy(s) == REPLACEMENT + Lossy(s[Fit(s, 1)..]);
      ReplacementIsCharacter(Lossy(s));
    }
  }

  // ---------------------------------------------------------------------- what is not text

  /** Some character begins with these bytes. */
  ghost predicate Begins(p: Bytes) {
    exists c: nat :: Scalar(c) && p <= Utf8Of(c)
  }

  lemma {:induction false} FitAtLeast(s: Bytes, e: Bytes, i: nat, m: nat)
    requires 0 < i <= m <= |s| && m <= |e| && s[..m] == e[..m] && Need(e[0]) > 0 && m <= Need(e[0])
    requires Fit(e, i) >= m
    ensures Fit(s, i) >= m
    decreases m - i
  {
    assert s[0] == s[..m][0] == e[..m][0];
    if i < m {
      assert s[i] == s[..m][i] && s[1] == s[..m][1];
      FitAtLeast(s, e, i + 1, m);
    }
  }

  lemma AllFits(e: Bytes)
    requires e != [] && Need(e[0]) == |e|
    requires |e| > 1 ==> FollowsLead(e[0], e[1])
    requires forall j :: 1 < j < |e| ==> 0x80 <= e[j] <= 0xBF
    ensures StartsWithCharacter(e)
  {
    assert |e| > 3 ==> Fit(e, 4) == 4;
    assert |e| > 2 ==> Fit(e, 3) == |e|;
    assert |e| > 1 ==> Fit(e, 2) == |e|;
  }

  /** Bytes that complete the first `n` of a character. */
  function Padding(lead: byte, n: nat): Bytes
    requires n <= Need(lead)
  {
    seq(Need(lead) - n, j requires 0 <= j < Need(lead) - n =>
      if n + j > 1 then 0x80 else if lead == 0xE0 then 0xA0 else if lead == 0xF0 then 0x90 else 0x80)
  }

  /** What fits can be completed to a character. */
  lemma FitBegins(s: Bytes, n: nat)
    requires s != [] && Need(s[0]) > 0 && n == Fit(s, 1)
    ensures Begins(s[..n])
  {
    FitStays(s, 1);
    var full := s[..n] + Padding(s[0], n);
    AllFits(full);
    var c := CharacterIsScalar(full);
    assert full[..|full|] == full;
    assert s[..n] <= Utf8Of(c);
  }

  /** What does not fit any more cannot be completed. */
  lemma NothingBegins(s: Bytes, n: nat)
    requires s != [] && n == Fit(s, 1) && n < |s| && !StartsWithCharacter(s)
    ensures !Begins(s[..n + 1])
  {
    if c: nat :| Scalar(c) && s[..n + 1] <= Utf8Of(c) {
      var e := Utf8Of(c);
      ScalarIsCharacter(c);
      assert s[..n + 1] == e[..n + 1];
      FitAtLeast(s, e, 1, n + 1);
    }
  }

  lemma NoCharacterStarts(s: Bytes)
    requires s != [] && !(exists c: nat :: Scalar(c) && Utf8Of(c) <= s)
    ensures !StartsWithCharacter(s)
  {
    if StartsWithCharacter(s) {
      var c := CharacterIsScalar(s);
    }
  }

  /** Where no character starts, the longest beginning of one, or else a single byte, becomes one U+FFFD. */
  lemma IllFormedIsReplaced(s: Bytes) returns (n: nat)
    requires s != [] && !(exists c: nat :: Scalar(c) && Utf8Of(c) <= s)
    ensures 0 < n <= |s| && Lossy(s) == [0xEF, 0xBF, 0xBD] + Lossy(s[n..])
    ensures (n > 1 ==> Begins(s[..n])) && (n < |s| ==> !Begins(s[..n + 1]))
  {
    n := Fit(s, 1);
    NoCharacterStarts(s);
    if n > 1 {
      FitBegins(s, n);
    }
    if n < |s| {
      NothingBegins(s, n);
    }
    assert Lossy(s) == REPLACEMENT + Lossy(s[n..]);
  }
}
