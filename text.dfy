/**
 * String helpers shared by the model: prefixes and suffixes, splitting and
 * joining at a separator character, and the decimal rendering Swift uses for
 * `String(someInt)` and for string interpolation of an `Int`.
 */
module Text {
  import opened Wrappers

  predicate HasPrefix(s: string, prefix: string) {
    |prefix| <= |s| && s[..|prefix|] == prefix
  }

  predicate HasSuffix(s: string, suffix: string) {
    |suffix| <= |s| && s[|s| - |suffix|..] == suffix
  }

  /** The pieces of `s` between occurrences of `sep`, empty pieces kept. */
  function Split(s: string, sep: char): (parts: seq<string>)
    ensures |parts| > 0
    ensures forall i :: 0 <= i < |parts| ==> sep !in parts[i]
  {
    if s == [] then [""]
    else
      var rest := Split(s[1..], sep);
      if s[0] == sep then [""] + rest
      else [[s[0]] + rest[0]] + rest[1..]
  }

  /** The pieces written one after another with `sep` between neighbours. */
  function Join(parts: seq<string>, sep: char): string
    requires |parts| > 0
  {
    if |parts| == 1 then parts[0] else parts[0] + [sep] + Join(parts[1..], sep)
  }

  lemma {:induction false} SplitAfterPiece(piece: string, sep: char, rest: string)
    requires sep !in piece
    ensures Split(piece + [sep] + rest, sep) == [piece] + Split(rest, sep)
  {
    if piece == [] {
      assert piece + [sep] + rest == [sep] + rest;
    } else {
      var s := piece + [sep] + rest;
      assert s[0] == piece[0] && s[0] != sep;
      assert s[1..] == piece[1..] + [sep] + rest;
      SplitAfterPiece(piece[1..], sep, rest);
      assert Split(s[1..], sep) == [piece[1..]] + Split(rest, sep);
      assert [piece[0]] + piece[1..] == piece;
    }
  }

  lemma {:induction false} SplitOfPiece(piece: string, sep: char)
    requires sep !in piece
    ensures Split(piece, sep) == [piece]
  {
    if piece != [] {
      SplitOfPiece(piece[1..], sep);
      assert [piece[0]] + piece[1..] == piece;
    }
  }

  /** Splitting undoes joining, as long as no piece contains the separator. */
  lemma {:induction false} SplitJoin(parts: seq<string>, sep: char)
    requires |parts| > 0
    requires forall i :: 0 <= i < |parts| ==> sep !in parts[i]
    ensures Split(Join(parts, sep), sep) == parts
  {
    if |parts| == 1 {
      SplitOfPiece(parts[0], sep);
    } else {
      SplitJoin(parts[1..], sep);
      SplitAfterPiece(parts[0], sep, Join(parts[1..], sep));
      assert [parts[0]] + parts[1..] == parts;
    }
  }

  /** A join begins where its first piece begins. */
  lemma JoinStartsWithFirst(parts: seq<string>, sep: char)
    requires |parts| > 0 && parts[0] != []
    ensures Join(parts, sep) != [] && Join(parts, sep)[0] == parts[0][0]
  {
  }

  /** Joining short lists, spelled out, so that callers need not unfold `Join`. */
  lemma JoinTwo(a: string, b: string, sep: char)
    ensures Join([a, b], sep) == a + [sep] + b
  {
    assert [a, b][1..] == [b];
  }

  lemma JoinThree(a: string, b: string, c: string, sep: char)
    ensures Join([a, b, c], sep) == a + [sep] + b + [sep] + c
  {
    assert [a, b, c][1..] == [b, c];
    JoinTwo(b, c, sep);
    assert a + [sep] + (b + [sep] + c) == a + [sep] + b + [sep] + c;
  }

  lemma JoinFour(a: string, b: string, c: string, d: string, sep: char)
    ensures Join([a, b, c, d], sep) == a + [sep] + b + [sep] + c + [sep] + d
  {
    assert [a, b, c, d][1..] == [b, c, d];
    JoinThree(b, c, d, sep);
    assert a + [sep] + (b + [sep] + c + [sep] + d) == a + [sep] + b + [sep] + c + [sep] + d;
  }

  lemma JoinFive(a: string, b: string, c: string, d: string, e: string, sep: char)
    ensures Join([a, b, c, d, e], sep) == a + [sep] + b + [sep] + c + [sep] + d + [sep] + e
  {
    assert [a, b, c, d, e][1..] == [b, c, d, e];
    JoinFour(b, c, d, e, sep);
    assert a + [sep] + (b + [sep] + c + [sep] + d + [sep] + e)
        == a + [sep] + b + [sep] + c + [sep] + d + [sep] + e;
  }

  function DigitChar(d: nat): char
    requires d < 10
  {
    ('0' as int + d) as char
  }

  /** The decimal digits of `n`, most significant first, without leading zeros. */
  function NaturalString(n: nat): (s: string)
    ensures |s| > 0
    ensures forall i :: 0 <= i < |s| ==> '0' <= s[i] <= '9'
  {
    if n < 10 then [DigitChar(n)] else NaturalString(n / 10) + [DigitChar(n % 10)]
  }

  /** Swift's `String(n)` for an `Int`: a minus sign for negatives, then the digits. */
  function DecimalString(n: int): string {
    if n < 0 then "-" + NaturalString(-n) else NaturalString(n)
  }

  function DigitValue(c: char): Option<nat> {
    if '0' <= c <= '9' then Some((c as int) - ('0' as int)) else None
  }

  /** Reads a non-empty run of decimal digits. */
  function ParseNatural(s: string): Option<nat> {
    if s == [] then None
    else
      match DigitValue(s[|s| - 1])
      case None => None
      case Some(d) =>
        if |s| == 1 then Some(d)
        else
          match ParseNatural(s[..|s| - 1])
          case None => None
          case Some(high) => Some(high * 10 + d)
  }

  /** Reads an optional minus sign followed by decimal digits. */
  function ParseDecimal(s: string): Option<int> {
    if HasPrefix(s, "-") then
      match ParseNatural(s[1..])
      case None => None
      case Some(n) => var v: int := n; Some(-v)
    else
      match ParseNatural(s)
      case None => None
      case Some(n) => Some(n)
  }

  lemma {:induction false} ParseNaturalString(n: nat)
    ensures ParseNatural(NaturalString(n)) == Some(n)
  {
    var s := NaturalString(n);
    if n >= 10 {
      ParseNaturalString(n / 10);
      assert s[..|s| - 1] == NaturalString(n / 10);
      assert DigitValue(s[|s| - 1]) == Some(n % 10);
    } else {
      assert DigitValue(s[0]) == Some(n);
    }
  }

  lemma UnsignedRoundTrip(n: nat)
    ensures ParseDecimal(NaturalString(n)) == Some(n)
  {
    var s := NaturalString(n);
    assert '0' <= s[0] <= '9';
    assert s[..1] == [s[0]];
    ParseNaturalString(n);
  }

  lemma SignedRoundTrip(n: int)
    requires n < 0
    ensures ParseDecimal("-" + NaturalString(-n)) == Some(n)
  {
    var digits := NaturalString(-n);
    var s := "-" + digits;
    assert s[1..] == digits;
    assert HasPrefix(s, "-");
    ParseNaturalString(-n);
    assert ParseNatural(s[1..]) == Some(-n);
  }

  /** The decimal rendering of an integer can be read back: distinct integers render differently. */
  lemma DecimalRoundTrip(n: int)
    ensures ParseDecimal(DecimalString(n)) == Some(n)
  {
    if n < 0 {
      SignedRoundTrip(n);
    } else {
      UnsignedRoundTrip(n);
    }
  }

  /**
   * A '/'-rooted join, regrouped so that each literal run of a route
   * (for instance "/runs/") appears as one piece.
   */
  lemma RootedJoinThree(a: string, b: string, c: string)
    ensures "/" + Join([a, b, c], '/') == ("/" + a + "/") + b + ("/" + c)
  {
    JoinThree(a, b, c, '/');
  }

  lemma RootedJoinFour(a: string, b: string, c: string, d: string)
    ensures "/" + Join([a, b, c, d], '/') == ("/" + a + "/" + b + "/") + c + ("/" + d)
  {
    JoinFour(a, b, c, d, '/');
  }

  lemma RootedJoinFive(a: string, b: string, c: string, d: string, e: string)
    ensures "/" + Join([a, b, c, d, e], '/') == ("/" + a + "/") + b + ("/" + c + "/") + d + ("/" + e)
  {
    JoinFive(a, b, c, d, e, '/');
  }
}
