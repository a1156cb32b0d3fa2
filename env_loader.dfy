/**
 * `EnvironmentLoader` (OpenAISwift/Helpers/EnvironmentLoader.swift): finding
 * the `OPENAI_API_KEY` entry in the text of a `.env` file, falling back to the
 * process environment. Reading the file and the environment are effects;
 * here the file's contents (or their absence) and the environment are inputs.
 */
module EnvironmentLoader {
  import opened Wrappers
  import opened Text

  /** `EnvironmentLoader.Error`. */
  datatype LoaderError = ApiKeyNotFound

  const KeyName: string := "OPENAI_API_KEY"

  /**
   * Membership in Foundation's `CharacterSet.whitespaces`: the Unicode
   * general category Zs plus CHARACTER TABULATION.
   */
  predicate IsWhitespace(c: char) {
    c == '\t' || c == ' ' || c == '\U{00A0}' || c == '\U{1680}'
      || ('\U{2000}' <= c <= '\U{200A}') || c == '\U{202F}' || c == '\U{205F}' || c == '\U{3000}'
  }

  /** The quote characters stripped from a value: `"` and `'`. */
  predicate IsQuote(c: char) {
    c == '"' || c == '\''
  }

  /** `s` is `prefix + middle + suffix` with every character of `prefix` and `suffix` in the set. */
  ghost predicate IsTrimmingOf(s: string, middle: string, inSet: char -> bool) {
    exists i, j :: 0 <= i <= j <= |s| && s[i..j] == middle
      && (forall k :: 0 <= k < i ==> inSet(s[k]))
      && (forall k :: j <= k < |s| ==> inSet(s[k]))
  }

  /** Drops the characters in the set from the front. */
  function TrimStart(s: string, inSet: char -> bool): (r: string)
    ensures |r| <= |s|
    ensures r == [] || !inSet(r[0])
  {
    if s != [] && inSet(s[0]) then TrimStart(s[1..], inSet) else s
  }

  /** What `TrimStart` drops is a prefix of characters in the set. */
  lemma {:induction false} TrimStartDropsPrefix(s: string, inSet: char -> bool)
    ensures TrimStart(s, inSet) == s[|s| - |TrimStart(s, inSet)|..]
    ensures forall k :: 0 <= k < |s| - |TrimStart(s, inSet)| ==> inSet(s[k])
  {
    if s != [] && inSet(s[0]) {
      TrimStartDropsPrefix(s[1..], inSet);
      assert forall k :: 1 <= k < |s| ==> s[k] == s[1..][k - 1];
    }
  }

  /** Drops the characters in the set from the back. */
  function TrimEnd(s: string, inSet: char -> bool): (r: string)
    ensures |r| <= |s|
    ensures r == [] || !inSet(r[|r| - 1])
  {
    if s != [] && inSet(s[|s| - 1]) then TrimEnd(s[..|s| - 1], inSet) else s
  }

  /** What `TrimEnd` drops is a suffix of characters in the set. */
  lemma {:induction false} TrimEndDropsSuffix(s: string, inSet: char -> bool)
    ensures TrimEnd(s, inSet) == s[..|TrimEnd(s, inSet)|]
    ensures forall k :: |TrimEnd(s, inSet)| <= k < |s| ==> inSet(s[k])
  {
    if s != [] && inSet(s[|s| - 1]) {
      TrimEndDropsSuffix(s[..|s| - 1], inSet);
    }
  }

  /** `trimmingCharacters(in:)`: drops the characters in the set from both ends. */
  function Trim(s: string, inSet: char -> bool): (r: string)
    ensures r == [] || (!inSet(r[0]) && !inSet(r[|r| - 1]))
  {
    var front := TrimStart(s, inSet);
    TrimEndDropsSuffix(front, inSet);
    TrimEnd(front, inSet)
  }

  /**
   * Trimming takes off exactly the characters in the set around a middle
   * that neither begins nor ends with one.
   */
  lemma TrimIsTrimming(s: string, inSet: char -> bool)
    ensures IsTrimmingOf(s, Trim(s, inSet), inSet)
  {
    var front := TrimStart(s, inSet);
    var r := TrimEnd(front, inSet);
    var i := |s| - |front|;
    var j := i + |r|;
    TrimStartDropsPrefix(s, inSet);
    TrimEndDropsSuffix(front, inSet);
    assert front == s[i..];
    assert r == front[..|r|];
    assert s[i..j] == r;
    assert forall k :: 0 <= k < i ==> inSet(s[k]);
    assert forall k :: j <= k < |s| ==> inSet(s[k]) by {
      forall k | j <= k < |s|
        ensures inSet(s[k])
      {
        assert s[k] == front[k - i];
      }
    }
  }

  /** Drops every leading `sep`. */
  function DropSeparators(s: string, sep: char): (r: string)
    ensures r == [] || r[0] != sep
    ensures |r| <= |s|
  {
    if s != [] && s[0] == sep then DropSeparators(s[1..], sep) else s
  }

  /** The position of the first `sep` in `s`. */
  function IndexOf(s: string, sep: char): (i: nat)
    requires sep in s
    ensures i < |s| && s[i] == sep && sep !in s[..i]
  {
    if s[0] == sep then 0 else 1 + IndexOf(s[1..], sep)
  }

  /**
   * Whether every line feed inside a piece, past its first Character, follows
   * a carriage return. By the grapheme cluster rules of Unicode Standard
   * Annex #29 (GB3 to GB5) a line feed is a Character of its own, except right
   * after a carriage return, where the two form the single Character CR LF.
   */
  predicate LineFeedsInCRLF(piece: string) {
    forall k :: 0 < k < |piece| && piece[k] == '\n' ==> piece[k - 1] == '\r'
  }

  /** Whether a piece holds no line feed that is a Character of its own. */
  predicate BreaksOnlyInCRLF(piece: string) {
    LineFeedsInCRLF(piece) && (piece == [] || piece[0] != '\n')
  }

  /**
   * `split(separator: "\n")` without the omission of empty pieces: the text
   * is cut at every line feed that is a Character of its own. `afterCR` says
   * whether the text follows a carriage return.
   */
  function SplitLines(s: string, afterCR: bool): (parts: seq<string>)
    ensures |parts| > 0
    ensures forall i :: 0 < i < |parts| ==> BreaksOnlyInCRLF(parts[i])
    ensures LineFeedsInCRLF(parts[0])
    ensures !afterCR ==> BreaksOnlyInCRLF(parts[0])
  {
    if s == [] then [""]
    else
      var rest := SplitLines(s[1..], s[0] == '\r');
      if s[0] == '\n' && !afterCR then [""] + rest
      else
        var first := [s[0]] + rest[0];
        assert LineFeedsInCRLF(first) by {
          forall k | 0 < k < |first| && first[k] == '\n'
            ensures first[k - 1] == '\r'
          {
            assert first[k] == rest[0][k - 1];
            if k == 1 {
              assert s[0] == '\r';
            } else {
              assert first[k - 1] == rest[0][k - 2];
            }
          }
        }
        [first] + rest[1..]
  }

  /**
   * Swift's `split(separator: "\n")` on a `String`, with its defaults: the
   * non-empty pieces between line feeds that are Characters of their own.
   */
  function LinesOf(s: string): (lines: seq<string>)
    ensures forall i :: 0 <= i < |lines| ==> lines[i] != [] && BreaksOnlyInCRLF(lines[i])
  {
    NonEmpty(SplitLines(s, false))
  }

  function NonEmpty(parts: seq<string>): (r: seq<string>)
    ensures forall i :: 0 <= i < |r| ==> r[i] != [] && r[i] in parts
  {
    if parts == [] then []
    else if parts[0] == [] then NonEmpty(parts[1..])
    else [parts[0]] + NonEmpty(parts[1..])
  }

  /**
   * Swift's `split(separator:maxSplits: 1)` with empty pieces left out:
   * separators before the first piece are skipped; after the first piece,
   * everything past the next separator is the second piece, unless it is
   * empty.
   */
  function SplitOnce(s: string, sep: char): (parts: seq<string>)
    ensures |parts| <= 2
    ensures forall i :: 0 <= i < |parts| ==> parts[i] != []
    ensures |parts| > 0 ==> sep !in parts[0]
  {
    var t := DropSeparators(s, sep);
    if sep !in t then (if t == [] then [] else [t])
    else
      var i := IndexOf(t, sep);
      assert i != 0 by { assert t[0] != sep; }
      var first := t[..i];
      var rest := t[i + 1..];
      if rest == [] then [first] else [first, rest]
  }

  /** A line yields the key's value when it splits into a key and a value and the trimmed key is the one sought. */
  function ParseLine(line: string): Option<string> {
    var parts := SplitOnce(line, '=');
    if |parts| == 2 && Trim(parts[0], IsWhitespace) == KeyName then
      Some(Trim(Trim(parts[1], IsWhitespace), IsQuote))
    else None
  }

  lemma {:induction false} IndexOfAfterPiece(piece: string, sep: char, rest: string)
    requires sep !in piece
    ensures sep in piece + [sep] + rest && IndexOf(piece + [sep] + rest, sep) == |piece|
  {
    var s := piece + [sep] + rest;
    assert s[|piece|] == sep;
    if piece != [] {
      IndexOfAfterPiece(piece[1..], sep, rest);
      assert s[1..] == piece[1..] + [sep] + rest;
    }
  }

  /**
   * A line is cut at its first '=' only: the key is what comes before it and
   * the value, '=' signs and all, what comes after; the value is trimmed of
   * whitespace and then of quotes.
   */
  lemma KeyLineYieldsValue(key: string, value: string)
    requires key != [] && key[0] != '=' && '=' !in key
    requires value != []
    requires Trim(key, IsWhitespace) == KeyName
    ensures ParseLine(key + "=" + value) == Some(Trim(Trim(value, IsWhitespace), IsQuote))
  {
    SplitOnceAtFirst(key, value, '=');
    assert key + "=" + value == key + ['='] + value;
  }

  /** A piece, a separator and a non-empty rest split once into the piece and the rest. */
  lemma SplitOnceAtFirst(piece: string, rest: string, sep: char)
    requires piece != [] && sep !in piece && rest != []
    ensures SplitOnce(piece + [sep] + rest, sep) == [piece, rest]
  {
    var line := piece + [sep] + rest;
    assert line[0] == piece[0];
    assert DropSeparators(line, sep) == line;
    IndexOfAfterPiece(piece, sep, rest);
    assert line[..|piece|] == piece;
    assert line[|piece| + 1..] == rest;
  }

  /** A key with nothing after its '=' splits into one piece and is ignored. */
  lemma EmptyValueIgnored(key: string)
    requires key != [] && key[0] != '=' && '=' !in key
    ensures ParseLine(key + "=") == None
  {
    var line := key + "=";
    assert line[0] == key[0];
    assert DropSeparators(line, '=') == line;
    IndexOfAfterPiece(key, '=', []);
    assert key + "=" == key + ['='] + [];
    assert line[|key| + 1..] == [];
  }

  /** A line without '=' is ignored. */
  lemma NoSeparatorIgnored(line: string)
    requires '=' !in line
    ensures ParseLine(line) == None
  {
    var t := DropSeparators(line, '=');
    assert t == line[|line| - |t|..] by { DropSeparatorsIsSuffix(line, '='); }
    assert '=' !in t;
  }

  lemma {:induction false} DropSeparatorsIsSuffix(s: string, sep: char)
    ensures DropSeparators(s, sep) == s[|s| - |DropSeparators(s, sep)|..]
  {
    if s != [] && s[0] == sep {
      DropSeparatorsIsSuffix(s[1..], sep);
    }
  }

  /** '=' signs in front of the key are skipped rather than splitting off an empty key. */
  lemma LeadingSeparatorSkipped(line: string)
    ensures ParseLine("=" + line) == ParseLine(line)
  {
    SplitOnceSkipsLeadingSeparator(line, '=');
  }

  lemma SplitOnceSkipsLeadingSeparator(s: string, sep: char)
    ensures SplitOnce([sep] + s, sep) == SplitOnce(s, sep)
  {
    assert ([sep] + s)[1..] == s;
    assert DropSeparators([sep] + s, sep) == DropSeparators(s, sep);
  }

  predicate IsComment(line: string) {
    HasPrefix(line, "#")
  }

  /**
   * `.filter { !$0.hasPrefix("#") }`, `.compactMap(parse)` and `.first`: the
   * value of the first line that is not a comment and that `parse` accepts.
   */
  function FirstKey(lines: seq<string>, parse: string -> Option<string>): Option<string> {
    if lines == [] then None
    else if !IsComment(lines[0]) && parse(lines[0]).Some? then parse(lines[0])
    else FirstKey(lines[1..], parse)
  }

  /**
   * The first match wins: a key is found exactly when some non-comment line
   * is accepted, and it is the value of the first such line.
   */
  lemma {:induction false} FirstKeyIsFirstMatch(lines: seq<string>, parse: string -> Option<string>)
    ensures FirstKey(lines, parse).Some? <==>
      exists i :: 0 <= i < |lines| && !IsComment(lines[i]) && parse(lines[i]).Some?
    ensures forall i ::
      (&& 0 <= i < |lines| && !IsComment(lines[i]) && parse(lines[i]).Some?
       && forall j :: 0 <= j < i ==> IsComment(lines[j]) || parse(lines[j]).None?)
      ==> FirstKey(lines, parse) == parse(lines[i])
  {
    if lines != [] && !(!IsComment(lines[0]) && parse(lines[0]).Some?) {
      var rest := lines[1..];
      FirstKeyIsFirstMatch(rest, parse);
      assert forall i :: 0 < i < |lines| ==> lines[i] == rest[i - 1];
      if exists i :: 0 <= i < |lines| && !IsComment(lines[i]) && parse(lines[i]).Some? {
        var i :| 0 <= i < |lines| && !IsComment(lines[i]) && parse(lines[i]).Some?;
        assert !IsComment(rest[i - 1]) && parse(rest[i - 1]).Some?;
      }
    }
  }

  /** A comment line, wherever it stands, changes nothing. */
  lemma {:induction false} CommentLineIgnored(before: seq<string>, comment: string, after: seq<string>,
                                              parse: string -> Option<string>)
    requires IsComment(comment)
    ensures FirstKey(before + [comment] + after, parse) == FirstKey(before + after, parse)
  {
    if before == [] {
      assert (before + [comment] + after)[1..] == after;
      assert before + after == after;
    } else {
      CommentLineIgnored(before[1..], comment, after, parse);
      assert (before + [comment] + after)[1..] == before[1..] + [comment] + after;
      assert (before + after)[1..] == before[1..] + after;
    }
  }

  /** A piece without line feeds is one piece. */
  lemma {:induction false} SplitLinesOfPiece(piece: string, afterCR: bool)
    requires '\n' !in piece
    ensures SplitLines(piece, afterCR) == [piece]
  {
    if piece != [] {
      SplitLinesOfPiece(piece[1..], piece[0] == '\r');
      assert [piece[0]] + piece[1..] == piece;
    }
  }

  /** A line feed after a piece that does not end in a carriage return separates it from the rest. */
  lemma {:induction false} SplitLinesAfterPiece(piece: string, rest: string, afterCR: bool)
    requires '\n' !in piece && !HasSuffix(piece, "\r")
    requires piece == [] ==> !afterCR
    ensures SplitLines(piece + ['\n'] + rest, afterCR) == [piece] + SplitLines(rest, false)
  {
    var s := piece + ['\n'] + rest;
    if piece == [] {
      assert s == ['\n'] + rest;
      assert s[1..] == rest;
    } else {
      assert s[0] == piece[0] && s[1..] == piece[1..] + ['\n'] + rest;
      assert !HasSuffix(piece[1..], "\r") by {
        if piece[1..] != [] {
          assert piece[1..][|piece[1..]| - 1..] == piece[|piece| - 1..];
        }
      }
      assert piece[1..] == [] ==> piece[0] != '\r' by {
        if piece[1..] == [] {
          assert piece[|piece| - 1..] == [piece[0]];
        }
      }
      SplitLinesAfterPiece(piece[1..], rest, piece[0] == '\r');
      assert [piece[0]] + piece[1..] == piece;
    }
  }

  /** A line feed after a carriage return does not separate: the pieces are glued together. */
  lemma {:induction false} SplitLinesGlueAfterCR(piece: string, rest: string, afterCR: bool)
    requires '\n' !in piece && HasSuffix(piece, "\r")
    ensures SplitLines(piece + ['\n'] + rest, afterCR)
      == [piece + ['\n'] + SplitLines(rest, false)[0]] + SplitLines(rest, false)[1..]
  {
    var s := piece + ['\n'] + rest;
    assert s[0] == piece[0] && s[1..] == piece[1..] + ['\n'] + rest;
    var r := SplitLines(rest, false);
    if |piece| == 1 {
      assert piece == ['\r'];
      assert s[1..] == ['\n'] + rest;
      assert s[1..][1..] == rest;
      assert SplitLines(s[1..], true) == [['\n'] + r[0]] + r[1..];
      assert [s[0]] + (['\n'] + r[0]) == piece + ['\n'] + r[0];
    } else {
      assert piece[1..][|piece[1..]| - 1..] == piece[|piece| - 1..];
      SplitLinesGlueAfterCR(piece[1..], rest, piece[0] == '\r');
      assert [piece[0]] + (piece[1..] + ['\n'] + SplitLines(rest, false)[0])
        == piece + ['\n'] + SplitLines(rest, false)[0];
    }
  }

  lemma {:induction false} SplitLinesOfJoin(lines: seq<string>)
    requires |lines| > 0
    requires forall i :: 0 <= i < |lines| ==> '\n' !in lines[i] && !HasSuffix(lines[i], "\r")
    ensures SplitLines(Join(lines, '\n'), false) == lines
  {
    if |lines| == 1 {
      SplitLinesOfPiece(lines[0], false);
    } else {
      SplitLinesOfJoin(lines[1..]);
      SplitLinesAfterPiece(lines[0], Join(lines[1..], '\n'), false);
      assert [lines[0]] + lines[1..] == lines;
    }
  }

  /**
   * Text whose lines all end in a carriage return, as a file written with
   * CR LF line ends, is a single piece: Swift finds no line feed of its own in it.
   */
  lemma {:induction false} CRLFTextIsOneLine(lines: seq<string>)
    requires |lines| > 0
    requires forall i :: 0 <= i < |lines| ==> '\n' !in lines[i]
    requires forall i :: 0 <= i < |lines| - 1 ==> HasSuffix(lines[i], "\r")
    ensures SplitLines(Join(lines, '\n'), false) == [Join(lines, '\n')]
  {
    if |lines| == 1 {
      SplitLinesOfPiece(lines[0], false);
    } else {
      CRLFTextIsOneLine(lines[1..]);
      SplitLinesGlueAfterCR(lines[0], Join(lines[1..], '\n'), false);
    }
  }

  /** So a CR LF file whose first line is a comment yields no key at all, whatever its other lines say. */
  lemma {:induction false} CRLFFileBehindCommentHasNoKey(lines: seq<string>)
    requires |lines| > 0 && HasPrefix(lines[0], "#")
    requires forall i :: 0 <= i < |lines| ==> '\n' !in lines[i]
    requires forall i :: 0 <= i < |lines| - 1 ==> HasSuffix(lines[i], "\r")
    ensures LoadFromEnvFile(Some(Join(lines, '\n'))) == None
  {
    var text := Join(lines, '\n');
    CRLFTextIsOneLine(lines);
    JoinStartsWithFirst(lines, '\n');
    assert text[..1] == lines[0][..1];
    assert IsComment(text) && text != [];
    assert [text][1..] == [] && NonEmpty([]) == [];
    assert NonEmpty([text]) == [text] + NonEmpty([]);
    assert LinesOf(text) == [text];
    assert FirstKey([text], ParseLine) == FirstKey([], ParseLine);
  }

  lemma {:induction false} NonEmptyKeepsNonEmpty(parts: seq<string>)
    requires forall i :: 0 <= i < |parts| ==> parts[i] != []
    ensures NonEmpty(parts) == parts
  {
    if parts != [] {
      NonEmptyKeepsNonEmpty(parts[1..]);
    }
  }

  /** Empty lines never yield a key, so leaving them out changes nothing. */
  lemma {:induction false} FirstKeySkipsEmptyLines(lines: seq<string>, parse: string -> Option<string>)
    requires parse("") == None
    ensures FirstKey(NonEmpty(lines), parse) == FirstKey(lines, parse)
  {
    if lines != [] {
      FirstKeySkipsEmptyLines(lines[1..], parse);
      if lines[0] != [] {
        assert NonEmpty(lines) == [lines[0]] + NonEmpty(lines[1..]);
        assert ([lines[0]] + NonEmpty(lines[1..]))[1..] == NonEmpty(lines[1..]);
      }
    }
  }

  lemma EmptyLineYieldsNothing()
    ensures ParseLine("") == None
  {
    assert DropSeparators("", '=') == "";
  }

  /** `loadFromEnvFile`: nil when the file cannot be read, else the first key found in its lines. */
  function LoadFromEnvFile(contents: Option<string>): Option<string> {
    if contents.None? then None else FirstKey(LinesOf(contents.value), ParseLine)
  }

  /** `loadAPIKey`: the file's key first, then the environment variable, else `apiKeyNotFound`. */
  function LoadAPIKey(contents: Option<string>, environment: map<string, string>): (r: Result<string, LoaderError>)
    ensures LoadFromEnvFile(contents).Some? ==> r == Success(LoadFromEnvFile(contents).value)
    ensures LoadFromEnvFile(contents).None? && KeyName in environment ==> r == Success(environment[KeyName])
    ensures r.Failure? <==> LoadFromEnvFile(contents).None? && KeyName !in environment
  {
    match LoadFromEnvFile(contents)
    case Some(key) => Success(key)
    case None => if KeyName in environment then Success(environment[KeyName]) else Failure(ApiKeyNotFound)
  }

  /**
   * For a file whose lines end in a bare line feed (a last line feed and
   * blank lines included), the key is the value of its first non-comment
   * line that names `OPENAI_API_KEY`.
   */
  lemma FileKeyIsFirstMatchingLine(lines: seq<string>)
    requires |lines| > 0
    requires forall i :: 0 <= i < |lines| ==> '\n' !in lines[i] && !HasSuffix(lines[i], "\r")
    ensures LoadFromEnvFile(Some(Join(lines, '\n'))) == FirstKey(lines, ParseLine)
  {
    SplitLinesOfJoin(lines);
    EmptyLineYieldsNothing();
    FirstKeySkipsEmptyLines(lines, ParseLine);
  }
}
