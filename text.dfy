/** The string operations the pages apply to form input: `trim`, the `\s`
    character class, `split(' ')`, `startsWith`, `toUpperCase` and the
    "initials" rule used for avatars. Strings are sequences of Unicode
    characters; JavaScript's UTF-16 code units are not modelled. */
module Text {
  import Seqs

  /** JavaScript's WhiteSpace and LineTerminator characters: what `trim`
      removes and what the regular expression class `\s` matches. */
  predicate IsWhitespace(c: char)
  {
    || ('\t' <= c <= '\r')
    || c == ' ' || c == '\U{00A0}' || c == '\U{1680}'
    || ('\U{2000}' <= c <= '\U{200A}')
    || c == '\U{2028}' || c == '\U{2029}' || c == '\U{202F}' || c == '\U{205F}'
    || c == '\U{3000}' || c == '\U{FEFF}'
  }

  predicate IsNotWhitespace(c: char)
  {
    !IsWhitespace(c)
  }

  /** `s.trimStart()`: the suffix left after dropping leading whitespace. */
  function TrimStart(s: string): (r: string)
    ensures |r| <= |s| && r == s[|s| - |r|..]
    ensures forall k :: 0 <= k < |s| - |r| ==> IsWhitespace(s[k])
    ensures |r| > 0 ==> !IsWhitespace(r[0])
  {
    if |s| > 0 && IsWhitespace(s[0]) then TrimStart(s[1..]) else s
  }

  /** `s.trimEnd()`: the prefix left after dropping trailing whitespace. */
  function TrimEnd(s: string): (r: string)
    ensures |r| <= |s| && r == s[..|r|]
    ensures forall k :: |r| <= k < |s| ==> IsWhitespace(s[k])
    ensures |r| > 0 ==> !IsWhitespace(r[|r| - 1])
  {
    if |s| > 0 && IsWhitespace(s[|s| - 1]) then TrimEnd(s[..|s| - 1]) else s
  }

  /** `s.trim()`. */
  function Trim(s: string): string
  {
    TrimEnd(TrimStart(s))
  }

  /** `!s.trim()`: the input is empty or only whitespace. */
  predicate IsBlank(s: string)
  {
    |Trim(s)| == 0
  }

  /** A string is blank exactly when every one of its characters is whitespace;
      otherwise trimming keeps a non-whitespace first and last character. */
  lemma TrimCharacterization(s: string)
    ensures IsBlank(s) <==> forall k :: 0 <= k < |s| ==> IsWhitespace(s[k])
    ensures !IsBlank(s) ==> !IsWhitespace(Trim(s)[0]) && !IsWhitespace(Trim(s)[|Trim(s)| - 1])
  {
    var t := TrimStart(s);
    if !IsBlank(s) {
      var r := TrimEnd(t);
      assert r[0] == t[0];
    }
  }

  /** `s.startsWith(prefix)`. */
  predicate StartsWith(s: string, prefix: string)
  {
    |prefix| <= |s| && s[..|prefix|] == prefix
  }

  /** `s.replace(/\s+/g, '')`. */
  function RemoveWhitespace(s: string): (r: string)
    ensures forall k :: 0 <= k < |r| ==> !IsWhitespace(r[k])
    ensures forall c :: c in r <==> c in s && !IsWhitespace(c)
    ensures Seqs.IsSubseq(r, s)
  {
    var r := Seqs.Filter(s, IsNotWhitespace);
    assert forall k :: 0 <= k < |r| ==> r[k] in r;
    r
  }

  /** `toUpperCase` on one character, for the ASCII letters. */
  function UpperChar(c: char): char
  {
    if 'a' <= c <= 'z' then (c as int - 32) as char else c
  }

  /** `s.toUpperCase()`, character by character. */
  function ToUpper(s: string): (r: string)
    ensures |r| == |s|
    ensures forall k :: 0 <= k < |s| ==> r[k] == UpperChar(s[k])
  {
    if |s| == 0 then [] else [UpperChar(s[0])] + ToUpper(s[1..])
  }

  lemma {:induction false} ToUpperConcat(a: string, b: string)
    ensures ToUpper(a + b) == ToUpper(a) + ToUpper(b)
  {
    if |a| > 0 {
      assert (a + b)[1..] == a[1..] + b;
      ToUpperConcat(a[1..], b);
    } else {
      assert a + b == b;
    }
  }

  /** The first position of `c` in `s`. */
  function IndexOf(s: string, c: char): (i: nat)
    requires c in s
    ensures i < |s| && s[i] == c && c !in s[..i]
  {
    if s[0] == c then 0 else 1 + IndexOf(s[1..], c)
  }

  /** `pieces.join(sep)`. */
  function Join(pieces: seq<string>, sep: char): string
  {
    if |pieces| == 0 then ""
    else if |pieces| == 1 then pieces[0]
    else pieces[0] + [sep] + Join(pieces[1..], sep)
  }

  /** `s.split(sep)` with a one-character separator: at least one piece, no
      piece holds the separator, and joining the pieces gives back `s`. */
  function Split(s: string, sep: char): (r: seq<string>)
    ensures |r| >= 1
    ensures forall i :: 0 <= i < |r| ==> sep !in r[i]
    ensures Join(r, sep) == s
    decreases |s|
  {
    if sep !in s then [s]
    else
      var i := IndexOf(s, sep);
      assert s == s[..i] + [sep] + s[i + 1..];
      [s[..i]] + Split(s[i + 1..], sep)
  }

  /** `pieces.map(n => n[0]).join('')`: the first character of every piece;
      an empty piece gives `undefined`, which `join` renders as nothing. */
  function FirstChars(pieces: seq<string>): string
  {
    if |pieces| == 0 then ""
    else (if |pieces[0]| == 0 then "" else [pieces[0][0]]) + FirstChars(pieces[1..])
  }

  /** `name.split(' ').map(n => n[0]).join('').toUpperCase()`. */
  function Initials(name: string): string
  {
    ToUpper(FirstChars(Split(name, ' ')))
  }

  /** An independent reading of the initials rule: scanning left to right, keep
      every non-space character that starts the string or follows a space. */
  function WordStarts(s: string, afterSpace: bool): string
  {
    if |s| == 0 then ""
    else (if s[0] != ' ' && afterSpace then [s[0]] else "") + WordStarts(s[1..], s[0] == ' ')
  }

  /** On a piece without spaces the scan keeps at most its first character. */
  lemma {:induction false} WordStartsOfPiece(p: string, afterSpace: bool)
    requires ' ' !in p
    ensures WordStarts(p, afterSpace) == (if |p| > 0 && afterSpace then [p[0]] else "")
  {
    if |p| > 0 {
      assert ' ' !in p[1..] by {
        assert forall c :: c in p[1..] ==> c in p;
      }
      WordStartsOfPiece(p[1..], false);
      if |p| > 1 {
        assert p[1..][0] == p[1];
      }
    }
  }

  /** Scanning a piece, then a space, then the rest. */
  lemma {:induction false} WordStartsAcrossSpace(p: string, rest: string, afterSpace: bool)
    requires ' ' !in p
    ensures WordStarts(p + [' '] + rest, afterSpace)
         == (if |p| > 0 && afterSpace then [p[0]] else "") + WordStarts(rest, true)
  {
    var s := p + [' '] + rest;
    if |p| == 0 {
      assert s == [' '] + rest;
      assert s[1..] == rest;
    } else {
      assert s[0] == p[0];
      assert s[1..] == p[1..] + [' '] + rest;
      assert ' ' !in p[1..] by {
        assert forall c :: c in p[1..] ==> c in p;
      }
      WordStartsAcrossSpace(p[1..], rest, p[0] == ' ');
      WordStartsOfPiece(p[1..], false);
      if |p| > 1 {
        assert p[1..][0] == p[1];
      }
    }
  }

  /** The split-based rule and the scanning rule agree: the initials are the
      upper-cased characters that begin a space-separated word. */
  lemma {:induction false} InitialsAreWordStarts(name: string)
    ensures Initials(name) == ToUpper(WordStarts(name, true))
  {
    FirstCharsAreWordStarts(name);
  }

  lemma {:induction false} FirstCharsAreWordStarts(s: string)
    ensures FirstChars(Split(s, ' ')) == WordStarts(s, true)
    decreases |s|
  {
    if ' ' !in s {
      WordStartsOfPiece(s, true);
      assert Split(s, ' ') == [s];
      assert FirstChars([s]) == (if |s| == 0 then "" else [s[0]]) + FirstChars([]);
    } else {
      var i := IndexOf(s, ' ');
      var p, rest := s[..i], s[i + 1..];
      assert s == p + [' '] + rest;
      assert Split(s, ' ') == [p] + Split(rest, ' ');
      FirstCharsAreWordStarts(rest);
      WordStartsAcrossSpace(p, rest, true);
      assert ([p] + Split(rest, ' '))[1..] == Split(rest, ' ');
    }
  }
}
