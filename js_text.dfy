/**
 * The ECMAScript string primitives the forms rely on: the regular-expression
 * classes `\s`, `.`, `[a-z]`, `[A-Z]` and `\d`, and the methods `trim`,
 * `split` and `toUpperCase`. A string is a sequence of characters and its
 * length is the length of that sequence.
 */
module JsText {

  /** LineTerminator: LF, CR, LINE SEPARATOR and PARAGRAPH SEPARATOR. A regex `.` without the `s` flag matches every other character. */
  predicate IsLineTerminator(c: char) {
    c == '\n' || c == '\r' || c == '\U{2028}' || c == '\U{2029}'
  }

  /** The regex class `\s`, which is also the set of characters `trim` strips: WhiteSpace (TAB, VT, FF, ZWNBSP and the Zs category) and LineTerminator. */
  predicate IsWhiteSpace(c: char) {
    || c == '\t' || c == '\U{000B}' || c == '\U{000C}' || c == '\U{FEFF}'
    || c == ' ' || c == '\U{00A0}' || c == '\U{1680}' || ('\U{2000}' <= c <= '\U{200A}')
    || c == '\U{202F}' || c == '\U{205F}' || c == '\U{3000}'
    || IsLineTerminator(c)
  }

  predicate IsAsciiLower(c: char) { 'a' <= c <= 'z' }

  predicate IsAsciiUpper(c: char) { 'A' <= c <= 'Z' }

  /** The regex class `\d` (without the `u` flag it is ASCII only). */
  predicate IsAsciiDigit(c: char) { '0' <= c <= '9' }

  /** `toUpperCase` on one character, restricted to the ASCII letters. */
  function ToUpperAscii(c: char): (u: char)
    ensures !IsAsciiLower(u)
    ensures IsAsciiLower(c) ==> IsAsciiUpper(u) && u as int == c as int - 32
    ensures !IsAsciiLower(c) ==> u == c
  {
    if IsAsciiLower(c) then (c as int - 32) as char else c
  }

  /** Every character of `s` is white space (vacuously true of the empty string). */
  predicate IsBlank(s: string) {
    forall i :: 0 <= i < |s| ==> IsWhiteSpace(s[i])
  }

  /** Strips leading white space (`TrimStartShape` states what is left). */
  function TrimStart(s: string): (r: string)
    ensures |r| <= |s|
  {
    if s != [] && IsWhiteSpace(s[0]) then TrimStart(s[1..]) else s
  }

  /** Strips trailing white space (`TrimEndShape` states what is left). */
  function TrimEnd(s: string): (r: string)
    ensures |r| <= |s|
  {
    if s != [] && IsWhiteSpace(s[|s| - 1]) then TrimEnd(s[..|s| - 1]) else s
  }

  /** `String.prototype.trim`. */
  function Trim(s: string): string {
    TrimEnd(TrimStart(s))
  }

  /** `TrimStart` drops the longest blank prefix: what is left is a suffix that starts with a non-white-space character, if any. */
  lemma {:induction false} TrimStartShape(s: string)
    ensures var r := TrimStart(s);
      && r == s[|s| - |r|..]
      && IsBlank(s[..|s| - |r|])
      && (r != [] ==> !IsWhiteSpace(r[0]))
  {
    if s != [] && IsWhiteSpace(s[0]) {
      TrimStartShape(s[1..]);
      var r := TrimStart(s);
      assert s[1..][|s| - 1 - |r|..] == s[|s| - |r|..];
      forall i | 0 <= i < |s| - |r| ensures IsWhiteSpace(s[i]) {
        if i > 0 { assert s[i] == s[1..][..|s| - 1 - |r|][i - 1]; }
      }
    }
  }

  /** `TrimEnd` drops the longest blank suffix: what is left is a prefix that ends with a non-white-space character, if any. */
  lemma {:induction false} TrimEndShape(s: string)
    ensures var r := TrimEnd(s);
      && r == s[..|r|]
      && IsBlank(s[|r|..])
      && (r != [] ==> !IsWhiteSpace(r[|r| - 1]))
  {
    if s != [] && IsWhiteSpace(s[|s| - 1]) {
      var init := s[..|s| - 1];
      TrimEndShape(init);
      var r := TrimEnd(s);
      assert init[..|r|] == s[..|r|];
      forall i | |r| <= i < |s| ensures IsWhiteSpace(s[i]) {
        if i < |s| - 1 { assert s[i] == init[|r|..][i - |r|]; }
      }
    }
  }

  /** `s.trim() !== ""` holds exactly when `s` has a character that is not white space. */
  lemma {:induction false} TrimEmptyIff(s: string)
    ensures Trim(s) == [] <==> IsBlank(s)
  {
    var t := TrimStart(s);
    var k := |s| - |t|;
    TrimStartShape(s);
    TrimEndShape(t);
    if Trim(s) == [] {
      assert IsBlank(t[0..]);
      if t != [] {
        assert false;
      }
      assert s[..k] == s;
    } else {
      var r := Trim(s);
      assert r[|r| - 1] == t[|r| - 1] == s[k + |r| - 1];
    }
  }

  /** `pieces.join(sep)`, with a one-character separator. */
  function JoinWith(pieces: seq<string>, sep: char): string {
    if pieces == [] then []
    else if |pieces| == 1 then pieces[0]
    else pieces[0] + [sep] + JoinWith(pieces[1..], sep)
  }

  /** `s.split(sep)`, with a one-character separator: the pieces between separators, never none (`"".split(sep)` is `[""]`). */
  function SplitOn(s: string, sep: char): (pieces: seq<string>)
    ensures |pieces| >= 1
    ensures forall i :: 0 <= i < |pieces| ==> sep !in pieces[i]
    ensures JoinWith(pieces, sep) == s
  {
    if s == [] then [[]]
    else
      var rest := SplitOn(s[1..], sep);
      if s[0] == sep then
        [[]] + rest
      else
        var pieces := [[s[0]] + rest[0]] + rest[1..];
        assert JoinWith(pieces, sep) == [s[0]] + JoinWith(rest, sep) by {
          if |rest| > 1 {
            assert pieces[1..] == rest[1..];
          }
        }
        assert s == [s[0]] + s[1..];
        pieces
  }

  /** A separator-free string is a single piece. */
  lemma {:induction false} SplitWithoutSeparator(a: string, sep: char)
    requires sep !in a
    ensures SplitOn(a, sep) == [a]
  {
    if a != [] {
      SplitWithoutSeparator(a[1..], sep);
      assert [a[0]] + a[1..] == a;
    }
  }

  /** Splitting `a + sep + b`, with no separator in `a`, yields `a` followed by the pieces of `b`. */
  lemma {:induction false} SplitAfterFirstSeparator(a: string, b: string, sep: char)
    requires sep !in a
    ensures SplitOn(a + [sep] + b, sep) == [a] + SplitOn(b, sep)
  {
    var s := a + [sep] + b;
    if a == [] {
      assert s[0] == sep && s[1..] == b;
    } else {
      assert s[0] == a[0] != sep;
      assert s[1..] == a[1..] + [sep] + b;
      SplitAfterFirstSeparator(a[1..], b, sep);
      var rest := SplitOn(s[1..], sep);
      assert rest[0] == a[1..] && rest[1..] == SplitOn(b, sep);
      assert [s[0]] + rest[0] == a;
    }
  }

  /** Splitting undoes joining, for at least one piece and pieces free of the separator. */
  lemma {:induction false} SplitJoinRoundTrip(pieces: seq<string>, sep: char)
    requires |pieces| >= 1
    requires forall i :: 0 <= i < |pieces| ==> sep !in pieces[i]
    ensures SplitOn(JoinWith(pieces, sep), sep) == pieces
  {
    if |pieces| == 1 {
      SplitWithoutSeparator(pieces[0], sep);
    } else {
      SplitJoinRoundTrip(pieces[1..], sep);
      SplitAfterFirstSeparator(pieces[0], JoinWith(pieces[1..], sep), sep);
      assert [pieces[0]] + pieces[1..] == pieces;
    }
  }

  /** Joining with a white-space separator gives a blank string exactly when every piece is blank. */
  lemma {:induction false} JoinBlankIff(pieces: seq<string>, sep: char)
    requires IsWhiteSpace(sep)
    ensures IsBlank(JoinWith(pieces, sep)) <==> forall i :: 0 <= i < |pieces| ==> IsBlank(pieces[i])
  {
    if |pieces| > 1 {
      var rest := JoinWith(pieces[1..], sep);
      JoinBlankIff(pieces[1..], sep);
      var joined := pieces[0] + [sep] + rest;
      assert IsBlank(joined) <==> IsBlank(pieces[0]) && IsBlank(rest) by {
        if IsBlank(pieces[0]) && IsBlank(rest) {
          forall i | 0 <= i < |joined| ensures IsWhiteSpace(joined[i]) {
            if i < |pieces[0]| {
              assert joined[i] == pieces[0][i];
            } else if i > |pieces[0]| {
              assert joined[i] == rest[i - |pieces[0]| - 1];
            }
          }
        }
        if IsBlank(joined) {
          forall i | 0 <= i < |pieces[0]| ensures IsWhiteSpace(pieces[0][i]) {
            assert joined[i] == pieces[0][i];
          }
          forall i | 0 <= i < |rest| ensures IsWhiteSpace(rest[i]) {
            assert joined[i + |pieces[0]| + 1] == rest[i];
          }
        }
      }
      assert forall i :: 1 <= i < |pieces| ==> pieces[i] == pieces[1..][i - 1];
    }
  }
}
