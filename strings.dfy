/** The few Python `str` operations the core relies on (`strip`, `lower`,
    `isdigit`, `isalnum`, `splitlines`, `split`, `join`, `in`, `int`/`str`),
    stated once and shared by the other modules. */
module Strings {

  // ---------------------------------------------------------------------
  // Character classes
  // ---------------------------------------------------------------------

  /** The characters Python's `str.isspace()` accepts, which are the ones
      `str.strip()` removes. */
  predicate IsSpace(c: char) {
    || c == ' '
    || ('\t' <= c <= '\r')
    || ('\U{001C}' <= c <= '\U{001F}')
    || c == '\U{0085}' || c == '\U{00A0}' || c == '\U{1680}'
    || ('\U{2000}' <= c <= '\U{200A}')
    || c == '\U{2028}' || c == '\U{2029}' || c == '\U{202F}'
    || c == '\U{205F}' || c == '\U{3000}'
  }

  /** The line boundaries of Python's `str.splitlines()`. */
  predicate IsLineBreak(c: char) {
    || c == '\n' || c == '\r' || c == '\U{000B}' || c == '\U{000C}'
    || ('\U{001C}' <= c <= '\U{001E}')
    || c == '\U{0085}' || c == '\U{2028}' || c == '\U{2029}'
  }

  predicate IsDigit(c: char) { '0' <= c <= '9' }

  predicate IsAlnum(c: char) { IsDigit(c) || 'a' <= c <= 'z' || 'A' <= c <= 'Z' }

  /** Python's `s.isdigit()`: non-empty and every character a digit. */
  predicate AllDigits(s: string) {
    |s| > 0 && forall i :: 0 <= i < |s| ==> IsDigit(s[i])
  }

  // ---------------------------------------------------------------------
  // strip and lower
  // ---------------------------------------------------------------------

  /** Every character of `s` is whitespace. */
  predicate AllSpace(s: string) {
    forall i :: 0 <= i < |s| ==> IsSpace(s[i])
  }

  function TrimLeft(s: string): (r: string)
    ensures |r| <= |s|
    ensures r == [] || !IsSpace(r[0])
  {
    if s != [] && IsSpace(s[0]) then TrimLeft(s[1..]) else s
  }

  function TrimRight(s: string): (r: string)
    ensures |r| <= |s|
    ensures r == [] || (r[0] == s[0] && !IsSpace(r[|r| - 1]))
  {
    if s != [] && IsSpace(s[|s| - 1]) then TrimRight(s[..|s| - 1]) else s
  }

  /** No whitespace at either end. */
  predicate Trimmed(s: string) {
    s == [] || (!IsSpace(s[0]) && !IsSpace(s[|s| - 1]))
  }

  /** `TrimLeft` keeps a suffix of `s` and drops only whitespace. */
  lemma {:induction false} TrimLeftSlice(s: string)
    ensures TrimLeft(s) == s[|s| - |TrimLeft(s)|..]
    ensures AllSpace(s[..|s| - |TrimLeft(s)|])
  {
    if s != [] && IsSpace(s[0]) {
      TrimLeftSlice(s[1..]);
      var k := |s| - |TrimLeft(s)|;
      assert s[1..][..k - 1] == s[1..k];
      assert forall i :: 1 <= i < k ==> s[..k][i] == s[1..][..k - 1][i - 1];
    }
  }

  /** `TrimRight` keeps a prefix of `s` and drops only whitespace. */
  lemma {:induction false} TrimRightSlice(s: string)
    ensures TrimRight(s) == s[..|TrimRight(s)|]
    ensures AllSpace(s[|TrimRight(s)|..])
  {
    if s != [] && IsSpace(s[|s| - 1]) {
      var front := s[..|s| - 1];
      TrimRightSlice(front);
      var k := |TrimRight(s)|;
      assert front[..k] == s[..k];
      assert forall i :: 0 <= i < |s| - 1 - k ==> s[k..][i] == front[k..][i];
    }
  }

  /** Python's `s.strip()`: `s` without its leading and trailing whitespace. */
  function Strip(s: string): (r: string)
    ensures |r| <= |s|
    ensures Trimmed(r)
  {
    TrimRight(TrimLeft(s))
  }

  /** What `Strip` removes is whitespace, and only from the ends. */
  lemma StripSlice(s: string)
    ensures exists i: nat :: StripsTo(s, i, Strip(s))
  {
    var t := TrimLeft(s);
    var r := TrimRight(t);
    var i := |s| - |t|;
    TrimLeftSlice(s);
    TrimRightSlice(t);
    assert Strip(s) == r;
    StripsToParts(s, i, r);
    assert StripsTo(s, i, Strip(s));
  }

  /** A whitespace prefix, then `r`, then whitespace: `s` strips to `r`. */
  lemma StripsToParts(s: string, i: nat, r: string)
    requires i <= |s| && |r| <= |s| - i
    requires AllSpace(s[..i])
    requires r == s[i..][..|r|] && AllSpace(s[i..][|r|..])
    ensures StripsTo(s, i, r)
  {
    assert s[i..][..|r|] == s[i..i + |r|];
    assert s[i..][|r|..] == s[i + |r|..];
  }

  /** Stripping adds no character. */
  lemma StripKeepsOut(s: string, c: char)
    requires c !in s
    ensures c !in Strip(s)
  {
    var t := TrimLeft(s);
    TrimLeftSlice(s);
    assert forall k :: 0 <= k < |t| ==> t[k] == s[|s| - |t| + k];
    var r := TrimRight(t);
    TrimRightSlice(t);
    assert forall k :: 0 <= k < |r| ==> r[k] == t[k];
  }

  /** Whitespace in front of a text that starts with no whitespace is all `TrimLeft` removes. */
  lemma {:induction false} TrimLeftPadded(pad: string, t: string)
    requires AllSpace(pad)
    requires t == [] || !IsSpace(t[0])
    ensures TrimLeft(pad + t) == t
  {
    if pad != [] {
      assert (pad + t)[1..] == pad[1..] + t;
      TrimLeftPadded(pad[1..], t);
    } else {
      assert pad + t == t;
    }
  }

  /** Whitespace after a text that ends with no whitespace is all `TrimRight` removes. */
  lemma {:induction false} TrimRightPadded(t: string, pad: string)
    requires AllSpace(pad)
    requires t == [] || !IsSpace(t[|t| - 1])
    ensures TrimRight(t + pad) == t
  {
    if pad != [] {
      assert (t + pad)[..|t + pad| - 1] == t + pad[..|pad| - 1];
      TrimRightPadded(t, pad[..|pad| - 1]);
    } else {
      assert t + pad == t;
    }
  }

  /** Stripping removes any whitespace before and after a text with no whitespace at its ends. */
  lemma StripPadded(pre: string, s: string, post: string)
    requires AllSpace(pre) && AllSpace(post)
    requires s != [] && !IsSpace(s[0]) && !IsSpace(s[|s| - 1])
    ensures Strip(pre + s + post) == s
  {
    assert pre + s + post == pre + (s + post);
    TrimLeftPadded(pre, s + post);
    TrimRightPadded(s, post);
  }

  /** `r` is the slice of `s` at position `i`, with only whitespace around it. */
  predicate StripsTo(s: string, i: nat, r: string) {
    && i + |r| <= |s| && r == s[i..i + |r|]
    && AllSpace(s[..i]) && AllSpace(s[i + |r|..])
  }

  /** A string without surrounding whitespace comes back from `Strip` unchanged. */
  lemma StripStripped(s: string)
    requires Trimmed(s)
    ensures Strip(s) == s
  {
  }

  lemma StripIdempotent(s: string)
    ensures Strip(Strip(s)) == Strip(s)
  {
    StripStripped(Strip(s));
  }

  /** Stripping keeps every non-space character of `s`, so a string with
      no whitespace at all strips to itself. */
  lemma StripNoSpace(s: string)
    requires forall i :: 0 <= i < |s| ==> !IsSpace(s[i])
    ensures Strip(s) == s
  {
  }

  function LowerChar(c: char): (r: char)
    ensures 'A' <= c <= 'Z' ==> r as int == c as int + 32
    ensures !('A' <= c <= 'Z') ==> r == c
  {
    if 'A' <= c <= 'Z' then (c as int + 32) as char else c
  }

  /** Python's `s.lower()`, on the ASCII letters. */
  function Lower(s: string): (r: string)
    ensures |r| == |s|
    ensures forall i :: 0 <= i < |s| ==> r[i] == LowerChar(s[i])
  {
    seq(|s|, i requires 0 <= i < |s| => LowerChar(s[i]))
  }

  lemma LowerIdempotent(s: string)
    ensures Lower(Lower(s)) == Lower(s)
  {
  }

  // ---------------------------------------------------------------------
  // Searching
  // ---------------------------------------------------------------------

  /** `needle` occurs in `hay` starting at position `i`. */
  predicate OccursAt(hay: string, needle: string, i: nat) {
    i + |needle| <= |hay| && hay[i..i + |needle|] == needle
  }

  /** Python's `needle in hay` for strings. */
  function Contains(hay: string, needle: string): (r: bool)
    ensures r <==> exists i: nat :: OccursAt(hay, needle, i)
    decreases |hay|
  {
    if |needle| > |hay| then
      assert forall i: nat :: !OccursAt(hay, needle, i);
      false
    else if hay[..|needle|] == needle then
      assert OccursAt(hay, needle, 0);
      true
    else
      var r := Contains(hay[1..], needle);
      assert forall i: nat :: OccursAt(hay[1..], needle, i) <==> OccursAt(hay, needle, i + 1);
      assert forall i: nat :: OccursAt(hay, needle, i) ==> i > 0;
      assert r ==> exists i: nat :: OccursAt(hay, needle, i) by {
        if r {
          var i: nat :| OccursAt(hay[1..], needle, i);
          assert OccursAt(hay, needle, i + 1);
        }
      }
      assert (exists i: nat :: OccursAt(hay, needle, i)) ==> r by {
        if exists i: nat :: OccursAt(hay, needle, i) {
          var i: nat :| OccursAt(hay, needle, i);
          assert OccursAt(hay[1..], needle, i - 1);
        }
      }
      r
  }

  /** An occurrence inside an occurrence is an occurrence. */
  lemma OccursWithin(hay: string, mid: string, needle: string, i: nat, j: nat)
    requires OccursAt(hay, mid, i) && OccursAt(mid, needle, j)
    ensures OccursAt(hay, needle, i + j)
  {
    forall t | 0 <= t < |needle|
      ensures hay[i + j + t] == needle[t]
    {
      assert hay[i + j + t] == hay[i..i + |mid|][j + t];
      assert mid[j + t] == mid[j..j + |needle|][t];
    }
    assert hay[i + j..i + j + |needle|] == needle;
  }

  /** `s` occurs in `a + s + b` right after `a`. */
  lemma OccursBetween(a: string, s: string, b: string)
    ensures OccursAt(a + s + b, s, |a|)
  {
    assert (a + s + b)[|a|..|a| + |s|] == s;
  }

  /** Position of the first `c` in `s`, as `s.index(c)` finds it. */
  function IndexOf(s: string, c: char): (i: nat)
    requires c in s
    ensures i < |s| && s[i] == c && c !in s[..i]
  {
    if s[0] == c then 0 else
      var j := IndexOf(s[1..], c);
      assert s[1..][..j] == s[1..j + 1];
      1 + j
  }

  /** The first occurrence is the only position with `c` and no `c` before it. */
  lemma IndexOfFirst(s: string, c: char, k: nat)
    requires k < |s| && s[k] == c && c !in s[..k]
    ensures IndexOf(s, c) == k
  {
  }

  // ---------------------------------------------------------------------
  // split, join and splitlines
  // ---------------------------------------------------------------------

  /** Python's `sep.join(parts)`. */
  function Join(parts: seq<string>, sep: string): string {
    if parts == [] then ""
    else if |parts| == 1 then parts[0]
    else parts[0] + sep + Join(parts[1..], sep)
  }

  /** Every part occurs in the joined string. */
  lemma {:induction false} JoinHasPart(parts: seq<string>, sep: string, k: nat)
    requires k < |parts|
    ensures exists i: nat :: OccursAt(Join(parts, sep), parts[k], i)
  {
    if |parts| == 1 {
      OccursBetween([], parts[0], []);
      assert [] + parts[0] + [] == Join(parts, sep);
    } else if k == 0 {
      OccursBetween([], parts[0], sep + Join(parts[1..], sep));
      assert [] + parts[0] + (sep + Join(parts[1..], sep)) == Join(parts, sep);
    } else {
      JoinHasPart(parts[1..], sep, k - 1);
      var i: nat :| OccursAt(Join(parts[1..], sep), parts[k], i);
      var front := parts[0] + sep;
      OccursBetween(front, Join(parts[1..], sep), []);
      assert front + Join(parts[1..], sep) + [] == Join(parts, sep);
      OccursWithin(Join(parts, sep), Join(parts[1..], sep), parts[k], |front|, i);
    }
  }

  /** Python's `s.split(c)` for a one-character separator: the pieces
      between the occurrences of `c`; never empty. */
  function Split(s: string, c: char): (parts: seq<string>)
    ensures |parts| >= 1
    ensures forall k :: 0 <= k < |parts| ==> c !in parts[k]
    ensures Join(parts, [c]) == s
  {
    if c in s then
      var i := IndexOf(s, c);
      var rest := Split(s[i + 1..], c);
      assert s == s[..i] + [c] + s[i + 1..];
      [s[..i]] + rest
    else
      [s]
  }

  /** Splitting a join of separator-free pieces gives the pieces back. */
  lemma {:induction false} SplitJoin(parts: seq<string>, c: char)
    requires |parts| >= 1
    requires forall k :: 0 <= k < |parts| ==> c !in parts[k]
    ensures Split(Join(parts, [c]), c) == parts
  {
    if |parts| > 1 {
      var s := Join(parts, [c]);
      assert s == parts[0] + [c] + Join(parts[1..], [c]);
      assert s[|parts[0]|] == c;
      assert s[..|parts[0]|] == parts[0];
      assert IndexOf(s, c) == |parts[0]|;
      assert s[|parts[0]| + 1..] == Join(parts[1..], [c]);
      SplitJoin(parts[1..], c);
    }
  }

  /** Joining two non-empty lists of parts joins each and puts the separator between them. */
  lemma {:induction false} JoinConcat(a: seq<string>, b: seq<string>, sep: string)
    requires a != [] && b != []
    ensures Join(a + b, sep) == Join(a, sep) + sep + Join(b, sep)
  {
    if |a| == 1 {
      assert (a + b)[1..] == b;
    } else {
      assert (a + b)[1..] == a[1..] + b;
      JoinConcat(a[1..], b, sep);
    }
  }

  /** Splitting at a separator placed between two texts splits each of them. */
  lemma SplitConcat(x: string, y: string, c: char)
    ensures Split(x + [c] + y, c) == Split(x, c) + Split(y, c)
  {
    var a, b := Split(x, c), Split(y, c);
    JoinConcat(a, b, [c]);
    FreeConcat(a, b, c);
    SplitJoin(a + b, c);
  }

  /** Two lists of parts free of `c` make one. */
  lemma FreeConcat(a: seq<string>, b: seq<string>, c: char)
    requires forall k :: 0 <= k < |a| ==> c !in a[k]
    requires forall k :: 0 <= k < |b| ==> c !in b[k]
    ensures forall k :: 0 <= k < |a + b| ==> c !in (a + b)[k]
  {
    forall k | 0 <= k < |a + b|
      ensures c !in (a + b)[k]
    {
      if k < |a| {
        assert (a + b)[k] == a[k];
      } else {
        assert (a + b)[k] == b[k - |a|];
      }
    }
  }

  /** The end of the first line of `s`: the first line boundary, or `|s|`. */
  function LineEnd(s: string): (i: nat)
    ensures i <= |s|
    ensures i < |s| ==> IsLineBreak(s[i])
    ensures forall j :: 0 <= j < i ==> !IsLineBreak(s[j])
  {
    if s == [] || IsLineBreak(s[0]) then 0 else 1 + LineEnd(s[1..])
  }

  /** Python's `s.splitlines()`: the lines of `s` without their line
      boundaries; `"\r\n"` is one boundary, and a final boundary does not
      start an extra empty line. */
  function SplitLines(s: string): (lines: seq<string>)
    ensures forall k :: 0 <= k < |lines| ==> forall j :: 0 <= j < |lines[k]| ==> !IsLineBreak(lines[k][j])
    ensures lines == [] <==> s == []
    decreases |s|
  {
    if s == [] then []
    else
      var i := LineEnd(s);
      if i == |s| then [s]
      else
        var next := if s[i] == '\r' && i + 1 < |s| && s[i + 1] == '\n' then i + 2 else i + 1;
        [s[..i]] + SplitLines(s[next..])
  }

  /** A string holding no line boundary. */
  predicate OneLine(s: string) {
    forall j :: 0 <= j < |s| ==> !IsLineBreak(s[j])
  }

  /** The line separators a file may use between rows. */
  predicate LineSep(sep: string) {
    sep == "\n" || sep == "\r\n"
  }

  /** A line followed by `"\n"` or by `"\r\n"` ends at that boundary, which
      counts once, and the lines of the rest follow. */
  lemma SplitLinesBreak(l: string, sep: string, rest: string)
    requires OneLine(l) && LineSep(sep)
    ensures SplitLines(l + sep + rest) == [l] + SplitLines(rest)
  {
    var s := l + sep + rest;
    assert s == l + (sep + rest);
    LineEndOf(l, sep + rest);
    assert s[|l|] == sep[0] && s[..|l|] == l;
    if sep == "\r\n" {
      assert s[|l| + 1] == '\n';
    }
    assert s[|l| + |sep|..] == rest;
  }

  /** A final boundary does not start an extra empty line. */
  lemma SplitLinesFinalBreak(l: string, sep: string)
    requires OneLine(l) && LineSep(sep)
    ensures SplitLines(l + sep) == [l]
  {
    SplitLinesBreak(l, sep, "");
    assert l + sep + "" == l + sep;
  }

  /** A non-empty text without a boundary is one line. */
  lemma SplitLinesOne(l: string)
    requires l != [] && OneLine(l)
    ensures SplitLines(l) == [l]
  {
    LineEndOf(l, "");
    assert l + "" == l;
  }

  /** Writing non-empty lines separated by `"\n"` or `"\r\n"` and splitting
      the text again gives the same lines. */
  lemma {:induction false} SplitLinesJoin(lines: seq<string>, sep: string)
    requires forall k :: 0 <= k < |lines| ==> lines[k] != [] && OneLine(lines[k])
    requires LineSep(sep)
    ensures SplitLines(Join(lines, sep)) == lines
  {
    if |lines| == 1 {
      SplitLinesOne(lines[0]);
    } else if lines != [] {
      SplitLinesBreak(lines[0], sep, Join(lines[1..], sep));
      SplitLinesJoin(lines[1..], sep);
      HeadSplit(lines);
    }
  }

  /** Lines each followed by the separator, the last one included, split back
      to the same lines; here an empty line is kept as one. */
  lemma {:induction false} SplitLinesJoinEnd(lines: seq<string>, sep: string)
    requires lines != []
    requires forall k :: 0 <= k < |lines| ==> OneLine(lines[k])
    requires LineSep(sep)
    ensures SplitLines(Join(lines, sep) + sep) == lines
  {
    if |lines| == 1 {
      SplitLinesFinalBreak(lines[0], sep);
    } else {
      var rest := Join(lines[1..], sep);
      assert Join(lines, sep) + sep == lines[0] + sep + (rest + sep);
      SplitLinesBreak(lines[0], sep, rest + sep);
      SplitLinesJoinEnd(lines[1..], sep);
      HeadSplit(lines);
    }
  }

  /** A non-empty sequence is its first element followed by the rest. */
  lemma HeadSplit<T>(s: seq<T>)
    requires s != []
    ensures s == [s[0]] + s[1..]
  {
  }

  lemma {:induction false} LineEndOf(l: string, rest: string)
    requires OneLine(l)
    requires rest == [] || IsLineBreak(rest[0])
    ensures LineEnd(l + rest) == |l|
  {
    if l != [] {
      assert (l + rest)[1..] == l[1..] + rest;
      LineEndOf(l[1..], rest);
    }
  }

  // ---------------------------------------------------------------------
  // Decimal numerals
  // ---------------------------------------------------------------------

  function DigitValue(c: char): nat
    requires IsDigit(c)
  {
    c as int - '0' as int
  }

  function DigitChar(d: nat): (c: char)
    requires d < 10
    ensures IsDigit(c) && DigitValue(c) == d
  {
    ('0' as int + d) as char
  }

  /** Python's `int(s)` on a run of decimal digits. */
  function DigitsValue(s: string): nat
    requires forall i :: 0 <= i < |s| ==> IsDigit(s[i])
  {
    if s == [] then 0 else 10 * DigitsValue(s[..|s| - 1]) + DigitValue(s[|s| - 1])
  }

  /** Python's `str(n)` for a natural number. */
  function NatToString(n: nat): (s: string)
    ensures AllDigits(s)
  {
    if n < 10 then [DigitChar(n)] else NatToString(n / 10) + [DigitChar(n % 10)]
  }

  /** Python's `str(n)` for an integer: a `-` before the digits of a negative number. */
  function IntToString(n: int): (s: string)
    ensures s != [] && (n < 0 <==> s[0] == '-')
  {
    if n < 0 then "-" + NatToString(-n) else NatToString(n)
  }

  /** Reading back a rendered number gives the number. */
  lemma {:induction false} NatToStringValue(n: nat)
    ensures DigitsValue(NatToString(n)) == n
  {
    if n >= 10 {
      var s := NatToString(n);
      assert s[..|s| - 1] == NatToString(n / 10);
      NatToStringValue(n / 10);
    }
  }
}
