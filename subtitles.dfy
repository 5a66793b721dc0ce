/**
 * The two pure helpers of the content script: the Korean script test and
 * the extraction of the caption text from the player's caption container.
 * JavaScript strings are sequences of UTF-16 code units; every character
 * named here lies in the Basic Multilingual Plane outside the surrogate
 * range, so testing Dafny characters gives the same answers.
 */
module Subtitles {

  // ---------------------------------------------------------------------
  // Script detection (content.js:149-151)
  // ---------------------------------------------------------------------

  /** The character class of the Korean test. */
  predicate IsHangul(c: char) {
    || ('\U{AC00}' <= c <= '\U{D7AF}')  // Hangul Syllables
    || ('\U{1100}' <= c <= '\U{11FF}')  // Hangul Jamo
    || ('\U{3130}' <= c <= '\U{318F}')  // Hangul Compatibility Jamo
  }

  /** The unanchored regular-expression test, scanning from the left. */
  function IsKorean(text: string): (r: bool)
    ensures r <==> exists i :: 0 <= i < |text| && IsHangul(text[i])
  {
    if text == [] then false
    else if IsHangul(text[0]) then true
    else
      var rest := IsKorean(text[1..]);
      assert forall i :: 0 < i < |text| ==> text[i] == text[1..][i - 1];
      rest
  }

  // ---------------------------------------------------------------------
  // String.prototype.trim
  // ---------------------------------------------------------------------

  /** ECMAScript WhiteSpace and LineTerminator code points: what `trim` removes. */
  predicate IsWhitespace(c: char) {
    || ('\t' <= c <= '\r')  // TAB, LF, VT, FF, CR
    || c == ' ' || c == '\U{00A0}' || c == '\U{1680}'
    || ('\U{2000}' <= c <= '\U{200A}')
    || c == '\U{2028}' || c == '\U{2029}' || c == '\U{202F}' || c == '\U{205F}'
    || c == '\U{3000}' || c == '\U{FEFF}'
  }

  predicate AllWhitespace(s: string) {
    forall i :: 0 <= i < |s| ==> IsWhitespace(s[i])
  }

  predicate NoOuterWhitespace(s: string) {
    s == [] || (!IsWhitespace(s[0]) && !IsWhitespace(s[|s| - 1]))
  }

  /**
   * Where the leading whitespace of `s[from..]` ends: every character
   * skipped is whitespace, and the one it stops at (if any) is not.
   */
  function SkipLeading(s: string, from: nat): (k: nat)
    requires from <= |s|
    ensures from <= k <= |s|
    ensures forall i :: from <= i < k ==> IsWhitespace(s[i])
    ensures k == |s| || !IsWhitespace(s[k])
    decreases |s| - from
  {
    if from < |s| && IsWhitespace(s[from]) then SkipLeading(s, from + 1) else from
  }

  /**
   * Where the trailing whitespace of `s[lo..hi]` starts: every character
   * skipped is whitespace, and the one before it (if above `lo`) is not.
   */
  function SkipTrailing(s: string, lo: nat, hi: nat): (k: nat)
    requires lo <= hi <= |s|
    ensures lo <= k <= hi
    ensures forall i :: k <= i < hi ==> IsWhitespace(s[i])
    ensures k == lo || !IsWhitespace(s[k - 1])
    decreases hi
  {
    if lo < hi && IsWhitespace(s[hi - 1]) then SkipTrailing(s, lo, hi - 1) else hi
  }

  /**
   * `trim`: the result is a slice of `s` with no whitespace at either end,
   * and everything cut off on either side is whitespace.
   */
  function Trim(s: string): (r: string)
    ensures NoOuterWhitespace(r)
    ensures exists lead ::
      (0 <= lead <= |s| - |r| && r == s[lead..lead + |r|]
       && AllWhitespace(s[..lead]) && AllWhitespace(s[lead + |r|..]))
  {
    var a := SkipLeading(s, 0);
    var b := SkipTrailing(s, a, |s|);
    TrimSlice(s, a, b);
    s[a..b]
  }

  /** The slice between the two skips has the promised shape. */
  lemma TrimSlice(s: string, a: nat, b: nat)
    requires a <= b <= |s|
    requires forall i :: 0 <= i < a ==> IsWhitespace(s[i])
    requires forall i :: b <= i < |s| ==> IsWhitespace(s[i])
    requires a == |s| || !IsWhitespace(s[a])
    requires b == a || !IsWhitespace(s[b - 1])
    ensures NoOuterWhitespace(s[a..b])
    ensures 0 <= a <= |s| - |s[a..b]| && s[a..b] == s[a..a + |s[a..b]|]
    ensures AllWhitespace(s[..a]) && AllWhitespace(s[a + |s[a..b]|..])
  {
    assert AllWhitespace(s[..a]) by {
      forall i | 0 <= i < a ensures IsWhitespace(s[..a][i]) { assert s[..a][i] == s[i]; }
    }
    assert AllWhitespace(s[b..]) by {
      forall i | 0 <= i < |s| - b ensures IsWhitespace(s[b..][i]) { assert s[b..][i] == s[b + i]; }
    }
  }

  /**
   * `trim` is determined by its promise: cutting whitespace off both ends of
   * a string that has none at its own ends gives that string back.
   */
  lemma TrimOfPadded(pre: string, core: string, post: string)
    requires AllWhitespace(pre) && AllWhitespace(post)
    requires NoOuterWhitespace(core)
    ensures Trim(pre + core + post) == core
  {
    var s := pre + core + post;
    var a := SkipLeading(s, 0);
    var b := SkipTrailing(s, a, |s|);
    if core == [] {
      assert a == |s|;
      assert s[a..b] == [];
    } else {
      var c := |pre| + |core|;
      assert s[|pre|] == core[0];
      assert s[c - 1] == core[|core| - 1];
      assert a == |pre|;
      assert b == c;
      assert s[a..b] == core;
    }
  }

  // ---------------------------------------------------------------------
  // Caption extraction (content.js:135-146)
  // ---------------------------------------------------------------------

  /**
   * A caption container as the extractor sees it: the text content of each
   * of its direct child line elements, in document order, and its own whole
   * text content.
   */
  datatype Container = Container(lines: seq<string>, text: string)

  /** One line trimmed, or nothing when it is blank (`filter(Boolean)`). */
  function KeptLine(line: string): (kept: seq<string>)
    ensures |kept| <= 1
    ensures forall i :: 0 <= i < |kept| ==> kept[i] != "" && NoOuterWhitespace(kept[i])
  {
    var t := Trim(line);
    if t == "" then [] else [t]
  }

  /** Each line trimmed, in order, with the empty ones dropped. */
  function KeptLines(lines: seq<string>): (kept: seq<string>)
    ensures |kept| <= |lines|
    ensures forall i :: 0 <= i < |kept| ==> kept[i] != "" && NoOuterWhitespace(kept[i])
  {
    if lines == [] then [] else KeptLine(lines[0]) + KeptLines(lines[1..])
  }

  /** `Array.prototype.join(" ")`; `JoinedLength` and `JoinedPartAt` pin it down. */
  function JoinWithSpaces(parts: seq<string>): string {
    if parts == [] then ""
    else if |parts| == 1 then parts[0]
    else parts[0] + " " + JoinWithSpaces(parts[1..])
  }

  /** The text of the caption currently on screen. */
  function ExtractSubtitleText(c: Container): (r: string)
    ensures NoOuterWhitespace(r)
  {
    if |c.lines| > 0 then
      var kept := KeptLines(c.lines);
      JoinedIsTrimmed(kept);
      JoinWithSpaces(kept)
    else
      Trim(c.text)
  }

  /** Joining non-empty trimmed parts with single spaces gives a trimmed string, empty only for no parts. */
  lemma {:induction false} JoinedIsTrimmed(parts: seq<string>)
    requires forall i :: 0 <= i < |parts| ==> parts[i] != "" && NoOuterWhitespace(parts[i])
    ensures NoOuterWhitespace(JoinWithSpaces(parts))
    ensures JoinWithSpaces(parts) == "" <==> parts == []
  {
    if |parts| >= 2 {
      JoinedIsTrimmed(parts[1..]);
      var rest := JoinWithSpaces(parts[1..]);
      var s := parts[0] + " " + rest;
      assert s[0] == parts[0][0];
      assert s[|s| - 1] == rest[|rest| - 1];
    }
  }

  /** Where the i-th part begins in the joined string. */
  function Offset(parts: seq<string>, i: nat): nat
    requires i <= |parts|
  {
    if i == 0 then 0 else Offset(parts, i - 1) + |parts[i - 1]| + 1
  }

  lemma {:induction false} OffsetOfTail(parts: seq<string>, i: nat)
    requires 0 < i <= |parts|
    ensures Offset(parts, i) == |parts[0]| + 1 + Offset(parts[1..], i - 1)
  {
    if i > 1 {
      OffsetOfTail(parts, i - 1);
    }
  }

  lemma {:induction false} OffsetGrows(parts: seq<string>, i: nat, j: nat)
    requires i <= j <= |parts|
    ensures Offset(parts, i) <= Offset(parts, j)
    decreases j - i
  {
    if i < j {
      OffsetGrows(parts, i, j - 1);
    }
  }

  lemma {:induction false} JoinedLength(parts: seq<string>)
    requires parts != []
    ensures |JoinWithSpaces(parts)| == Offset(parts, |parts|) - 1
  {
    if |parts| == 1 {
      assert Offset(parts, 1) == |parts[0]| + 1;
    } else {
      JoinedLength(parts[1..]);
      OffsetOfTail(parts, |parts|);
    }
  }

  /**
   * The joined string holds the parts in order, each at its offset, with a
   * single space between neighbours and nothing after the last one.
   */
  lemma {:induction false} JoinedPartAt(parts: seq<string>, i: nat)
    requires i < |parts|
    decreases |parts|, 1
    ensures |JoinWithSpaces(parts)| == Offset(parts, |parts|) - 1
    ensures Offset(parts, i) + |parts[i]| <= |JoinWithSpaces(parts)|
    ensures JoinWithSpaces(parts)[Offset(parts, i)..Offset(parts, i) + |parts[i]|] == parts[i]
    ensures i + 1 < |parts| ==>
      (Offset(parts, i) + |parts[i]| < |JoinWithSpaces(parts)|
       && JoinWithSpaces(parts)[Offset(parts, i) + |parts[i]|] == ' ')
  {
    JoinedLength(parts);
    OffsetGrows(parts, i + 1, |parts|);
    if i + 1 < |parts| {
      OffsetGrows(parts, i + 2, |parts|);
    }
    if |parts| > 1 {
      JoinedStep(parts, i);
    }
  }

  lemma {:induction false} JoinedStep(parts: seq<string>, i: nat)
    requires i < |parts| && |parts| > 1
    ensures var j := JoinWithSpaces(parts); var o := Offset(parts, i);
      o + |parts[i]| <= |j|
      && j[o..o + |parts[i]|] == parts[i]
      && (i + 1 < |parts| ==> o + |parts[i]| < |j| && j[o + |parts[i]|] == ' ')
    decreases |parts|, 0
  {
    var tail := parts[1..];
    var jt := JoinWithSpaces(tail);
    var j := JoinWithSpaces(parts);
    assert j == parts[0] + " " + jt;
    if i == 0 {
      assert Offset(parts, 0) == 0;
      assert j[0..|parts[0]|] == parts[0];
    } else {
      JoinedPartAt(tail, i - 1);
      OffsetOfTail(parts, i);
      assert tail[i - 1] == parts[i];
      PartOfTail(parts[0], jt, Offset(tail, i - 1), |parts[i]|);
    }
  }

  lemma PartOfTail(head: string, rest: string, o: nat, n: nat)
    requires o + n <= |rest|
    ensures (head + " " + rest)[|head| + 1 + o..|head| + 1 + o + n] == rest[o..o + n]
    ensures o + n < |rest| ==> (head + " " + rest)[|head| + 1 + o + n] == rest[o + n]
  {
  }

  lemma {:induction false} KeptLinesEmpty(lines: seq<string>)
    ensures KeptLines(lines) == [] <==> forall i :: 0 <= i < |lines| ==> Trim(lines[i]) == ""
  {
    if lines != [] {
      var rest := lines[1..];
      KeptLinesEmpty(rest);
      assert KeptLines(lines) == KeptLine(lines[0]) + KeptLines(rest);
      assert KeptLine(lines[0]) == [] <==> Trim(lines[0]) == "";
      assert forall i :: 0 < i < |lines| ==> lines[i] == rest[i - 1];
    }
  }

  /** Line order survives extraction: the kept lines of a block of lines come before those of the next. */
  lemma {:induction false} KeptLinesAppend(a: seq<string>, b: seq<string>)
    ensures KeptLines(a + b) == KeptLines(a) + KeptLines(b)
  {
    if a == [] {
      assert a + b == b;
    } else {
      assert (a + b)[0] == a[0];
      assert (a + b)[1..] == a[1..] + b;
      KeptLinesAppend(a[1..], b);
      calc {
        KeptLines(a + b);
        KeptLine(a[0]) + KeptLines(a[1..] + b);
        KeptLine(a[0]) + (KeptLines(a[1..]) + KeptLines(b));
        (KeptLine(a[0]) + KeptLines(a[1..])) + KeptLines(b);
      }
    }
  }

  /**
   * The extracted text is empty exactly when every child line is blank, or,
   * without child lines, when the whole text is blank.
   */
  lemma ExtractedEmpty(c: Container)
    ensures ExtractSubtitleText(c) == "" <==>
      if |c.lines| > 0 then forall i :: 0 <= i < |c.lines| ==> Trim(c.lines[i]) == ""
      else Trim(c.text) == ""
  {
    if |c.lines| > 0 {
      KeptLinesEmpty(c.lines);
      JoinedIsTrimmed(KeptLines(c.lines));
    }
  }

  /**
   * A container holding one child line yields that line without the
   * whitespace around it, whatever its own whole text is.
   */
  lemma ExtractOneLine(c: Container, pre: string, core: string, post: string)
    requires c.lines == [pre + core + post]
    requires AllWhitespace(pre) && AllWhitespace(post) && NoOuterWhitespace(core) && core != ""
    ensures ExtractSubtitleText(c) == core
  {
    TrimOfPadded(pre, core, post);
    assert KeptLines(c.lines) == KeptLine(c.lines[0]) + KeptLines([]);
  }
}
