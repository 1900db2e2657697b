/**
 * Character classes and string helpers with the meaning Python gives them:
 * `str.isspace`, `str.split`, `str.strip`, the ASCII part of `re.IGNORECASE`
 * and of `\d`, and runs of characters of one class as a greedy regex
 * repetition consumes them.
 */
module Text {

  predicate IsDigit(c: char) { '0' <= c <= '9' }

  predicate IsAsciiUpper(c: char) { 'A' <= c <= 'Z' }

  predicate IsAsciiLower(c: char) { 'a' <= c <= 'z' }

  predicate IsAsciiLetter(c: char) { IsAsciiUpper(c) || IsAsciiLower(c) }

  predicate IsAsciiAlnum(c: char) { IsAsciiLetter(c) || IsDigit(c) }

  /** The characters for which Python's `str.isspace()` holds; regex `\s` uses the same set. */
  predicate IsSpace(c: char)
  {
    || '\t' <= c <= '\r'                      // tab, line feed, vertical tab, form feed, carriage return
    || '\U{1C}' <= c <= '\U{1F}'              // file, group, record and unit separators
    || c == ' ' || c == '\U{85}' || c == '\U{A0}' || c == '\U{1680}'
    || '\U{2000}' <= c <= '\U{200A}'
    || c == '\U{2028}' || c == '\U{2029}' || c == '\U{202F}' || c == '\U{205F}' || c == '\U{3000}'
  }

  /** ASCII lower-casing, the folding `re.IGNORECASE` applies to ASCII letters. */
  function Lower(c: char): (d: char)
    ensures IsAsciiUpper(c) ==> IsAsciiLower(d)
    ensures !IsAsciiUpper(c) ==> d == c
  {
    if IsAsciiUpper(c) then (c as int + 32) as char else c
  }

  /** ASCII upper-casing, what `str.upper()` does to ASCII characters. */
  function Upper(c: char): (d: char)
    ensures IsAsciiLower(c) ==> IsAsciiUpper(d)
    ensures !IsAsciiLower(c) ==> d == c
  {
    if IsAsciiLower(c) then (c as int - 32) as char else c
  }

  function UpperString(s: string): (r: string)
    ensures |r| == |s|
    ensures forall i :: 0 <= i < |s| ==> r[i] == Upper(s[i])
  {
    seq(|s|, i requires 0 <= i < |s| => Upper(s[i]))
  }

  /** `str.lower()` on ASCII letters. */
  function LowerString(s: string): (r: string)
    ensures |r| == |s|
    ensures forall i :: 0 <= i < |s| ==> r[i] == Lower(s[i])
  {
    seq(|s|, i requires 0 <= i < |s| => Lower(s[i]))
  }

  /** `lit` occurs in `s` at position `p`, character for character. */
  predicate LiteralAt(s: string, p: nat, lit: string)
  {
    p + |lit| <= |s| && s[p..p + |lit|] == lit
  }

  /** `lit` (written in lower case) occurs at `p` when ASCII case is ignored. */
  predicate FoldedLiteralAt(s: string, p: nat, lit: string)
  {
    p + |lit| <= |s| && forall i :: 0 <= i < |lit| ==> Lower(s[p + i]) == lit[i]
  }

  predicate EndsWith(s: string, suffix: string)
  {
    |suffix| <= |s| && s[|s| - |suffix|..] == suffix
  }

  /**
   * The end of the longest run of `inClass` characters starting at `i`:
   * where a greedy `[class]*` stops.
   */
  function RunEnd(s: string, i: nat, inClass: char -> bool): (e: nat)
    requires i <= |s|
    ensures i <= e <= |s|
    ensures forall k :: i <= k < e ==> inClass(s[k])
    ensures e == |s| || !inClass(s[e])
    decreases |s| - i
  {
    if i < |s| && inClass(s[i]) then RunEnd(s, i + 1, inClass) else i
  }

  /** `s.rstrip(chars)` for the characters of one class. */
  function RStripBy(s: string, inClass: char -> bool): (r: string)
    ensures r <= s
    ensures r == [] || !inClass(r[|r| - 1])
    ensures forall k :: |r| <= k < |s| ==> inClass(s[k])
  {
    if |s| > 0 && inClass(s[|s| - 1]) then RStripBy(s[..|s| - 1], inClass) else s
  }

  /** `s.lstrip(chars)` for the characters of one class. */
  function LStripBy(s: string, inClass: char -> bool): (r: string)
    ensures |r| <= |s| && r == s[|s| - |r|..]
    ensures r == [] || !inClass(r[0])
    ensures forall k :: 0 <= k < |s| - |r| ==> inClass(s[k])
  {
    if |s| > 0 && inClass(s[0]) then
      var r := LStripBy(s[1..], inClass);
      assert s[1..][|s| - 1 - |r|..] == s[|s| - |r|..];
      assert forall k :: 1 <= k < |s| - |r| ==> s[k] == s[1..][k - 1];
      r
    else
      s
  }

  /** `r` is `s[i..]` cut where only `inClass` characters lie before `i` and after `r`. */
  predicate TrimmedAt(s: string, r: string, i: nat, inClass: char -> bool)
  {
    i + |r| <= |s| && r == s[i..i + |r|]
    && (forall k :: 0 <= k < i ==> inClass(s[k]))
    && (forall k :: i + |r| <= k < |s| ==> inClass(s[k]))
  }

  /** `s.strip(chars)`: both ends. */
  function StripBy(s: string, inClass: char -> bool): (r: string)
    ensures r == [] || (!inClass(r[0]) && !inClass(r[|r| - 1]))
  {
    LStripBy(RStripBy(s, inClass), inClass)
  }

  /** What `strip` keeps is a slice of `s`, with only class characters cut off around it. */
  lemma StripByTrims(s: string, inClass: char -> bool)
    ensures exists i: nat :: TrimmedAt(s, StripBy(s, inClass), i, inClass)
  {
    var t := RStripBy(s, inClass);
    var r := LStripBy(t, inClass);
    assert r == StripBy(s, inClass);
    var i := |t| - |r|;
    assert t == s[..|t|];
    assert r == s[i..i + |r|] by { assert t[i..] == s[i..|t|]; }
    assert forall k :: 0 <= k < i ==> inClass(s[k]) by {
      forall k | 0 <= k < i ensures inClass(s[k]) { assert s[k] == t[k]; }
    }
    assert TrimmedAt(s, r, i, inClass);
  }

  /**
   * Only one cut fits a core whose ends are outside the class: between
   * class-only `pre` and `post`, a trimmed slice that starts and ends outside
   * the class is the core.
   */
  lemma TrimmedUnique(pre: string, core: string, post: string, r: string, i: nat, inClass: char -> bool)
    requires forall k :: 0 <= k < |pre| ==> inClass(pre[k])
    requires forall k :: 0 <= k < |post| ==> inClass(post[k])
    requires core == [] || (!inClass(core[0]) && !inClass(core[|core| - 1]))
    requires r == [] || (!inClass(r[0]) && !inClass(r[|r| - 1]))
    requires TrimmedAt(pre + core + post, r, i, inClass)
    ensures r == core
  {
    var s := pre + core + post;
    if core == [] {
      assert forall k :: 0 <= k < |s| ==> inClass(s[k]);
    } else {
      assert s[|pre|] == core[0] && s[|pre| + |core| - 1] == core[|core| - 1];
      assert s[|pre|..|pre| + |core|] == core;
    }
  }

  /**
   * Stripping removes exactly the class characters around a core whose ends
   * are outside the class: `(pre + core + post).strip(chars) == core`.
   */
  lemma StripByCore(pre: string, core: string, post: string, inClass: char -> bool)
    requires forall k :: 0 <= k < |pre| ==> inClass(pre[k])
    requires forall k :: 0 <= k < |post| ==> inClass(post[k])
    requires core == [] || (!inClass(core[0]) && !inClass(core[|core| - 1]))
    ensures StripBy(pre + core + post, inClass) == core
  {
    var s := pre + core + post;
    StripByTrims(s, inClass);
    var i: nat :| TrimmedAt(s, StripBy(s, inClass), i, inClass);
    TrimmedUnique(pre, core, post, StripBy(s, inClass), i, inClass);
  }

  /** `s.rstrip("/")`. */
  function RStripSlash(s: string): (r: string)
    ensures r <= s
    ensures r == [] || r[|r| - 1] != '/'
    ensures forall k :: |r| <= k < |s| ==> s[k] == '/'
  {
    RStripBy(s, c => c == '/')
  }

  /** `s.strip()` with no argument: whitespace at both ends. */
  function StripSpace(s: string): (r: string)
    ensures |r| <= |s|
    ensures r == [] || (!IsSpace(r[0]) && !IsSpace(r[|r| - 1]))
    decreases |s|
  {
    if |s| > 0 && IsSpace(s[0]) then StripSpace(s[1..])
    else if |s| > 0 && IsSpace(s[|s| - 1]) then StripSpace(s[..|s| - 1])
    else s
  }

  /** What `strip()` keeps is a slice of `s`, with only whitespace cut off around it. */
  lemma {:induction false} StripSpaceTrims(s: string)
    ensures exists i: nat :: TrimmedAt(s, StripSpace(s), i, IsSpace)
    decreases |s|
  {
    var r := StripSpace(s);
    if |s| > 0 && IsSpace(s[0]) {
      StripSpaceTrims(s[1..]);
      var i: nat :| TrimmedAt(s[1..], r, i, IsSpace);
      TrimmedAfterFirst(s, r, i, IsSpace);
    } else if |s| > 0 && IsSpace(s[|s| - 1]) {
      StripSpaceTrims(s[..|s| - 1]);
      var i: nat :| TrimmedAt(s[..|s| - 1], r, i, IsSpace);
      TrimmedBeforeLast(s, r, i, IsSpace);
    } else {
      assert TrimmedAt(s, r, 0, IsSpace);
    }
  }

  /** A cut of `s[1..]` is a cut of `s` one position on, when `s[0]` is in the class. */
  lemma TrimmedAfterFirst(s: string, r: string, i: nat, inClass: char -> bool)
    requires |s| > 0 && inClass(s[0]) && TrimmedAt(s[1..], r, i, inClass)
    ensures TrimmedAt(s, r, i + 1, inClass)
  {
    assert s[i + 1..i + 1 + |r|] == s[1..][i..i + |r|];
    assert forall k :: 1 <= k < |s| ==> s[k] == s[1..][k - 1];
  }

  /** A cut of `s` without its last character is a cut of `s`, when that character is in the class. */
  lemma TrimmedBeforeLast(s: string, r: string, i: nat, inClass: char -> bool)
    requires |s| > 0 && inClass(s[|s| - 1]) && TrimmedAt(s[..|s| - 1], r, i, inClass)
    ensures TrimmedAt(s, r, i, inClass)
  {
    assert s[i..i + |r|] == s[..|s| - 1][i..i + |r|];
  }

  /** `(pre + core + post).strip() == core` for whitespace `pre` and `post` and a core without whitespace ends. */
  lemma StripSpaceCore(pre: string, core: string, post: string)
    requires forall k :: 0 <= k < |pre| ==> IsSpace(pre[k])
    requires forall k :: 0 <= k < |post| ==> IsSpace(post[k])
    requires core == [] || (!IsSpace(core[0]) && !IsSpace(core[|core| - 1]))
    ensures StripSpace(pre + core + post) == core
  {
    var s := pre + core + post;
    StripSpaceTrims(s);
    var i: nat :| TrimmedAt(s, StripSpace(s), i, IsSpace);
    TrimmedUnique(pre, core, post, StripSpace(s), i, IsSpace);
  }

  /** Position of the first `c` in `s`. */
  function IndexOf(s: string, c: char): (i: nat)
    requires c in s
    ensures i < |s| && s[i] == c && c !in s[..i]
  {
    if s[0] == c then 0 else 1 + IndexOf(s[1..], c)
  }

  /** The parts joined back with `sep` between them: the inverse of `Split`. */
  function Join(parts: seq<string>, sep: char): string
  {
    if |parts| == 0 then "" else if |parts| == 1 then parts[0] else parts[0] + [sep] + Join(parts[1..], sep)
  }

  /** `s.split(sep)`: every piece, empty ones included, in order. */
  function Split(s: string, sep: char): (parts: seq<string>)
    ensures |parts| >= 1
    ensures forall i :: 0 <= i < |parts| ==> sep !in parts[i]
    ensures Join(parts, sep) == s
    decreases |s|
  {
    if sep in s then
      var i := IndexOf(s, sep);
      assert s == s[..i] + [sep] + s[i + 1..];
      [s[..i]] + Split(s[i + 1..], sep)
    else
      [s]
  }

  /** Splitting at the first separator: the piece before it, then the split of the rest. */
  lemma SplitAt(s: string, sep: char, i: nat)
    requires i < |s| && s[i] == sep && sep !in s[..i]
    ensures Split(s, sep) == [s[..i]] + Split(s[i + 1..], sep)
  {
    assert sep in s;
    assert IndexOf(s, sep) == i;
  }

  /** A piece without the separator, the separator, then the rest: the piece comes off whole. */
  lemma SplitCons(a: string, b: string, sep: char)
    requires sep !in a
    ensures Split(a + [sep] + b, sep) == [a] + Split(b, sep)
  {
    var s := a + [sep] + b;
    assert s[..|a|] == a && s[|a| + 1..] == b;
    SplitAt(s, sep, |a|);
  }

  /** Joining pieces that hold no separator and splitting again gives the pieces back. */
  lemma {:induction false} SplitJoin(parts: seq<string>, sep: char)
    requires |parts| >= 1
    requires forall i :: 0 <= i < |parts| ==> sep !in parts[i]
    ensures Split(Join(parts, sep), sep) == parts
    decreases |parts|
  {
    if |parts| == 1 {
      assert Join(parts, sep) == parts[0];
    } else {
      var rest := parts[1..];
      assert forall i :: 0 <= i < |rest| ==> sep !in rest[i] by {
        forall i | 0 <= i < |rest| ensures sep !in rest[i] { assert rest[i] == parts[i + 1]; }
      }
      SplitJoin(rest, sep);
      SplitCons(parts[0], Join(rest, sep), sep);
      assert parts == [parts[0]] + rest;
    }
  }

  predicate AllDigits(s: string)
  {
    forall i :: 0 <= i < |s| ==> IsDigit(s[i])
  }

  function DigitValue(c: char): nat
    requires IsDigit(c)
  {
    c as int - '0' as int
  }

  /** The number a run of decimal digits denotes, as `int(s, 10)` reads it. */
  function DigitsValue(s: string): nat
    requires AllDigits(s)
  {
    if |s| == 0 then 0 else 10 * DigitsValue(s[..|s| - 1]) + DigitValue(s[|s| - 1])
  }

  function Pow10(n: nat): (r: nat)
    ensures r >= 1
  {
    if n == 0 then 1 else 10 * Pow10(n - 1)
  }
}
