/**
 * Size classification and extraction of the total effort from a PERT sheet.
 *
 * The three extraction patterns are regular expressions searched with
 * `re.findall(..., re.IGNORECASE)`. They are modelled by hand: for these
 * patterns every backtracking choice is forced except the lazy `.*?` gap,
 * so the match at a position is the one with the shortest gap. A digit run
 * is always taken whole (a shorter run is followed by a digit, which neither
 * `\s`, `.`, nor a unit can start with), the optional fraction is taken when
 * present, `\s*` is taken whole (units and keywords do not start with
 * whitespace) and the unit is fixed by its first letter.
 */
module Utils {
  import opened Wrappers
  import opened Text
  import opened Models

  // ---------------------------------------------------------------------
  // Size classification
  // ---------------------------------------------------------------------

  /** The lower bounds of S, M, L, XL and XXL, in man-weeks. */
  const SizeThresholds: seq<real> := [1.0, 6.0, 12.0, 40.0, 60.0]

  /** How many of `bounds` are at most `w`. */
  function CountAtMost(bounds: seq<real>, w: real): (n: nat)
    ensures n <= |bounds|
  {
    if |bounds| == 0 then 0 else (if bounds[0] <= w then 1 else 0) + CountAtMost(bounds[1..], w)
  }

  /**
   * `calculate_tshirt_size`: the size whose rank is the number of thresholds
   * the estimate has reached, so each threshold itself belongs to the band above it.
   */
  function TShirtSizeFor(manWeeks: real): (size: TShirtSize)
    ensures size.Rank() == CountAtMost(SizeThresholds, manWeeks)
  {
    ThresholdsReached(manWeeks);
    if manWeeks < 1.0 then XS
    else if manWeeks < 6.0 then S
    else if manWeeks < 12.0 then M
    else if manWeeks < 40.0 then L
    else if manWeeks < 60.0 then XL
    else XXL
  }

  lemma ThresholdsReached(w: real)
    ensures CountAtMost(SizeThresholds, w) ==
              if w < 1.0 then 0 else if w < 6.0 then 1 else if w < 12.0 then 2
              else if w < 40.0 then 3 else if w < 60.0 then 4 else 5
  {
    var t := SizeThresholds;
    assert t[1..][1..][1..][1..][1..] == [];
    assert CountAtMost(t[1..][1..][1..][1..], w) == if 60.0 <= w then 1 else 0;
    assert CountAtMost(t[1..][1..][1..], w) == (if 40.0 <= w then 1 else 0) + (if 60.0 <= w then 1 else 0);
    assert CountAtMost(t[1..][1..], w) == (if 12.0 <= w then 1 else 0) + CountAtMost(t[1..][1..][1..], w);
    assert CountAtMost(t[1..], w) == (if 6.0 <= w then 1 else 0) + CountAtMost(t[1..][1..], w);
  }

  /** The bands: below 1 is XS, [1,6) S, [6,12) M, [12,40) L, [40,60) XL, 60 and above XXL. */
  lemma TShirtSizeBands(w: real)
    ensures TShirtSizeFor(w) == XS <==> w < 1.0
    ensures TShirtSizeFor(w) == S <==> 1.0 <= w < 6.0
    ensures TShirtSizeFor(w) == M <==> 6.0 <= w < 12.0
    ensures TShirtSizeFor(w) == L <==> 12.0 <= w < 40.0
    ensures TShirtSizeFor(w) == XL <==> 40.0 <= w < 60.0
    ensures TShirtSizeFor(w) == XXL <==> 60.0 <= w
  {
  }

  lemma {:induction false} CountAtMostMonotone(bounds: seq<real>, a: real, b: real)
    requires a <= b
    ensures CountAtMost(bounds, a) <= CountAtMost(bounds, b)
  {
    if |bounds| > 0 {
      CountAtMostMonotone(bounds[1..], a, b);
    }
  }

  /** Classification is total and monotone: a larger estimate never gets a smaller size. */
  lemma TShirtSizeMonotone(a: real, b: real)
    requires a <= b
    ensures TShirtSizeFor(a).Rank() <= TShirtSizeFor(b).Rank()
  {
    CountAtMostMonotone(SizeThresholds, a, b);
  }

  /** Each threshold falls into the higher band; just below it, the lower one. */
  lemma TShirtSizeBoundaries()
    ensures TShirtSizeFor(1.0) == S && TShirtSizeFor(0.999) == XS
    ensures TShirtSizeFor(6.0) == M && TShirtSizeFor(5.999) == S
    ensures TShirtSizeFor(12.0) == L && TShirtSizeFor(11.999) == M
    ensures TShirtSizeFor(40.0) == XL && TShirtSizeFor(39.999) == L
    ensures TShirtSizeFor(60.0) == XXL && TShirtSizeFor(59.999) == XL
    ensures TShirtSizeFor(-5.0) == XS
  {
  }

  // ---------------------------------------------------------------------
  // Decimal numbers: the group `\d+(?:\.\d+)?` and `float` applied to it
  // ---------------------------------------------------------------------

  /** Digits, optionally followed by `.` and more digits. */
  predicate IsDecimal(g: string)
  {
    if '.' in g then
      var i := IndexOf(g, '.');
      1 <= i < |g| - 1 && AllDigits(g[..i]) && AllDigits(g[i + 1..])
    else
      |g| >= 1 && AllDigits(g)
  }

  /** The exact value a decimal literal denotes. */
  function DecimalValue(g: string): (v: real)
    requires IsDecimal(g)
    ensures v >= 0.0
  {
    if '.' in g then
      var i := IndexOf(g, '.');
      DigitsValue(g[..i]) as real + DigitsValue(g[i + 1..]) as real / Pow10(|g| - i - 1) as real
    else
      DigitsValue(g) as real
  }

  /** `\d+(?:\.\d+)?` at `d`: where the number ends, if one starts there. */
  function NumberEnd(s: string, d: nat): (e: Option<nat>)
    requires d <= |s|
    ensures e.Some? <==> d < |s| && IsDigit(s[d])
    ensures e.Some? ==> d < e.value <= |s| && IsDecimal(s[d..e.value])
    ensures e.Some? ==> e.value == |s| || !IsDigit(s[e.value])
  {
    if d < |s| && IsDigit(s[d]) then
      var i := RunEnd(s, d, IsDigit);
      if i + 1 < |s| && s[i] == '.' && IsDigit(s[i + 1]) then
        var f := RunEnd(s, i + 1, IsDigit);
        FractionIsDecimal(s, d, i, f);
        Some(f)
      else
        DigitsAreDecimal(s, d, i);
        Some(i)
    else
      None
  }

  /** Digits from `d` to `i` form a decimal without a fraction. */
  lemma DigitsAreDecimal(s: string, d: nat, i: nat)
    requires d < i <= |s| && forall k :: d <= k < i ==> IsDigit(s[k])
    ensures IsDecimal(s[d..i])
  {
    assert AllDigits(s[d..i]);
    assert '.' !in s[d..i];
  }

  /** Digits from `d` to `i`, then `.`, then digits up to `f`, form a decimal with a fraction. */
  lemma FractionIsDecimal(s: string, d: nat, i: nat, f: nat)
    requires d < i && i + 1 < f <= |s| && s[i] == '.'
    requires forall k :: d <= k < i ==> IsDigit(s[k])
    requires forall k :: i + 1 <= k < f ==> IsDigit(s[k])
    ensures IsDecimal(s[d..f])
  {
    var g := s[d..f];
    assert g[..i - d] == s[d..i] && g[i - d] == '.' && g[i - d + 1..] == s[i + 1..f];
    assert AllDigits(s[d..i]) && AllDigits(s[i + 1..f]);
    assert '.' !in g[..i - d];
    assert IndexOf(g, '.') == i - d by { IndexOfFirst(g, '.', i - d); }
  }

  /**
   * The optional fraction is taken whenever it is there: a number that ends
   * without a `.` is not followed by `.` and a digit.
   */
  lemma NumberEndTakesFraction(s: string, d: nat)
    requires d <= |s|
    ensures var e := NumberEnd(s, d);
            e.Some? && '.' !in s[d..e.value] ==> !(e.value + 1 < |s| && s[e.value] == '.' && IsDigit(s[e.value + 1]))
  {
    if d < |s| && IsDigit(s[d]) {
      var i := RunEnd(s, d, IsDigit);
      if i + 1 < |s| && s[i] == '.' && IsDigit(s[i + 1]) {
        var f := RunEnd(s, i + 1, IsDigit);
        assert s[d..f][i - d] == '.';
      }
    }
  }

  lemma IndexOfFirst(s: string, c: char, k: nat)
    requires k < |s| && s[k] == c && c !in s[..k]
    ensures IndexOf(s, c) == k
  {
  }

  // ---------------------------------------------------------------------
  // The unit `(?:man[\s-]?weeks?|weeks?)`
  // ---------------------------------------------------------------------

  /** `s?` after position `k`. */
  function PluralEnd(s: string, k: nat): (e: nat)
    requires k <= |s|
    ensures k <= e <= k + 1 && e <= |s|
  {
    if k < |s| && Lower(s[k]) == 's' then k + 1 else k
  }

  /** Where the unit that starts at `j` ends, if one does. */
  function UnitEnd(s: string, j: nat): (u: Option<nat>)
    requires j <= |s|
    ensures u.Some? ==> j + 4 <= u.value <= |s|
    ensures u.Some? ==> FoldedLiteralAt(s, j, "man") || FoldedLiteralAt(s, j, "week")
  {
    if FoldedLiteralAt(s, j, "man") && j + 3 < |s| && (IsSpace(s[j + 3]) || s[j + 3] == '-')
       && FoldedLiteralAt(s, j + 4, "week") then
      Some(PluralEnd(s, j + 8))
    else if FoldedLiteralAt(s, j, "man") && FoldedLiteralAt(s, j + 3, "week") then
      Some(PluralEnd(s, j + 7))
    else if FoldedLiteralAt(s, j, "week") then
      Some(PluralEnd(s, j + 4))
    else
      None
  }

  /** After position `e`, optional whitespace and then a week unit. */
  predicate UnitFollows(s: string, e: nat)
    requires e <= |s|
  {
    UnitEnd(s, RunEnd(s, e, IsSpace)).Some?
  }

  // ---------------------------------------------------------------------
  // The three patterns
  // ---------------------------------------------------------------------

  /** One match: the whole match is `s[start..end]`, the captured number `s[numStart..numEnd]`. */
  datatype WeeksMatch = WeeksMatch(start: nat, numStart: nat, numEnd: nat, end: nat)

  datatype WeeksPattern =
      /** `(?:kw1|kw2|...).*?(\d+(?:\.\d+)?)\s*(?:man[\s-]?weeks?|weeks?)` */
    | KeywordFirst(keywords: seq<string>)
      /** `(\d+(?:\.\d+)?)\s*(?:man[\s-]?weeks?|weeks?)\s*(?:kw1|kw2|...)` */
    | NumberFirst(keywords: seq<string>)

  const TotalPattern: WeeksPattern := KeywordFirst(["total", "overall", "sum"])
  const ExpectedPattern: WeeksPattern := KeywordFirst(["expected", "e"])
  const TrailingTotalPattern: WeeksPattern := NumberFirst(["total", "overall"])

  /** The patterns in the order they are tried. */
  const WeeksPatterns: seq<WeeksPattern> := [TotalPattern, ExpectedPattern, TrailingTotalPattern]

  /** `(\d+(?:\.\d+)?)\s*UNIT` at exactly `d`. */
  function NumberUnitAt(s: string, d: nat): (m: Option<WeeksMatch>)
    requires d <= |s|
    ensures m.Some? ==> m.value.start == d == m.value.numStart && Some(m.value.numEnd) == NumberEnd(s, d)
    ensures m.Some? ==> m.value.numEnd < m.value.end <= |s| && UnitFollows(s, m.value.numEnd)
  {
    match NumberEnd(s, d)
    case None => None
    case Some(n) =>
      match UnitEnd(s, RunEnd(s, n, IsSpace))
      case None => None
      case Some(u) => Some(WeeksMatch(d, d, n, u))
  }

  /**
   * The lazy `.*?` followed by the number and unit: the first position from
   * `d` on, before the end of the line, where they match.
   */
  function LazyNumberUnit(s: string, d: nat): (m: Option<WeeksMatch>)
    requires d <= |s|
    ensures m.Some? ==> d <= m.value.numStart <= |s| && NumberUnitAt(s, m.value.numStart) == m
    ensures m.Some? ==> forall k :: d <= k < m.value.numStart ==> s[k] != '\n'
    ensures m.Some? ==> forall k :: d <= k < m.value.numStart ==> NumberUnitAt(s, k).None?
    decreases |s| - d
  {
    var here := NumberUnitAt(s, d);
    if here.Some? then here
    else if d < |s| && s[d] != '\n' then LazyNumberUnit(s, d + 1)
    else None
  }

  /** Keywords made of lower-case ASCII letters only, as all of the patterns' are. */
  predicate LetterKeywords(kws: seq<string>)
  {
    forall i, j :: 0 <= i < |kws| && 0 <= j < |kws[i]| ==> IsAsciiLower(kws[i][j])
  }

  lemma FoldedLettersNotNewline(s: string, p: nat, kw: string)
    requires FoldedLiteralAt(s, p, kw)
    requires forall j :: 0 <= j < |kw| ==> IsAsciiLower(kw[j])
    ensures forall k :: p <= k < p + |kw| ==> s[k] != '\n'
  {
    forall k | p <= k < p + |kw| ensures s[k] != '\n' {
      assert Lower(s[p + (k - p)]) == kw[k - p];
    }
  }

  /** The keyword alternation followed by the lazy gap, number and unit, at exactly `p`. */
  function KeywordFirstAt(s: string, p: nat, kws: seq<string>): (m: Option<WeeksMatch>)
    requires p <= |s|
    ensures m.Some? ==> m.value.start == p <= m.value.numStart <= |s| && NumberUnitAt(s, m.value.numStart).Some?
    ensures m.Some? ==> NumberUnitAt(s, m.value.numStart).value.end == m.value.end
    ensures m.Some? ==> NumberUnitAt(s, m.value.numStart).value.numEnd == m.value.numEnd
    ensures m.Some? && LetterKeywords(kws) ==> forall k :: p <= k < m.value.numStart ==> s[k] != '\n'
  {
    if |kws| == 0 then None
    else if FoldedLiteralAt(s, p, kws[0]) then
      match LazyNumberUnit(s, p + |kws[0]|)
      case Some(n) =>
        if LetterKeywords(kws) then FoldedLettersNotNewline(s, p, kws[0]); Some(n.(start := p))
        else Some(n.(start := p))
      case None => KeywordFirstAt(s, p, kws[1..])
    else KeywordFirstAt(s, p, kws[1..])
  }

  /** The first of `kws` that occurs at `w`, ignoring case. */
  function KeywordAt(s: string, w: nat, kws: seq<string>): (k: Option<string>)
    ensures k.Some? ==> k.value in kws && FoldedLiteralAt(s, w, k.value)
  {
    if |kws| == 0 then None
    else if FoldedLiteralAt(s, w, kws[0]) then Some(kws[0])
    else KeywordAt(s, w, kws[1..])
  }

  /** Number, unit, optional whitespace and a keyword, at exactly `p`. */
  function NumberFirstAt(s: string, p: nat, kws: seq<string>): (m: Option<WeeksMatch>)
    requires p <= |s|
    ensures m.Some? ==> m.value.start == p == m.value.numStart && NumberUnitAt(s, p).Some?
    ensures m.Some? ==> m.value.numEnd == NumberUnitAt(s, p).value.numEnd
    ensures m.Some? ==> NumberUnitAt(s, p).value.end <= m.value.end <= |s|
  {
    match NumberUnitAt(s, p)
    case None => None
    case Some(n) =>
      var w := RunEnd(s, n.end, IsSpace);
      match KeywordAt(s, w, kws)
      case None => None
      case Some(k) => Some(n.(end := w + |k|))
  }

  /** Whether `pat` matches at exactly position `p`, and how. */
  function MatchAt(pat: WeeksPattern, s: string, p: nat): (m: Option<WeeksMatch>)
    requires p <= |s|
    ensures m.Some? ==> m.value.start == p < m.value.end <= |s|
  {
    match pat
    case KeywordFirst(kws) => KeywordFirstAt(s, p, kws)
    case NumberFirst(kws) => NumberFirstAt(s, p, kws)
  }

  /**
   * What a match consists of: the captured group is a decimal literal followed,
   * after optional whitespace, by a week unit; for a keyword-first pattern the
   * gap from the keyword to the number holds no line feed.
   */
  lemma MatchAtShape(pat: WeeksPattern, s: string, p: nat)
    requires p <= |s|
    ensures var m := MatchAt(pat, s, p);
            m.Some? ==> m.value.start == p <= m.value.numStart < m.value.numEnd < m.value.end <= |s|
                        && IsDecimal(s[m.value.numStart..m.value.numEnd]) && UnitFollows(s, m.value.numEnd)
    ensures var m := MatchAt(pat, s, p);
            m.Some? && pat.KeywordFirst? && LetterKeywords(pat.keywords) ==>
              forall k :: p <= k < m.value.numStart ==> s[k] != '\n'
  {
  }

  /** What a pattern matches at each position up to `n`: a match begins where it is tried and ends after it, by `n`. */
  predicate Advances(at: nat -> Option<WeeksMatch>, n: nat)
  {
    forall p: nat :: p <= n && at(p).Some? ==> at(p).value.start == p < at(p).value.end <= n
  }

  /**
   * The scan of `re.findall` from position `pos`: at each position try the
   * pattern; on a match record it and continue where it ended, otherwise move
   * one on.
   */
  function Scan(at: nat -> Option<WeeksMatch>, n: nat, pos: nat): seq<WeeksMatch>
    requires Advances(at, n)
    decreases n + 1 - pos
  {
    if pos > n then []
    else if at(pos).Some? then [at(pos).value] + Scan(at, n, at(pos).value.end)
    else Scan(at, n, pos + 1)
  }

  /** The `i`-th match of the scan starts at or after `pos` and is what the pattern matches there. */
  lemma {:induction false} ScanSoundAt(at: nat -> Option<WeeksMatch>, n: nat, pos: nat, i: nat)
    requires Advances(at, n) && i < |Scan(at, n, pos)|
    ensures var m := Scan(at, n, pos)[i]; pos <= m.start <= n && at(m.start) == Some(m)
    decreases n + 1 - pos
  {
    if at(pos).Some? {
      var rest := Scan(at, n, at(pos).value.end);
      assert Scan(at, n, pos) == [at(pos).value] + rest;
      if i > 0 {
        ScanSoundAt(at, n, at(pos).value.end, i - 1);
        assert Scan(at, n, pos)[i] == rest[i - 1];
      }
    } else {
      ScanSoundAt(at, n, pos + 1, i);
    }
  }

  /** The pattern tried at each position of `s`. */
  function MatchesIn(pat: WeeksPattern, s: string): nat -> Option<WeeksMatch>
  {
    (p: nat) => if p <= |s| then MatchAt(pat, s, p) else None
  }

  lemma MatchesInAdvances(pat: WeeksPattern, s: string)
    ensures Advances(MatchesIn(pat, s), |s|)
  {
    forall p: nat | p <= |s| && MatchesIn(pat, s)(p).Some?
      ensures MatchesIn(pat, s)(p).value.start == p < MatchesIn(pat, s)(p).value.end <= |s|
    {
      assert MatchesIn(pat, s)(p) == MatchAt(pat, s, p);
    }
  }

  /** `re.findall(pat, s)` from position `pos`, as match records. */
  function FindAll(pat: WeeksPattern, s: string, pos: nat): seq<WeeksMatch>
  {
    MatchesInAdvances(pat, s);
    Scan(MatchesIn(pat, s), |s|, pos)
  }

  /** `m` is what the pattern matches at `m`'s own start. */
  predicate MatchedAt(pat: WeeksPattern, s: string, m: WeeksMatch)
  {
    m.start <= |s| && MatchAt(pat, s, m.start) == Some(m)
  }

  /** Every match `FindAll` reports is a match of the pattern at its start, at or after `pos`. */
  lemma FindAllSound(pat: WeeksPattern, s: string, pos: nat)
    ensures forall i :: 0 <= i < |FindAll(pat, s, pos)| ==>
              pos <= FindAll(pat, s, pos)[i].start && MatchedAt(pat, s, FindAll(pat, s, pos)[i])
  {
    MatchesInAdvances(pat, s);
    forall i | 0 <= i < |FindAll(pat, s, pos)|
      ensures pos <= FindAll(pat, s, pos)[i].start && MatchedAt(pat, s, FindAll(pat, s, pos)[i])
    {
      ScanSoundAt(MatchesIn(pat, s), |s|, pos, i);
    }
  }

  /** The number captured by a match. */
  function Group(s: string, m: WeeksMatch): string
    requires m.numStart <= m.numEnd <= |s|
  {
    s[m.numStart..m.numEnd]
  }

  /** The value of the last match of `pat`: what `float(matches[-1])` yields. */
  function LastValue(pat: WeeksPattern, text: string): (v: real)
    requires FindAll(pat, text, 0) != []
    ensures v >= 0.0
  {
    var ms := FindAll(pat, text, 0);
    FindAllSound(pat, text, 0);
    MatchAtShape(pat, text, ms[|ms| - 1].start);
    DecimalValue(Group(text, ms[|ms| - 1]))
  }

  /**
   * The loop of `parse_man_weeks_from_pert` from pattern `pats[0]` on: the
   * first pattern with any match decides, through the last of its matches.
   * Every captured group is a decimal literal (`MatchAtShape`), so `float`
   * cannot raise and the `ValueError` branch is never taken.
   */
  function FirstDeciding(pats: seq<WeeksPattern>, text: string): (v: Option<real>)
  {
    if |pats| == 0 then None
    else if FindAll(pats[0], text, 0) != [] then Some(LastValue(pats[0], text))
    else FirstDeciding(pats[1..], text)
  }

  /** `parse_man_weeks_from_pert`. */
  function ParseManWeeks(text: string): (v: Option<real>)
  {
    FirstDeciding(WeeksPatterns, text)
  }

  // ---------------------------------------------------------------------
  // Properties of the extraction
  // ---------------------------------------------------------------------

  /** Pattern `i` is the first of `pats` with a match: every earlier one has none. */
  predicate DecidesAt(pats: seq<WeeksPattern>, text: string, i: nat)
  {
    i < |pats| && FindAll(pats[i], text, 0) != [] && forall j :: 0 <= j < i ==> FindAll(pats[j], text, 0) == []
  }

  /**
   * The search: no result exactly when no pattern matches anywhere; otherwise
   * the first pattern with a match decides, through the last of its matches
   * (the `ValueError` branch is never taken).
   */
  lemma {:induction false} FirstDecidingSpec(pats: seq<WeeksPattern>, text: string)
    ensures FirstDeciding(pats, text).None? <==> forall i :: 0 <= i < |pats| ==> FindAll(pats[i], text, 0) == []
    ensures forall i: nat :: DecidesAt(pats, text, i) ==> FirstDeciding(pats, text) == Some(LastValue(pats[i], text))
  {
    if |pats| > 0 {
      FirstDecidingSpec(pats[1..], text);
      forall i: nat | DecidesAt(pats, text, i)
        ensures FirstDeciding(pats, text) == Some(LastValue(pats[i], text))
      {
        if i > 0 {
          assert DecidesAt(pats[1..], text, i - 1);
        }
      }
      if FindAll(pats[0], text, 0) == [] {
        assert forall i :: 1 <= i < |pats| ==> FindAll(pats[i], text, 0) == FindAll(pats[1..][i - 1], text, 0);
      }
    }
  }

  /** `parse_man_weeks_from_pert` returns `None` exactly when none of the three patterns matches anywhere. */
  lemma ParseManWeeksNone(text: string)
    ensures ParseManWeeks(text).None? <==>
              FindAll(TotalPattern, text, 0) == [] && FindAll(ExpectedPattern, text, 0) == []
              && FindAll(TrailingTotalPattern, text, 0) == []
  {
    FirstDecidingSpec(WeeksPatterns, text);
    assert WeeksPatterns[0] == TotalPattern && WeeksPatterns[1] == ExpectedPattern && WeeksPatterns[2] == TrailingTotalPattern;
  }

  /** Priority: the total/overall/sum pattern decides whenever it matches at all, through its last match. */
  lemma ParseManWeeksPriority(text: string)
    ensures FindAll(TotalPattern, text, 0) != [] ==>
              ParseManWeeks(text) == Some(LastValue(TotalPattern, text))
    ensures FindAll(TotalPattern, text, 0) == [] && FindAll(ExpectedPattern, text, 0) != [] ==>
              ParseManWeeks(text) == Some(LastValue(ExpectedPattern, text))
    ensures FindAll(TotalPattern, text, 0) == [] && FindAll(ExpectedPattern, text, 0) == []
            && FindAll(TrailingTotalPattern, text, 0) != [] ==>
              ParseManWeeks(text) == Some(LastValue(TrailingTotalPattern, text))
  {
    FirstDecidingSpec(WeeksPatterns, text);
    assert WeeksPatterns[0] == TotalPattern && WeeksPatterns[1] == ExpectedPattern && WeeksPatterns[2] == TrailingTotalPattern;
    if FindAll(TotalPattern, text, 0) != [] {
      assert DecidesAt(WeeksPatterns, text, 0);
    } else if FindAll(ExpectedPattern, text, 0) != [] {
      assert DecidesAt(WeeksPatterns, text, 1);
    } else if FindAll(TrailingTotalPattern, text, 0) != [] {
      assert DecidesAt(WeeksPatterns, text, 2);
    }
  }

  /**
   * A returned value is a non-negative decimal literal that occurs in the
   * text and is followed, after optional whitespace, by a week unit.
   */
  lemma ParseManWeeksShape(text: string)
    ensures ParseManWeeks(text).Some? ==>
              ParseManWeeks(text).value >= 0.0
              && exists d, e :: 0 <= d < e <= |text| && IsDecimal(text[d..e]) && UnitFollows(text, e)
                                && DecimalValue(text[d..e]) == ParseManWeeks(text).value
  {
    ParseManWeeksPriority(text);
    ParseManWeeksNone(text);
    if ParseManWeeks(text).Some? {
      var pat := if FindAll(TotalPattern, text, 0) != [] then TotalPattern
                 else if FindAll(ExpectedPattern, text, 0) != [] then ExpectedPattern
                 else TrailingTotalPattern;
      var ms := FindAll(pat, text, 0);
      var m := ms[|ms| - 1];
      FindAllSound(pat, text, 0);
      MatchAtShape(pat, text, m.start);
    }
  }

  /**
   * For the keyword-first patterns, the keyword and the number lie on one
   * line: `.` does not match a line feed.
   */
  lemma KeywordAndNumberOnOneLine(kws: seq<string>, text: string)
    requires LetterKeywords(kws)
    ensures forall m | m in FindAll(KeywordFirst(kws), text, 0) ::
              m.numStart <= |text| && forall k :: m.start <= k < m.numStart ==> text[k] != '\n'
  {
    FindAllSound(KeywordFirst(kws), text, 0);
    forall m | m in FindAll(KeywordFirst(kws), text, 0)
      ensures m.numStart <= |text| && forall k :: m.start <= k < m.numStart ==> text[k] != '\n'
    {
      MatchAtShape(KeywordFirst(kws), text, m.start);
    }
  }

  /** The keywords of both keyword-first patterns are lower-case letters. */
  lemma PatternKeywordsAreLetters()
    ensures LetterKeywords(TotalPattern.keywords) && LetterKeywords(ExpectedPattern.keywords)
  {
  }

  /** At a position that is neither a digit nor a line feed, the lazy gap moves one on. */
  lemma LazyStep(s: string, d: nat)
    requires d < |s| && !IsDigit(s[d]) && s[d] != '\n'
    ensures LazyNumberUnit(s, d) == LazyNumberUnit(s, d + 1)
  {
    assert NumberEnd(s, d).None?;
  }

  /**
   * The `expected` alternative adds nothing: `(?:expected|e)` matches exactly
   * where a lone `e` does, with the same number, so this pattern accepts an
   * `e` anywhere on the line before the number.
   */
  lemma ExpectedIsJustE(s: string, p: nat)
    requires p <= |s|
    ensures KeywordFirstAt(s, p, ["expected", "e"]) == KeywordFirstAt(s, p, ["e"])
  {
    var both: seq<string> := ["expected", "e"];
    assert both[1..] == ["e"];
    assert ["e"][1..] == [];
    if FoldedLiteralAt(s, p, "expected") {
      ExpectedStartsWithE(s, p);
      LazyStep(s, p + 1);
      LazyStep(s, p + 2);
      LazyStep(s, p + 3);
      LazyStep(s, p + 4);
      LazyStep(s, p + 5);
      LazyStep(s, p + 6);
      LazyStep(s, p + 7);
    }
  }

  /** Where `expected` occurs, so does `e`, and the seven letters after it are neither digits nor line feeds. */
  lemma ExpectedStartsWithE(s: string, p: nat)
    requires FoldedLiteralAt(s, p, "expected")
    ensures FoldedLiteralAt(s, p, "e")
    ensures forall k :: p + 1 <= k < p + 8 ==> !IsDigit(s[k]) && s[k] != '\n'
  {
    assert Lower(s[p + 0]) == "expected"[0];
    forall k | p + 1 <= k < p + 8 ensures !IsDigit(s[k]) && s[k] != '\n' {
      assert Lower(s[p + (k - p)]) == "expected"[k - p];
    }
  }
}
