/** Properties of the clean-up chain of `extractTextFromBuffer`. */
module OcrProperties {
  import opened Wrappers
  import opened Text
  import opened OcrService

  /** No character of `s` satisfies `p`. */
  predicate Lacks(s: string, p: char -> bool) {
    forall k :: 0 <= k < |s| ==> !p(s[k])
  }

  predicate IsPercent(c: char) { c == '%' }
  predicate IsSlash(c: char) { c == '/' }
  predicate IsDot(c: char) { c == '.' }

  /** A sufficient condition, per rule, for its pattern to match nowhere in `s`. */
  predicate Inert(rule: Rule, s: string) {
    match rule
    case BlankLines => Lacks(s, IsLineFeed)
    case ThousandsSplit => Lacks(s, IsDigit) || Lacks(s, IsSpace)
    case HundredsSplit => Lacks(s, IsDigit) || Lacks(s, IsSpace)
    case DecimalPoint => Lacks(s, IsDigit) || Lacks(s, IsDot)
    case GramPerDecilitre => Lacks(s, IsSlash)
    case MilligramPerDecilitre => Lacks(s, IsSlash)
    case PerMicrolitre => Lacks(s, IsSlash)
    case PercentSpacing => Lacks(s, IsPercent)
    case StrayPunctuation => Lacks(s, IsStrayPunctuation)
  }

  /** Every match of `m` needs a character that `Inert(rule, _)` rules out. */
  ghost predicate DefeatsInert(m: (string, nat) -> Option<Hit>, rule: Rule) {
    forall s: string, i: nat {:trigger m(s, i)} :: i < |s| && m(s, i).Some? ==> !Inert(rule, s)
  }

  /** Each pattern needs the characters that `Inert` rules out. */
  lemma PatternDefeatsInert(rule: Rule)
    ensures DefeatsInert(Pattern(rule), rule)
  {
    match rule
    case BlankLines => BlankLinesDefeatsInert();
    case ThousandsSplit => ThousandsSplitDefeatsInert();
    case HundredsSplit => HundredsSplitDefeatsInert();
    case DecimalPoint => DecimalPointDefeatsInert();
    case GramPerDecilitre => GramPerDecilitreDefeatsInert();
    case MilligramPerDecilitre => MilligramPerDecilitreDefeatsInert();
    case PerMicrolitre => PerMicrolitreDefeatsInert();
    case PercentSpacing => PercentSpacingDefeatsInert();
    case StrayPunctuation => StrayPunctuationDefeatsInert();
  }

  lemma BlankLinesDefeatsInert()
    ensures DefeatsInert(MatchBlankLines, BlankLines)
  {
    forall s: string, i: nat | i < |s| && MatchBlankLines(s, i).Some? ensures !Inert(BlankLines, s) {
      assert IsLineFeed(s[i]);
    }
  }

  lemma ThousandsSplitDefeatsInert()
    ensures DefeatsInert(MatchThousands, ThousandsSplit)
  {
    forall s: string, i: nat | i < |s| && MatchThousands(s, i).Some? ensures !Inert(ThousandsSplit, s) {
      assert IsDigit(s[i]) && IsSpace(s[RunEnd(s, i, IsDigit)]);
    }
  }

  lemma HundredsSplitDefeatsInert()
    ensures DefeatsInert(MatchHundreds, HundredsSplit)
  {
    forall s: string, i: nat | i < |s| && MatchHundreds(s, i).Some? ensures !Inert(HundredsSplit, s) {
      assert IsDigit(s[i]) && IsSpace(s[RunEnd(s, i, IsDigit)]);
    }
  }

  lemma DecimalPointDefeatsInert()
    ensures DefeatsInert(MatchDecimalPoint, DecimalPoint)
  {
    forall s: string, i: nat | i < |s| && MatchDecimalPoint(s, i).Some? ensures !Inert(DecimalPoint, s) {
      assert IsDigit(s[i]) && IsDot(s[RunEnd(s, RunEnd(s, i, IsDigit), IsSpace)]);
    }
  }

  lemma GramPerDecilitreDefeatsInert()
    ensures DefeatsInert(MatchGramPerDecilitre, GramPerDecilitre)
  {
    forall s: string, i: nat | i < |s| && MatchGramPerDecilitre(s, i).Some? ensures !Inert(GramPerDecilitre, s) {
      assert IsSlash(s[RunEnd(s, i + 1, IsSpace)]);
    }
  }

  lemma MilligramPerDecilitreDefeatsInert()
    ensures DefeatsInert(MatchMilligramPerDecilitre, MilligramPerDecilitre)
  {
    forall s: string, i: nat | i < |s| && MatchMilligramPerDecilitre(s, i).Some? ensures !Inert(MilligramPerDecilitre, s) {
      assert IsSlash(s[RunEnd(s, i + 2, IsSpace)]);
    }
  }

  lemma PerMicrolitreDefeatsInert()
    ensures DefeatsInert(MatchPerMicrolitre, PerMicrolitre)
  {
    forall s: string, i: nat | i < |s| && MatchPerMicrolitre(s, i).Some? ensures !Inert(PerMicrolitre, s) {
      assert IsSlash(s[i]);
    }
  }

  lemma PercentSpacingDefeatsInert()
    ensures DefeatsInert(MatchPercent, PercentSpacing)
  {
    forall s: string, i: nat | i < |s| && MatchPercent(s, i).Some? ensures !Inert(PercentSpacing, s) {
      assert IsPercent(s[i]);
    }
  }

  lemma StrayPunctuationDefeatsInert()
    ensures DefeatsInert(MatchStrayPunctuation, StrayPunctuation)
  {
    forall s: string, i: nat | i < |s| && MatchStrayPunctuation(s, i).Some? ensures !Inert(StrayPunctuation, s) {
      assert IsStrayPunctuation(s[RunEnd(s, i, IsSpace)]);
    }
  }

  /** A matcher that matches nowhere from `i` on leaves the text from `i` on as it was. */
  lemma {:induction false} NoMatchUnchanged(m: (string, nat) -> Option<Hit>, s: string, i: nat)
    requires Advances(m) && i <= |s|
    requires forall k :: i <= k < |s| ==> m(s, k).None?
    ensures ReplaceFrom(m, s, i) == s[i..]
    decreases |s| - i
  {
    if i < |s| {
      NoMatchUnchanged(m, s, i + 1);
      assert s[i..] == [s[i]] + s[i + 1..];
    }
  }

  /** A rule that cannot fire leaves the text exactly as it was. */
  lemma InertUnchanged(rule: Rule, s: string)
    requires Inert(rule, s)
    ensures ReplaceAll(rule, s) == s
  {
    PatternDefeatsInert(rule);
    NoMatchUnchanged(Pattern(rule), s, 0);
    assert s[0..] == s;
  }

  /**
   * If every match of `m` in `s` replaces its text by one with the same `p`-subsequence,
   * the whole replacement keeps the `p`-subsequence of `s`.
   */
  lemma {:induction false} ReplaceFromKeeps(m: (string, nat) -> Option<Hit>, s: string, i: nat, p: char -> bool)
    requires Advances(m) && i <= |s|
    requires forall k :: 0 <= k < |s| && m(s, k).Some? ==>
      Keep(m(s, k).value.text, p) == Keep(s[k..m(s, k).value.end], p)
    ensures Keep(ReplaceFrom(m, s, i), p) == Keep(s[i..], p)
    decreases |s| - i
  {
    if i < |s| {
      match m(s, i)
      case Some(h) =>
        ReplaceFromKeeps(m, s, h.end, p);
        KeepConcat(h.text, ReplaceFrom(m, s, h.end), p);
        assert s[i..] == s[i..h.end] + s[h.end..];
        KeepConcat(s[i..h.end], s[h.end..], p);
      case None =>
        ReplaceFromKeeps(m, s, i + 1, p);
        KeepConcat([s[i]], ReplaceFrom(m, s, i + 1), p);
        assert s[i..] == [s[i]] + s[i + 1..];
        KeepConcat([s[i]], s[i + 1..], p);
    }
  }

  /** Digits of a concatenation of three pieces, the middle one digit-free. */
  lemma DigitsAround(x: string, w: string, y: string)
    requires Lacks(w, IsDigit)
    ensures Digits(x + w + y) == Digits(x) + Digits(y)
  {
    KeepNone(w, IsDigit);
    KeepConcat(x + w, y, IsDigit);
    KeepConcat(x, w, IsDigit);
  }

  /** Every match of `m` keeps the digits it covers, in order. */
  ghost predicate KeepsDigits(m: (string, nat) -> Option<Hit>) {
    forall s: string, i: nat {:trigger m(s, i)} :: i < |s| && m(s, i).Some? && i <= m(s, i).value.end <= |s| ==>
      Digits(m(s, i).value.text) == Digits(s[i..m(s, i).value.end])
  }

  /** Every rule's matches keep the digits they cover, in order. */
  lemma PatternKeepsDigits(rule: Rule)
    ensures KeepsDigits(Pattern(rule))
  {
    match rule
    case BlankLines => BlankLinesKeepDigits();
    case ThousandsSplit => ThousandsKeepDigits();
    case HundredsSplit => HundredsKeepDigits();
    case DecimalPoint => DecimalPointKeepsDigits();
    case GramPerDecilitre => GramPerDecilitreKeepsDigits();
    case MilligramPerDecilitre => MilligramPerDecilitreKeepsDigits();
    case PerMicrolitre => PerMicrolitreKeepsDigits();
    case PercentSpacing => PercentKeepsDigits();
    case StrayPunctuation => StrayPunctuationKeepsDigits();
  }

  lemma BlankLinesKeepDigits()
    ensures KeepsDigits(MatchBlankLines)
  {
    forall s: string, i: nat | i < |s| && MatchBlankLines(s, i).Some?
      ensures Digits(MatchBlankLines(s, i).value.text) == Digits(s[i..MatchBlankLines(s, i).value.end])
    {
      BlankLinesAreDigitFree(s, i);
      DigitFreeHit(s, i, MatchBlankLines(s, i).value);
    }
  }

  lemma ThousandsKeepDigits()
    ensures KeepsDigits(MatchThousands)
  {
    forall s: string, i: nat | i < |s| && MatchThousands(s, i).Some?
      ensures Digits(MatchThousands(s, i).value.text) == Digits(s[i..MatchThousands(s, i).value.end])
    {
      SplitKeepsDigits(s, i, 3);
    }
  }

  lemma HundredsKeepDigits()
    ensures KeepsDigits(MatchHundreds)
  {
    forall s: string, i: nat | i < |s| && MatchHundreds(s, i).Some?
      ensures Digits(MatchHundreds(s, i).value.text) == Digits(s[i..MatchHundreds(s, i).value.end])
    {
      SplitKeepsDigits(s, i, 2);
    }
  }

  lemma DecimalPointKeepsDigits()
    ensures KeepsDigits(MatchDecimalPoint)
  {
    forall s: string, i: nat | i < |s| && MatchDecimalPoint(s, i).Some?
      ensures Digits(MatchDecimalPoint(s, i).value.text) == Digits(s[i..MatchDecimalPoint(s, i).value.end])
    {
      DecimalKeepsDigits(s, i);
    }
  }

  lemma GramPerDecilitreKeepsDigits()
    ensures KeepsDigits(MatchGramPerDecilitre)
  {
    forall s: string, i: nat | i < |s| && MatchGramPerDecilitre(s, i).Some?
      ensures Digits(MatchGramPerDecilitre(s, i).value.text) == Digits(s[i..MatchGramPerDecilitre(s, i).value.end])
    {
      PerDecilitreIsDigitFree(s, i, "g", "g/dL");
      DigitFreeHit(s, i, MatchGramPerDecilitre(s, i).value);
    }
  }

  lemma MilligramPerDecilitreKeepsDigits()
    ensures KeepsDigits(MatchMilligramPerDecilitre)
  {
    forall s: string, i: nat | i < |s| && MatchMilligramPerDecilitre(s, i).Some?
      ensures Digits(MatchMilligramPerDecilitre(s, i).value.text) == Digits(s[i..MatchMilligramPerDecilitre(s, i).value.end])
    {
      PerDecilitreIsDigitFree(s, i, "mg", "mg/dL");
      DigitFreeHit(s, i, MatchMilligramPerDecilitre(s, i).value);
    }
  }

  lemma PerMicrolitreKeepsDigits()
    ensures KeepsDigits(MatchPerMicrolitre)
  {
    forall s: string, i: nat | i < |s| && MatchPerMicrolitre(s, i).Some?
      ensures Digits(MatchPerMicrolitre(s, i).value.text) == Digits(s[i..MatchPerMicrolitre(s, i).value.end])
    {
      PerMicrolitreIsDigitFree(s, i);
      DigitFreeHit(s, i, MatchPerMicrolitre(s, i).value);
    }
  }

  lemma PercentKeepsDigits()
    ensures KeepsDigits(MatchPercent)
  {
    forall s: string, i: nat | i < |s| && MatchPercent(s, i).Some?
      ensures Digits(MatchPercent(s, i).value.text) == Digits(s[i..MatchPercent(s, i).value.end])
    {
      DigitFreeHit(s, i, MatchPercent(s, i).value);
    }
  }

  lemma StrayPunctuationKeepsDigits()
    ensures KeepsDigits(MatchStrayPunctuation)
  {
    forall s: string, i: nat | i < |s| && MatchStrayPunctuation(s, i).Some?
      ensures Digits(MatchStrayPunctuation(s, i).value.text) == Digits(s[i..MatchStrayPunctuation(s, i).value.end])
    {
      StrayPunctuationIsDigitFree(s, i);
      DigitFreeHit(s, i, MatchStrayPunctuation(s, i).value);
    }
  }

  /** A match over digit-free text, replaced by digit-free text, keeps the (absent) digits. */
  lemma DigitFreeHit(s: string, i: nat, h: Hit)
    requires i <= h.end <= |s| && Lacks(h.text, IsDigit)
    requires forall k :: i <= k < h.end ==> !IsDigit(s[k])
    ensures Digits(h.text) == Digits(s[i..h.end])
  {
    KeepNone(s[i..h.end], IsDigit);
    KeepNone(h.text, IsDigit);
  }

  /** What a match of line 23 covers: digits, spaces, `.`, spaces, digits. */
  lemma DecimalShape(s: string, i: nat)
    requires MatchDecimalPoint(s, i).Some?
    ensures var a := RunEnd(s, i, IsDigit); var b := RunEnd(s, a, IsSpace);
      var c := RunEnd(s, b + 1, IsSpace); var d := RunEnd(s, c, IsDigit);
      && b < |s| && s[b] == '.' && MatchDecimalPoint(s, i).value == Hit(d, s[i..a] + "." + s[c..d])
  {
  }

  lemma DecimalKeepsDigits(s: string, i: nat)
    requires i < |s| && MatchDecimalPoint(s, i).Some?
    ensures Digits(MatchDecimalPoint(s, i).value.text) == Digits(s[i..MatchDecimalPoint(s, i).value.end])
  {
    DecimalShape(s, i);
    var a := RunEnd(s, i, IsDigit);
    var b := RunEnd(s, a, IsSpace);
    var c := RunEnd(s, b + 1, IsSpace);
    SpacedDotKeepsDigits(s, i, a, b, c, RunEnd(s, c, IsDigit), MatchDecimalPoint(s, i).value);
  }

  /** Replacing spaces, `.`, spaces between `a` and `c` by one `.` keeps the digits. */
  lemma SpacedDotKeepsDigits(s: string, i: nat, a: nat, b: nat, c: nat, d: nat, h: Hit)
    requires i <= a <= b < c <= d <= |s| && s[b] == '.'
    requires forall k :: a <= k < b ==> IsSpace(s[k])
    requires forall k :: b < k < c ==> IsSpace(s[k])
    requires h == Hit(d, s[i..a] + "." + s[c..d])
    ensures Digits(h.text) == Digits(s[i..h.end])
  {
    assert s[i..d] == s[i..a] + s[a..c] + s[c..d];
    assert Lacks(s[a..c], IsDigit) by {
      forall k | a <= k < c ensures !IsDigit(s[k]) {
        if k != b {
          assert IsSpace(s[k]);
        }
      }
    }
    DigitsAround(s[i..a], s[a..c], s[c..d]);
    DigitsAround(s[i..a], ".", s[c..d]);
  }

  lemma SplitKeepsDigits(s: string, i: nat, n: nat)
    requires i < |s| && MatchDigitSplit(s, i, n).Some?
    ensures Digits(MatchDigitSplit(s, i, n).value.text) == Digits(s[i..MatchDigitSplit(s, i, n).value.end])
  {
    var a := RunEnd(s, i, IsDigit);
    var b := RunEnd(s, a, IsSpace);
    var c := RunEnd(s, b, IsDigit);
    assert s[i..c] == s[i..a] + s[a..b] + s[b..c];
    DigitsAround(s[i..a], s[a..b], s[b..c]);
    DigitsAround(s[i..a], [], s[b..c]);
    assert s[i..a] + [] + s[b..c] == s[i..a] + s[b..c];
  }

  /** Text that folds to a digit-free word holds no digit. */
  lemma FoldedHasNoDigit(s: string, i: nat, w: string)
    requires FoldedAt(s, i, w) && Lacks(w, IsDigit)
    ensures forall k :: i <= k < i + |w| ==> !IsDigit(s[k])
  {
    forall k | i <= k < i + |w| ensures !IsDigit(s[k]) {
      assert Fold(s[i + (k - i)]) == w[k - i];
    }
  }

  lemma PerMicrolitreIsDigitFree(s: string, i: nat)
    requires MatchPerMicrolitre(s, i).Some?
    ensures MatchPerMicrolitre(s, i).value.text == "/uL"
    ensures forall k :: i <= k < MatchPerMicrolitre(s, i).value.end ==> !IsDigit(s[k])
  {
    var a := RunEnd(s, i + 2, IsSpace);
    FoldedHasNoDigit(s, a, "ul");
    forall k | i <= k < a + 2 ensures !IsDigit(s[k]) {
      if i + 2 <= k < a {
        assert IsSpace(s[k]);
      }
    }
  }

  lemma BlankLinesAreDigitFree(s: string, i: nat)
    requires MatchBlankLines(s, i).Some?
    ensures forall k :: i <= k < MatchBlankLines(s, i).value.end ==> IsSpace(s[k])
  {
  }

  lemma StrayPunctuationIsDigitFree(s: string, i: nat)
    requires MatchStrayPunctuation(s, i).Some?
    ensures forall k :: i <= k < MatchStrayPunctuation(s, i).value.end ==> !IsDigit(s[k])
  {
    var a := RunEnd(s, i, IsSpace);
    assert forall k :: i <= k < MatchStrayPunctuation(s, i).value.end && k != a ==> IsSpace(s[k]);
  }

  /** What a match of lines 25 and 27 covers: the head, spaces, `/`, spaces, `dL`. */
  lemma PerDecilitreShape(s: string, i: nat, head: string, out: string)
    requires |head| > 0 && MatchPerDecilitre(s, i, head, out).Some?
    ensures var a := RunEnd(s, i + |head|, IsSpace); var b := RunEnd(s, a + 1, IsSpace);
      && a < |s| && s[a] == '/' && FoldedAt(s, i, head) && FoldedAt(s, b, "dl")
      && MatchPerDecilitre(s, i, head, out).value.end == b + 2
  {
  }

  lemma PerDecilitreIsDigitFree(s: string, i: nat, head: string, out: string)
    requires i < |s| && |head| > 0 && Lacks(head, IsDigit)
    requires MatchPerDecilitre(s, i, head, out).Some?
    ensures forall k :: i <= k < MatchPerDecilitre(s, i, head, out).value.end ==> !IsDigit(s[k])
  {
    PerDecilitreShape(s, i, head, out);
    var a := RunEnd(s, i + |head|, IsSpace);
    var b := RunEnd(s, a + 1, IsSpace);
    FoldedHasNoDigit(s, i, head);
    FoldedHasNoDigit(s, b, "dl");
    forall k | i <= k < b + 2 ensures !IsDigit(s[k]) {
      if i + |head| <= k < b && k != a {
        assert IsSpace(s[k]);
      }
    }
  }

  /** Every rule keeps the digit subsequence of its input. */
  lemma RuleKeepsDigits(rule: Rule, s: string)
    ensures Digits(ReplaceAll(rule, s)) == Digits(s)
  {
    var m := Pattern(rule);
    PatternKeepsDigits(rule);
    ReplaceFromKeeps(m, s, 0, IsDigit);
    assert s[0..] == s;
  }

  /** `trim` removes whitespace only, so it keeps every digit. */
  lemma TrimKeepsDigits(s: string)
    ensures Digits(Trim(s)) == Digits(s)
  {
    var i := RunEnd(s, 0, IsSpace);
    var j := TrimmedEnd(s, i);
    assert Trim(s) == s[i..j];
    TrimmedOffKeep(s, i, j, IsDigit);
  }

  /** Cutting whitespace off both ends keeps the `p`-subsequence when `p` rejects whitespace. */
  lemma TrimmedOffKeep(s: string, i: nat, j: nat, p: char -> bool)
    requires i <= j <= |s|
    requires forall k :: 0 <= k < i ==> IsSpace(s[k])
    requires forall k :: j <= k < |s| ==> IsSpace(s[k])
    requires forall c :: IsSpace(c) ==> !p(c)
    ensures Keep(s[i..j], p) == Keep(s, p)
  {
    var x, r, y := s[..i], s[i..j], s[j..];
    assert s[..j] == x + r;
    assert s == x + r + y;
    assert Lacks(x, p) by {
      forall k | 0 <= k < |x| ensures !p(x[k]) { assert x[k] == s[k]; }
    }
    assert Lacks(y, p) by {
      forall k | 0 <= k < |y| ensures !p(y[k]) { assert y[k] == s[j + k]; }
    }
    KeepPadded(x, r, y, p);
  }

  /** Padding that `p` rejects on both sides does not change the `p`-subsequence. */
  lemma KeepPadded(x: string, r: string, y: string, p: char -> bool)
    requires Lacks(x, p) && Lacks(y, p)
    ensures Keep(x + r + y, p) == Keep(r, p)
  {
    KeepNone(x, p);
    KeepNone(y, p);
    KeepConcat(x + r, y, p);
    KeepConcat(x, r, p);
  }

  /** No digit is ever added, dropped or reordered by the clean-up. */
  lemma {:induction false} CleanKeepsDigits(s: string)
    ensures Digits(Clean(s)) == Digits(s)
  {
    var s1 := CollapseBlankLines(s);
    var s2 := JoinThousands(s1);
    var s3 := JoinHundreds(s2);
    var s4 := JoinDecimalPoint(s3);
    var s5 := CompactGramPerDecilitre(s4);
    var s6 := CompactMilligramPerDecilitre(s5);
    var s7 := CompactPerMicrolitre(s6);
    var s8 := TightenPercent(s7);
    var s9 := DropStrayPunctuation(s8);
    RuleKeepsDigits(BlankLines, s);
    RuleKeepsDigits(ThousandsSplit, s1);
    RuleKeepsDigits(HundredsSplit, s2);
    RuleKeepsDigits(DecimalPoint, s3);
    RuleKeepsDigits(GramPerDecilitre, s4);
    RuleKeepsDigits(MilligramPerDecilitre, s5);
    RuleKeepsDigits(PerMicrolitre, s6);
    RuleKeepsDigits(PercentSpacing, s7);
    RuleKeepsDigits(StrayPunctuation, s8);
    TrimKeepsDigits(s9);
  }

  /** Collapsing blank lines replaces whitespace by whitespace only. */
  lemma CollapseKeepsVisible(s: string)
    ensures NonSpace(CollapseBlankLines(s)) == NonSpace(s)
  {
    forall k | 0 <= k < |s| && MatchBlankLines(s, k).Some?
      ensures Keep(MatchBlankLines(s, k).value.text, IsVisible) == Keep(s[k..MatchBlankLines(s, k).value.end], IsVisible)
    {
      var h := MatchBlankLines(s, k).value;
      assert forall j :: k < j < h.end ==> IsSpace(s[j]);
      KeepNone(s[k..h.end], IsVisible);
      KeepNone(h.text, IsVisible);
    }
    ReplaceFromKeeps(MatchBlankLines, s, 0, IsVisible);
    assert s[0..] == s;
  }

  /** The output is trimmed: it neither starts nor ends with whitespace. */
  lemma CleanIsTrimmed(s: string)
    ensures Clean(s) == "" || (!IsSpace(Clean(s)[0]) && !IsSpace(Clean(s)[|Clean(s)| - 1]))
    ensures Clean("") == ""
  {
  }

  /** No percent sign is immediately followed by whitespace. */
  predicate PercentTight(t: string) {
    forall k :: 0 <= k < |t| - 1 && t[k] == '%' ==> !IsSpace(t[k + 1])
  }

  lemma PrependTight(c: char, t: string)
    requires PercentTight(t)
    requires c == '%' && t != [] ==> !IsSpace(t[0])
    ensures PercentTight([c] + t)
  {
    var u := [c] + t;
    forall k | 0 <= k < |u| - 1 && u[k] == '%' ensures !IsSpace(u[k + 1]) {
      if k > 0 {
        assert u[k] == t[k - 1] && u[k + 1] == t[k];
      }
    }
  }

  /**
   * After line 31 every percent sign is directly followed by a non-space or ends the text,
   * and the output from position `i` on starts with `s[i]`.
   */
  lemma {:induction false} TightenPercentFrom(s: string, i: nat)
    requires i <= |s|
    ensures PercentTight(ReplaceFrom(MatchPercent, s, i))
    ensures i < |s| ==> ReplaceFrom(MatchPercent, s, i) != [] && ReplaceFrom(MatchPercent, s, i)[0] == s[i]
    decreases |s| - i
  {
    if i < |s| {
      match MatchPercent(s, i)
      case Some(h) =>
        TightenPercentFrom(s, h.end);
        assert h.text == ['%'];
        PrependTight('%', ReplaceFrom(MatchPercent, s, h.end));
      case None =>
        TightenPercentFrom(s, i + 1);
        PrependTight(s[i], ReplaceFrom(MatchPercent, s, i + 1));
    }
  }

  /** A matcher that only deletes, and only text that starts a line, as line 33's does. */
  ghost predicate DeletesLineStarts(m: (string, nat) -> Option<Hit>) {
    forall s: string, i: nat {:trigger m(s, i)} :: m(s, i).Some? ==>
      m(s, i).value.text == "" && (i == 0 || (i <= |s| && IsLineTerminator(s[i - 1])))
  }

  /**
   * Such a matcher keeps `PercentTight`: the character after a percent sign never starts
   * a line, so it is copied right after the sign.
   */
  lemma {:induction false} DeleteLineStartsFrom(m: (string, nat) -> Option<Hit>, s: string, i: nat)
    requires Advances(m) && DeletesLineStarts(m)
    requires i <= |s| && PercentTight(s)
    ensures PercentTight(ReplaceFrom(m, s, i))
    ensures 0 < i < |s| && s[i - 1] == '%' ==> ReplaceFrom(m, s, i) != [] && ReplaceFrom(m, s, i)[0] == s[i]
    decreases |s| - i
  {
    if i < |s| {
      match m(s, i)
      case Some(h) =>
        DeleteLineStartsFrom(m, s, h.end);
      case None =>
        DeleteLineStartsFrom(m, s, i + 1);
        if s[i] == '%' && i + 1 < |s| {
          assert !IsSpace(s[i + 1]);
        }
        PrependTight(s[i], ReplaceFrom(m, s, i + 1));
    }
  }

  /** After line 31 no percent sign is followed by whitespace. */
  lemma TightenPercentIsTight(s: string)
    ensures PercentTight(TightenPercent(s))
  {
    TightenPercentFrom(s, 0);
  }

  /** Line 33 keeps that property. */
  lemma DropStrayKeepsTight(s: string)
    requires PercentTight(s)
    ensures PercentTight(DropStrayPunctuation(s))
  {
    assert DeletesLineStarts(MatchStrayPunctuation);
    DeleteLineStartsFrom(MatchStrayPunctuation, s, 0);
  }

  lemma TrimKeepsTight(s: string)
    requires PercentTight(s)
    ensures PercentTight(Trim(s))
  {
    var i := RunEnd(s, 0, IsSpace);
    var j := TrimmedEnd(s, i);
    var r := s[i..j];
    assert Trim(s) == r;
    forall k | 0 <= k < |r| - 1 && r[k] == '%' ensures !IsSpace(r[k + 1]) {
      assert r[k] == s[i + k] && r[k + 1] == s[i + k + 1];
    }
  }

  /** In the cleaned text no `%` is immediately followed by whitespace. */
  lemma CleanTightensPercent(s: string)
    ensures PercentTight(Clean(s))
  {
    var s7 := CompactPerMicrolitre(CompactMilligramPerDecilitre(CompactGramPerDecilitre(
      JoinDecimalPoint(JoinHundreds(JoinThousands(CollapseBlankLines(s)))))));
    TightenPercentIsTight(s7);
    DropStrayKeepsTight(TightenPercent(s7));
    TrimKeepsTight(DropStrayPunctuation(TightenPercent(s7)));
  }

  /** Line 33 deletes a text made of whitespace and one stray punctuation mark whole. */
  lemma DropLonePunctuation(s: string, p: nat)
    requires p < |s| && IsStrayPunctuation(s[p])
    requires forall k :: 0 <= k < |s| && k != p ==> IsSpace(s[k])
    ensures DropStrayPunctuation(s) == ""
  {
    assert RunEnd(s, 0, IsSpace) == p;
    assert RunEnd(s, p + 1, IsSpace) == |s|;
    assert MatchStrayPunctuation(s, 0) == Some(Hit(|s|, ""));
    assert ReplaceFrom(MatchStrayPunctuation, s, 0) == "" + ReplaceFrom(MatchStrayPunctuation, s, |s|);
  }

  /** A text whose only non-whitespace character is `c`. */
  lemma {:induction false} OnlyVisible(s: string, c: char)
    requires NonSpace(s) == [c]
    ensures exists p :: 0 <= p < |s| && s[p] == c && forall k :: 0 <= k < |s| && k != p ==> IsSpace(s[k])
  {
    assert s != [];
    if IsVisible(s[0]) {
      assert Keep(s, IsVisible) == [s[0]] + Keep(s[1..], IsVisible);
      KeepEmpty(s[1..], IsVisible);
      forall k | 0 < k < |s| ensures IsSpace(s[k]) {
        assert s[k] == s[1..][k - 1];
      }
      assert NonSpace(s)[0] == s[0];
    } else {
      OnlyVisible(s[1..], c);
      var p :| 0 <= p < |s[1..]| && s[1..][p] == c && forall k :: 0 <= k < |s[1..]| && k != p ==> IsSpace(s[1..][k]);
      forall k | 0 <= k < |s| && k != p + 1 ensures IsSpace(s[k]) {
        if k > 0 { assert s[k] == s[1..][k - 1]; }
      }
      assert s[p + 1] == c;
    }
  }

  lemma {:induction false} KeepEmpty(s: string, p: char -> bool)
    requires Keep(s, p) == []
    ensures Lacks(s, p)
  {
    if s != [] {
      KeepEmpty(s[1..], p);
      assert forall k :: 0 < k < |s| ==> s[k] == s[1..][k - 1];
    }
  }

  /** An input of whitespace and a single `.`, `,` or `-` cleans to the empty text. */
  lemma CleanLonePunctuation(s: string, c: char)
    requires NonSpace(s) == [c] && IsStrayPunctuation(c)
    ensures Clean(s) == ""
  {
    var s1 := CollapseBlankLines(s);
    CollapseKeepsVisible(s);
    OnlyVisible(s1, c);
    var p :| 0 <= p < |s1| && s1[p] == c && forall k :: 0 <= k < |s1| && k != p ==> IsSpace(s1[k]);
    assert Lacks(s1, IsDigit) && Lacks(s1, IsSlash) && Lacks(s1, IsPercent) by {
      forall k | 0 <= k < |s1| ensures !IsDigit(s1[k]) && !IsSlash(s1[k]) && !IsPercent(s1[k]) {
        if k != p { assert IsSpace(s1[k]); }
      }
    }
    InertUnchanged(ThousandsSplit, s1);
    InertUnchanged(HundredsSplit, s1);
    InertUnchanged(DecimalPoint, s1);
    InertUnchanged(GramPerDecilitre, s1);
    InertUnchanged(MilligramPerDecilitre, s1);
    InertUnchanged(PerMicrolitre, s1);
    InertUnchanged(PercentSpacing, s1);
    DropLonePunctuation(s1, p);
  }

  /**
   * An input with no digit, `%`, `/`, `.`, `,`, `-` or line feed comes back merely trimmed.
   */
  lemma CleanOnlyTrims(s: string)
    requires forall k :: 0 <= k < |s| ==>
      !IsDigit(s[k]) && !IsStrayPunctuation(s[k]) && s[k] !in {'%', '/', '\n'}
    ensures Clean(s) == Trim(s)
  {
    InertUnchanged(BlankLines, s);
    InertUnchanged(ThousandsSplit, s);
    InertUnchanged(HundredsSplit, s);
    InertUnchanged(DecimalPoint, s);
    InertUnchanged(GramPerDecilitre, s);
    InertUnchanged(MilligramPerDecilitre, s);
    InertUnchanged(PerMicrolitre, s);
    InertUnchanged(PercentSpacing, s);
    InertUnchanged(StrayPunctuation, s);
  }
}
