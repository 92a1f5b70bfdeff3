/**
 * The repairs that the comments of the clean-up chain promise, stated for every input of
 * the shape they describe, and the inputs of those comments worked through.
 */
module OcrExamples {
  import opened Wrappers
  import opened Text
  import opened OcrService
  import opened OcrProperties

  /** `RunEnd` stops exactly at the end of a run followed by a character that fails `p`. */
  lemma RunEndAt(s: string, i: nat, j: nat, p: char -> bool)
    requires i <= j <= |s|
    requires forall k :: i <= k < j ==> p(s[k])
    requires j == |s| || !p(s[j])
    ensures RunEnd(s, i, p) == j
  {
  }

  /** Where each piece of `x + y + z` sits, and what holds of its characters there. */
  lemma Segments(x: string, y: string, z: string, p: char -> bool, q: char -> bool, r: char -> bool)
    requires All(x, p) && All(y, q) && All(z, r)
    ensures forall k :: 0 <= k < |x| ==> p((x + y + z)[k])
    ensures forall k :: |x| <= k < |x| + |y| ==> q((x + y + z)[k])
    ensures forall k :: |x| + |y| <= k < |x + y + z| ==> r((x + y + z)[k])
    ensures (x + y + z)[..|x|] == x && (x + y + z)[|x| + |y|..] == z
  {
    var s := x + y + z;
    assert forall k :: 0 <= k < |x| ==> s[k] == x[k];
    assert forall k :: |x| <= k < |x| + |y| ==> s[k] == y[k - |x|];
    assert forall k :: |x| + |y| <= k < |s| ==> s[k] == z[k - |x| - |y|];
  }

  /** Lines 19 and 21 on a text laid out as digits, whitespace and a group of `n` digits. */
  lemma DigitSplitLayout(s: string, a: nat, b: nat, n: nat)
    requires 0 < a < b && |s| == b + n
    requires forall k :: 0 <= k < a ==> IsDigit(s[k])
    requires forall k :: a <= k < b ==> IsSpace(s[k])
    requires forall k :: b <= k < |s| ==> IsDigit(s[k])
    ensures MatchDigitSplit(s, 0, n) == Some(Hit(|s|, s[..a] + s[b..]))
  {
    RunEndAt(s, 0, a, IsDigit);
    RunEndAt(s, a, b, IsSpace);
    RunEndAt(s, b, |s|, IsDigit);
    assert s[0..a] == s[..a] && s[b..|s|] == s[b..];
  }

  /**
   * Lines 19 and 21 on a whole text made of a digit run, whitespace and a group of `n`
   * digits: the whitespace is removed.
   */
  lemma JoinsDigitGroup(d: string, w: string, g: string, n: nat)
    requires d != [] && All(d, IsDigit) && w != [] && All(w, IsSpace) && All(g, IsDigit) && |g| == n
    ensures MatchDigitSplit(d + w + g, 0, n) == Some(Hit(|d + w + g|, d + g))
  {
    Segments(d, w, g, IsDigit, IsSpace, IsDigit);
    DigitSplitLayout(d + w + g, |d|, |d| + |w|, n);
  }

  /** The match covering the whole text is the only replacement made. */
  lemma WholeMatch(m: (string, nat) -> Option<Hit>, s: string, t: string)
    requires Advances(m) && s != [] && m(s, 0) == Some(Hit(|s|, t))
    ensures ReplaceFrom(m, s, 0) == t
  {
    assert ReplaceFrom(m, s, 0) == t + ReplaceFrom(m, s, |s|);
  }

  /** Line 19: a digit run, whitespace and exactly three digits become one number. */
  lemma JoinThousandsWhole(d: string, w: string, g: string)
    requires d != [] && All(d, IsDigit) && w != [] && All(w, IsSpace) && All(g, IsDigit) && |g| == 3
    ensures JoinThousands(d + w + g) == d + g
  {
    JoinsDigitGroup(d, w, g, 3);
    WholeMatch(MatchThousands, d + w + g, d + g);
  }

  /** Line 21: the same for exactly two digits. */
  lemma JoinHundredsWhole(d: string, w: string, g: string)
    requires d != [] && All(d, IsDigit) && w != [] && All(w, IsSpace) && All(g, IsDigit) && |g| == 2
    ensures JoinHundreds(d + w + g) == d + g
  {
    JoinsDigitGroup(d, w, g, 2);
    WholeMatch(MatchHundreds, d + w + g, d + g);
  }

  /** Where each of five pieces sits in their concatenation. */
  lemma FivePieces(x1: string, x2: string, x3: string, x4: string, x5: string)
    ensures var s := x1 + x2 + x3 + x4 + x5;
      var e2 := |x1| + |x2|; var e3 := e2 + |x3|; var e4 := e3 + |x4|;
      && |s| == e4 + |x5|
      && (forall k :: 0 <= k < |x1| ==> s[k] == x1[k])
      && (forall k :: |x1| <= k < e2 ==> s[k] == x2[k - |x1|])
      && (forall k :: e2 <= k < e3 ==> s[k] == x3[k - e2])
      && (forall k :: e3 <= k < e4 ==> s[k] == x4[k - e3])
      && (forall k :: e4 <= k < |s| ==> s[k] == x5[k - e4])
      && s[..|x1|] == x1 && s[e4..] == x5
  {
    var s := x1 + x2 + x3 + x4 + x5;
    assert s[..|x1|] == x1;
    assert s[|x1| + |x2| + |x3| + |x4|..] == x5;
  }

  /** The match of line 23 on a text laid out as digits, spaces, `.`, spaces, digits. */
  lemma DecimalPointMatch(s: string, a: nat, b: nat, c: nat)
    requires 0 < a <= b < c < |s| && s[b] == '.'
    requires forall k :: 0 <= k < a ==> IsDigit(s[k])
    requires forall k :: a <= k < b ==> IsSpace(s[k])
    requires forall k :: b < k < c ==> IsSpace(s[k])
    requires forall k :: c <= k < |s| ==> IsDigit(s[k])
    ensures MatchDecimalPoint(s, 0) == Some(Hit(|s|, s[..a] + "." + s[c..]))
  {
    RunEndAt(s, 0, a, IsDigit);
    RunEndAt(s, a, b, IsSpace);
    RunEndAt(s, b + 1, c, IsSpace);
    RunEndAt(s, c, |s|, IsDigit);
    assert s[0..a] == s[..a] && s[c..|s|] == s[c..];
  }

  /** Line 23 on a whole text `<digits> <spaces> . <spaces> <digits>`. */
  lemma JoinDecimalPointWhole(d1: string, w1: string, w2: string, d2: string)
    requires d1 != [] && All(d1, IsDigit) && d2 != [] && All(d2, IsDigit)
    requires All(w1, IsSpace) && All(w2, IsSpace)
    ensures JoinDecimalPoint(d1 + w1 + "." + w2 + d2) == d1 + "." + d2
  {
    var s := d1 + w1 + "." + w2 + d2;
    FivePieces(d1, w1, ".", w2, d2);
    var b := |d1| + |w1|;
    DecimalPointMatch(s, |d1|, b, b + 1 + |w2|);
    WholeMatch(MatchDecimalPoint, s, d1 + "." + d2);
  }

  /** The match of line 25 or 27 on a text laid out as the head, spaces, `/`, spaces, `dL`. */
  lemma PerDecilitreMatch(s: string, head: string, out: string, a: nat, b: nat)
    requires 0 < |head| <= a < b && |s| == b + 2 && s[a] == '/'
    requires FoldedAt(s, 0, head) && FoldedAt(s, b, "dl")
    requires forall k :: |head| <= k < a ==> IsSpace(s[k])
    requires forall k :: a < k < b ==> IsSpace(s[k])
    ensures MatchPerDecilitre(s, 0, head, out) == Some(Hit(|s|, out))
  {
    RunEndAt(s, |head|, a, IsSpace);
    assert Fold(s[b + 0]) == "dl"[0];
    RunEndAt(s, a + 1, b, IsSpace);
  }

  /** Line 25 on a whole text `g <spaces> / <spaces> dL`, in any letter case. */
  lemma CompactGramPerDecilitreWhole(u: string, w1: string, w2: string, t: string)
    requires FoldedAt(u, 0, "g") && |u| == 1 && FoldedAt(t, 0, "dl") && |t| == 2
    requires All(w1, IsSpace) && All(w2, IsSpace)
    ensures CompactGramPerDecilitre(u + w1 + "/" + w2 + t) == "g/dL"
  {
    var s := u + w1 + "/" + w2 + t;
    FivePieces(u, w1, "/", w2, t);
    var a := 1 + |w1|;
    PerDecilitreMatch(s, "g", "g/dL", a, a + 1 + |w2|);
    WholeMatch(MatchGramPerDecilitre, s, "g/dL");
  }

  /** Line 27 on a whole text `mg <spaces> / <spaces> dL`, in any letter case. */
  lemma CompactMilligramPerDecilitreWhole(u: string, w1: string, w2: string, t: string)
    requires FoldedAt(u, 0, "mg") && |u| == 2 && FoldedAt(t, 0, "dl") && |t| == 2
    requires All(w1, IsSpace) && All(w2, IsSpace)
    ensures CompactMilligramPerDecilitre(u + w1 + "/" + w2 + t) == "mg/dL"
  {
    var s := u + w1 + "/" + w2 + t;
    FivePieces(u, w1, "/", w2, t);
    var a := 2 + |w1|;
    PerDecilitreMatch(s, "mg", "mg/dL", a, a + 1 + |w2|);
    WholeMatch(MatchMilligramPerDecilitre, s, "mg/dL");
  }

  /** Line 29 on a whole text `/ <spaces> uL`, in any letter case. */
  lemma CompactPerMicrolitreWhole(w: string, u: char, l: char)
    requires Fold(u) == 'u' && Fold(l) == 'l' && All(w, IsSpace)
    ensures CompactPerMicrolitre("/ " + w + [u, l]) == "/uL"
  {
    var s := "/ " + w + [u, l];
    var a := 2 + |w|;
    assert forall k :: 2 <= k < a ==> s[k] == w[k - 2];
    RunEndAt(s, 2, a, IsSpace);
    assert FoldedAt(s, a, "ul");
    WholeMatch(MatchPerMicrolitre, s, "/uL");
  }

  /** Line 29 needs a space right after the slash: without one, as in `/uL`, nothing changes. */
  lemma PerMicrolitreNeedsSpace(s: string)
    requires forall k :: 0 <= k < |s| - 1 && s[k] == '/' ==> s[k + 1] != ' '
    ensures CompactPerMicrolitre(s) == s
  {
    forall k | 0 <= k < |s| ensures MatchPerMicrolitre(s, k).None? {
    }
    NoMatchUnchanged(MatchPerMicrolitre, s, 0);
    assert s[0..] == s;
  }

  /** Line 35 leaves a text alone that has no whitespace at either end. */
  lemma TrimKeepsTrimmed(s: string)
    requires s == [] || (!IsSpace(s[0]) && !IsSpace(s[|s| - 1]))
    ensures Trim(s) == s
  {
    if s != [] {
      RunEndAt(s, 0, 0, IsSpace);
      assert TrimmedEnd(s, 0) == |s|;
      assert s[0..|s|] == s;
    }
  }

  /** Lines 25-35 of the clean-up chain, the steps after the decimal-point join. */
  function CleanAfterDecimalPoint(s: string): string {
    Trim(
      DropStrayPunctuation(
        TightenPercent(
          CompactPerMicrolitre(
            CompactMilligramPerDecilitre(
              CompactGramPerDecilitre(s))))))
  }

  /** Lines 21-35 of the clean-up chain, the steps after the thousands join. */
  function CleanAfterThousands(s: string): string {
    CleanAfterDecimalPoint(JoinDecimalPoint(JoinHundreds(s)))
  }

  /** A text of digits alone passes lines 21-35 unchanged. */
  lemma DigitRunSurvivesTail(s: string)
    requires All(s, IsDigit)
    ensures CleanAfterThousands(s) == s
  {
    assert Lacks(s, IsSpace) && Lacks(s, IsDot) && Lacks(s, IsSlash);
    assert Lacks(s, IsPercent) && Lacks(s, IsStrayPunctuation);
    InertUnchanged(HundredsSplit, s);
    InertUnchanged(DecimalPoint, s);
    InertUnchanged(GramPerDecilitre, s);
    InertUnchanged(MilligramPerDecilitre, s);
    InertUnchanged(PerMicrolitre, s);
    InertUnchanged(PercentSpacing, s);
    InertUnchanged(StrayPunctuation, s);
    TrimKeepsTrimmed(s);
  }

  /**
   * The whole clean-up on a number split once before a group of three digits, such as
   * `11 200`: the number comes out whole.
   */
  lemma CleanJoinsThousands(d: string, w: string, g: string)
    requires d != [] && All(d, IsDigit) && w != [] && All(w, IsSpace) && Lacks(w, IsLineFeed)
    requires All(g, IsDigit) && |g| == 3
    ensures Clean(d + w + g) == d + g
  {
    var s := d + w + g;
    assert Lacks(s, IsLineFeed) by {
      assert forall k :: |d| <= k < |d| + |w| ==> s[k] == w[k - |d|];
    }
    InertUnchanged(BlankLines, s);
    JoinThousandsWhole(d, w, g);
    assert All(d + g, IsDigit);
    DigitRunSurvivesTail(d + g);
    assert Clean(s) == CleanAfterThousands(JoinThousands(CollapseBlankLines(s)));
  }

  /** Past its last whitespace, a text offers line 19 (or 21) no match. */
  lemma NoSplitInTail(s: string, e: nat, f: nat, n: nat)
    requires e <= f <= |s|
    requires forall k :: e <= k < f ==> IsSpace(s[k])
    requires forall k :: f <= k < |s| ==> IsDigit(s[k])
    ensures forall k :: e <= k < |s| ==> MatchDigitSplit(s, k, n).None?
  {
    forall k | f <= k < |s| ensures MatchDigitSplit(s, k, n).None? {
      RunEndAt(s, k, |s|, IsDigit);
      RunEndAt(s, |s|, |s|, IsSpace);
    }
  }

  /** One pass of line 19 over a text laid out as digits, spaces, three digits, then a tail. */
  lemma OnePassLayout(s: string, a: nat, b: nat, e: nat, f: nat)
    requires 0 < a < b && e == b + 3 < f <= |s|
    requires forall k :: 0 <= k < a ==> IsDigit(s[k])
    requires forall k :: a <= k < b ==> IsSpace(s[k])
    requires forall k :: b <= k < e ==> IsDigit(s[k])
    requires forall k :: e <= k < f ==> IsSpace(s[k])
    requires forall k :: f <= k < |s| ==> IsDigit(s[k])
    ensures JoinThousands(s) == s[..a] + s[b..e] + s[e..]
  {
    RunEndAt(s, 0, a, IsDigit);
    RunEndAt(s, a, b, IsSpace);
    RunEndAt(s, b, e, IsDigit);
    assert MatchDigitSplit(s, 0, 3) == Some(Hit(e, s[0..a] + s[b..e]));
    NoSplitInTail(s, e, f, 3);
    NoMatchUnchanged(MatchThousands, s, e);
    assert ReplaceFrom(MatchThousands, s, 0) == s[0..a] + s[b..e] + ReplaceFrom(MatchThousands, s, e);
    assert s[0..a] == s[..a];
  }

  /**
   * Line 19 does not reach a fixed point in one pass: after `1 234` is joined in `1 234 567`
   * the scan resumes past `234`, so the split before `567` is left for a second pass.
   */
  lemma JoinThousandsNotIdempotent(s: string, once: string)
    requires s == "1 234 567" && once == "1234 567"
    ensures JoinThousands(s) == once != s
    ensures JoinThousands(once) == "1234567" != once
  {
    FirstPassLayout(s);
    FirstPassPieces(s, once);
    SecondPassLayout(once);
    SecondPassPieces(once, "1234567");
  }

  lemma FirstPassLayout(s: string)
    requires s == "1 234 567"
    ensures JoinThousands(s) == s[..1] + s[2..5] + s[5..]
  {
    assert IsDigit(s[0]) && IsSpace(s[1]) && IsDigit(s[2]) && IsDigit(s[3]) && IsDigit(s[4]);
    assert IsSpace(s[5]) && IsDigit(s[6]) && IsDigit(s[7]) && IsDigit(s[8]);
    OnePassLayout(s, 1, 2, 5, 6);
  }

  lemma FirstPassPieces(s: string, once: string)
    requires s == "1 234 567" && once == "1234 567"
    ensures s[..1] + s[2..5] + s[5..] == once
  {
  }

  lemma SecondPassLayout(once: string)
    requires once == "1234 567"
    ensures JoinThousands(once) == once[..4] + once[5..]
  {
    assert IsDigit(once[0]) && IsDigit(once[1]) && IsDigit(once[2]) && IsDigit(once[3]);
    assert IsSpace(once[4]) && IsDigit(once[5]) && IsDigit(once[6]) && IsDigit(once[7]);
    DigitSplitLayout(once, 4, 5, 3);
    WholeMatch(MatchThousands, once, once[..4] + once[5..]);
  }

  lemma SecondPassPieces(once: string, twice: string)
    requires once == "1234 567" && twice == "1234567"
    ensures once[..4] + once[5..] == twice
  {
  }

  /** Line 21 finds nothing in digits, spaces and a group of three digits. */
  lemma HundredsSkipsGroupOfThree(s: string, a: nat, b: nat)
    requires 0 < a < b && |s| == b + 3
    requires forall k :: 0 <= k < a ==> IsDigit(s[k])
    requires forall k :: a <= k < b ==> IsSpace(s[k])
    requires forall k :: b <= k < |s| ==> IsDigit(s[k])
    ensures JoinHundreds(s) == s
  {
    RunEndAt(s, a, b, IsSpace);
    RunEndAt(s, b, |s|, IsDigit);
    forall k | 0 <= k < a ensures MatchHundreds(s, k).None? {
      RunEndAt(s, k, a, IsDigit);
    }
    NoSplitInTail(s, a, b, 2);
    NoMatchUnchanged(MatchHundreds, s, 0);
    assert s[0..] == s;
  }

  /** Digits and spaces that line 21 leaves alone, trimmed already, pass lines 21-35 unchanged. */
  lemma DigitsAndSpacesSurviveTail(s: string)
    requires forall k :: 0 <= k < |s| ==> IsDigit(s[k]) || IsSpace(s[k])
    requires JoinHundreds(s) == s
    requires s == [] || (!IsSpace(s[0]) && !IsSpace(s[|s| - 1]))
    ensures CleanAfterThousands(s) == s
  {
    assert Lacks(s, IsDot) && Lacks(s, IsSlash);
    assert Lacks(s, IsPercent) && Lacks(s, IsStrayPunctuation);
    InertUnchanged(DecimalPoint, s);
    PlainTextSurvivesTail(s);
    assert CleanAfterThousands(s) == CleanAfterDecimalPoint(JoinDecimalPoint(JoinHundreds(s)));
  }

  /** Text without `/`, `%` or stray punctuation, trimmed already, passes lines 25-35 unchanged. */
  lemma PlainTextSurvivesTail(s: string)
    requires Lacks(s, IsSlash) && Lacks(s, IsPercent) && Lacks(s, IsStrayPunctuation)
    requires s == [] || (!IsSpace(s[0]) && !IsSpace(s[|s| - 1]))
    ensures CleanAfterDecimalPoint(s) == s
  {
    InertUnchanged(GramPerDecilitre, s);
    InertUnchanged(MilligramPerDecilitre, s);
    InertUnchanged(PerMicrolitre, s);
    InertUnchanged(PercentSpacing, s);
    InertUnchanged(StrayPunctuation, s);
    TrimKeepsTrimmed(s);
  }

  /** Digits, spaces and a group of three digits pass lines 21-35 unchanged. */
  lemma GroupOfThreeSurvivesTail(s: string, a: nat, b: nat)
    requires 0 < a < b && |s| == b + 3
    requires forall k :: 0 <= k < a ==> IsDigit(s[k])
    requires forall k :: a <= k < b ==> IsSpace(s[k])
    requires forall k :: b <= k < |s| ==> IsDigit(s[k])
    ensures CleanAfterThousands(s) == s
  {
    HundredsSkipsGroupOfThree(s, a, b);
    assert forall k :: 0 <= k < |s| ==> IsDigit(s[k]) || IsSpace(s[k]);
    assert IsDigit(s[0]) && IsDigit(s[|s| - 1]);
    DigitsAndSpacesSurviveTail(s);
  }

  /**
   * The whole clean-up is not idempotent either: `1 234 567` cleans to `1234 567`, which
   * cleans to `1234567`.
   */
  lemma CleanNotIdempotent(s: string, once: string)
    requires s == "1 234 567" && once == "1234 567"
    ensures Clean(s) == once && Clean(Clean(s)) == "1234567" != once
  {
    JoinThousandsNotIdempotent(s, once);
    NoLineFeeds(s, once);
    CleanInTwo(s);
    CleanInTwo(once);
    InertUnchanged(BlankLines, s);
    InertUnchanged(BlankLines, once);
    OnceSurvivesTail(once);
    TwiceSurvivesTail("1234567");
  }

  /** `Clean` as line 17, line 19 and then the rest. */
  lemma CleanInTwo(s: string)
    ensures Clean(s) == CleanAfterThousands(JoinThousands(CollapseBlankLines(s)))
  {
  }

  lemma NoLineFeeds(s: string, once: string)
    requires s == "1 234 567" && once == "1234 567"
    ensures Lacks(s, IsLineFeed) && Lacks(once, IsLineFeed)
  {
  }

  lemma OnceSurvivesTail(once: string)
    requires once == "1234 567"
    ensures CleanAfterThousands(once) == once
  {
    assert IsDigit(once[0]) && IsDigit(once[1]) && IsDigit(once[2]) && IsDigit(once[3]);
    assert IsSpace(once[4]) && IsDigit(once[5]) && IsDigit(once[6]) && IsDigit(once[7]);
    GroupOfThreeSurvivesTail(once, 4, 5);
  }

  lemma TwiceSurvivesTail(twice: string)
    requires twice == "1234567"
    ensures CleanAfterThousands(twice) == twice
  {
    assert All(twice, IsDigit);
    DigitRunSurvivesTail(twice);
  }

  /** The instance `11 200`: the whole clean-up gives `11200`. */
  lemma CleanJoinsElevenThousandTwoHundred(s: string)
    requires s == "11 200"
    ensures Clean(s) == "11200"
  {
    ElevenThousandTwoHundredPieces(s, "11", " ", "200");
    CleanJoinsThousands("11", " ", "200");
  }

  lemma ElevenThousandTwoHundredPieces(s: string, d: string, w: string, g: string)
    requires s == "11 200" && d == "11" && w == " " && g == "200"
    ensures s == d + w + g && d + g == "11200"
    ensures All(d, IsDigit) && All(w, IsSpace) && Lacks(w, IsLineFeed) && All(g, IsDigit)
  {
  }

  /** Line 33 needs a line start: without line terminators only a start at position 0 can match. */
  lemma StrayNeedsLineStart(s: string)
    requires forall k :: 0 <= k < |s| ==> !IsLineTerminator(s[k])
    requires s != [] ==> !IsSpace(s[0]) && !IsStrayPunctuation(s[0])
    ensures DropStrayPunctuation(s) == s
  {
    if s != [] {
      RunEndAt(s, 0, 0, IsSpace);
    }
    forall k | 0 <= k < |s| ensures MatchStrayPunctuation(s, k).None? {
    }
    NoMatchUnchanged(MatchStrayPunctuation, s, 0);
    assert s[0..] == s;
  }

  /** Lines 19 and 21 find no split in digits, spaces, `.`, spaces, digits. */
  lemma NoSplitAroundDot(s: string, a: nat, b: nat, c: nat, n: nat)
    requires 0 < a <= b < c <= |s| && s[b] == '.' && n > 0
    requires forall k :: 0 <= k < a ==> IsDigit(s[k])
    requires forall k :: a <= k < b ==> IsSpace(s[k])
    requires forall k :: b < k < c ==> IsSpace(s[k])
    requires forall k :: c <= k < |s| ==> IsDigit(s[k])
    ensures forall k :: 0 <= k < |s| ==> MatchDigitSplit(s, k, n).None?
  {
    RunEndAt(s, a, b, IsSpace);
    RunEndAt(s, b, b, IsDigit);
    forall k | 0 <= k < a ensures MatchDigitSplit(s, k, n).None? {
      RunEndAt(s, k, a, IsDigit);
    }
    NoSplitInTail(s, b + 1, c, n);
  }

  /** So lines 19 and 21 leave such a text alone. */
  lemma SplitRulesSkipDot(s: string, a: nat, b: nat, c: nat)
    requires 0 < a <= b < c <= |s| && s[b] == '.'
    requires forall k :: 0 <= k < a ==> IsDigit(s[k])
    requires forall k :: a <= k < b ==> IsSpace(s[k])
    requires forall k :: b < k < c ==> IsSpace(s[k])
    requires forall k :: c <= k < |s| ==> IsDigit(s[k])
    ensures JoinHundreds(JoinThousands(s)) == s
  {
    NoSplitAroundDot(s, a, b, c, 3);
    NoMatchUnchanged(MatchThousands, s, 0);
    NoSplitAroundDot(s, a, b, c, 2);
    NoMatchUnchanged(MatchHundreds, s, 0);
    assert s[0..] == s;
  }

  /** A decimal number `<digits>.<digits>` passes lines 25-35 unchanged. */
  lemma DecimalSurvivesTail(s: string, a: nat)
    requires 0 < a < |s| - 1 && s[a] == '.'
    requires forall k :: 0 <= k < |s| && k != a ==> IsDigit(s[k])
    ensures CleanAfterDecimalPoint(s) == s
  {
    assert forall k :: 0 <= k < |s| ==> IsDigit(s[k]) || s[k] == '.';
    assert Lacks(s, IsSlash) && Lacks(s, IsPercent);
    InertUnchanged(GramPerDecilitre, s);
    InertUnchanged(MilligramPerDecilitre, s);
    InertUnchanged(PerMicrolitre, s);
    InertUnchanged(PercentSpacing, s);
    StrayNeedsLineStart(s);
    TrimKeepsTrimmed(s);
  }

  /** `Clean` as lines 17-21, line 23 and then the rest. */
  lemma CleanAroundDecimalPoint(s: string)
    ensures Clean(s) == CleanAfterDecimalPoint(JoinDecimalPoint(JoinHundreds(JoinThousands(CollapseBlankLines(s)))))
  {
  }

  /**
   * The whole clean-up on a decimal number with whitespace around its point, such as
   * `14 . 5`: the number comes out as `14.5`.
   */
  lemma CleanJoinsDecimalPoint(d1: string, w1: string, w2: string, d2: string)
    requires d1 != [] && All(d1, IsDigit) && d2 != [] && All(d2, IsDigit)
    requires All(w1, IsSpace) && All(w2, IsSpace) && Lacks(w1, IsLineFeed) && Lacks(w2, IsLineFeed)
    ensures Clean(d1 + w1 + "." + w2 + d2) == d1 + "." + d2
  {
    var s := d1 + w1 + "." + w2 + d2;
    FivePieces(d1, w1, ".", w2, d2);
    var b := |d1| + |w1|;
    DecimalPiecesLackLineFeed(s, |d1|, b, b + 1 + |w2|);
    InertUnchanged(BlankLines, s);
    SplitRulesSkipDot(s, |d1|, b, b + 1 + |w2|);
    JoinDecimalPointWhole(d1, w1, w2, d2);
    DottedNumber(d1, d2);
    DecimalSurvivesTail(d1 + "." + d2, |d1|);
    CleanAroundDecimalPoint(s);
  }

  lemma DecimalPiecesLackLineFeed(s: string, a: nat, b: nat, c: nat)
    requires a <= b < c <= |s| && s[b] == '.'
    requires forall k :: 0 <= k < a ==> IsDigit(s[k])
    requires forall k :: a <= k < b ==> !IsLineFeed(s[k])
    requires forall k :: b < k < c ==> !IsLineFeed(s[k])
    requires forall k :: c <= k < |s| ==> IsDigit(s[k])
    ensures Lacks(s, IsLineFeed)
  {
  }

  lemma DottedNumber(d1: string, d2: string)
    requires d1 != [] && All(d1, IsDigit) && d2 != [] && All(d2, IsDigit)
    ensures var t := d1 + "." + d2; t[|d1|] == '.' && forall k :: 0 <= k < |t| && k != |d1| ==> IsDigit(t[k])
  {
    var t := d1 + "." + d2;
    assert forall k :: 0 <= k < |d1| ==> t[k] == d1[k];
    assert forall k :: |d1| < k < |t| ==> t[k] == d2[k - |d1| - 1];
  }

  /** The instance `14 . 5`: the whole clean-up gives `14.5`. */
  lemma CleanJoinsFourteenPointFive(s: string)
    requires s == "14 . 5"
    ensures Clean(s) == "14.5"
  {
    FourteenPointFivePieces(s, "14", " ", "5");
    CleanJoinsDecimalPoint("14", " ", " ", "5");
  }

  lemma FourteenPointFivePieces(s: string, d1: string, w: string, d2: string)
    requires s == "14 . 5" && d1 == "14" && w == " " && d2 == "5"
    ensures s == d1 + w + "." + w + d2 && d1 + "." + d2 == "14.5"
    ensures All(d1, IsDigit) && All(w, IsSpace) && Lacks(w, IsLineFeed) && All(d2, IsDigit)
  {
  }

  /** The instances `g / dL`, `mg / DL` and `/ uL` of lines 25, 27 and 29. */
  lemma CompactsUnitExamples(g: string, mg: string, ul: string)
    requires g == "g / dL" && mg == "mg / DL" && ul == "/ uL"
    ensures CompactGramPerDecilitre(g) == "g/dL"
    ensures CompactMilligramPerDecilitre(mg) == "mg/dL"
    ensures CompactPerMicrolitre(ul) == "/uL"
  {
    UnitPieces(g, mg, ul, " ");
    CompactGramPerDecilitreWhole("g", " ", " ", "dL");
    CompactMilligramPerDecilitreWhole("mg", " ", " ", "DL");
    CompactPerMicrolitreWhole("", 'u', 'L');
  }

  lemma UnitPieces(g: string, mg: string, ul: string, w: string)
    requires g == "g / dL" && mg == "mg / DL" && ul == "/ uL" && w == " "
    ensures g == "g" + w + "/" + w + "dL" && mg == "mg" + w + "/" + w + "DL" && ul == "/ " + "" + ['u', 'L']
    ensures FoldedAt("g", 0, "g") && FoldedAt("mg", 0, "mg")
    ensures FoldedAt("dL", 0, "dl") && FoldedAt("DL", 0, "dl") && Fold('u') == 'u' && Fold('L') == 'l'
    ensures All(w, IsSpace) && All("", IsSpace)
  {
  }

  /** The instance `/uL`: with no space after the slash, line 29 leaves it alone. */
  lemma KeepsTightMicrolitre(s: string)
    requires s == "/uL"
    ensures CompactPerMicrolitre(s) == s
  {
    assert s[1] != ' ';
    PerMicrolitreNeedsSpace(s);
  }
}
