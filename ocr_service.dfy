/**
 * The text clean-up that `extractTextFromBuffer` applies to the OCR engine's output:
 * nine global regular-expression replacements in a fixed order, then `trim()`.
 *
 * Each regular expression is modelled by a matcher `Pattern(rule)`: given the whole string
 * `s` and a position `i`, the match that a
 * backtracking matcher finds when it starts at position `i` of the whole string `s`
 * (greedy quantifiers, lookahead and `^` look at `s` itself, not at the text produced so
 * far), together with the replacement text. `ReplaceFrom` is `String.prototype.replace`
 * with the `g` flag: matches are tried leftmost first, a failed attempt moves on by one
 * position, and scanning resumes at the end of each match, so that matches never overlap.
 * None of the nine patterns can match the empty string.
 */
module OcrService {
  import opened Wrappers
  import opened Text

  /** The nine replacements, in the order the source chains them. */
  datatype Rule =
    | BlankLines        // /\n\s*\n/g            -> "\n"
    | ThousandsSplit    // /(\d+)\s+(\d{3})(?!\d)/g -> "$1$2"
    | HundredsSplit     // /(\d+)\s+(\d{2})(?!\d)/g -> "$1$2"
    | DecimalPoint      // /(\d+)\s*\.\s*(\d+)/g  -> "$1.$2"
    | GramPerDecilitre  // /g\s*\/\s*dL/gi       -> "g/dL"
    | MilligramPerDecilitre // /mg\s*\/\s*dL/gi  -> "mg/dL"
    | PerMicrolitre     // /\/ \s*uL/gi          -> "/uL"
    | PercentSpacing    // /%\s*/g               -> "%"
    | StrayPunctuation  // /^\s*[\.,-]\s*$/gm    -> ""

  /** A match: where it ends (exclusive) and the text that replaces it. */
  datatype Hit = Hit(end: nat, text: string)

  /** The end of the longest run of characters satisfying `p` that starts at `i`. */
  function RunEnd(s: string, i: nat, p: char -> bool): (j: nat)
    requires i <= |s|
    ensures i <= j <= |s|
    ensures forall k :: i <= k < j ==> p(s[k])
    ensures j == |s| || !p(s[j])
    decreases |s| - i
  {
    if i < |s| && p(s[i]) then RunEnd(s, i + 1, p) else i
  }

  /** The last index in `[lo, hi)` whose character satisfies `p`, if there is one. */
  function LastIndex(s: string, lo: nat, hi: nat, p: char -> bool): (r: Option<nat>)
    requires lo <= hi <= |s|
    ensures r.Some? ==> lo <= r.value < hi && p(s[r.value])
    ensures r.Some? ==> forall k :: r.value < k < hi ==> !p(s[k])
    ensures r.None? ==> forall k :: lo <= k < hi ==> !p(s[k])
    decreases hi - lo
  {
    if hi == lo then None
    else if p(s[hi - 1]) then Some(hi - 1)
    else LastIndex(s, lo, hi - 1, p)
  }

  /** The pattern's letters `w` (lower case) occur at `i`, compared case-insensitively. */
  predicate FoldedAt(s: string, i: nat, w: string) {
    i + |w| <= |s| && forall k :: 0 <= k < |w| ==> Fold(s[i + k]) == w[k]
  }

  /** `\n\s*\n`: `\s*` backtracks to the last line feed of the whitespace run after the first. */
  function MatchBlankLines(s: string, i: nat): (m: Option<Hit>)
    ensures m.Some? ==> i < m.value.end <= |s|
    ensures m.Some? <==> i < |s| && s[i] == '\n' && LastIndex(s, i + 1, RunEnd(s, i + 1, IsSpace), IsLineFeed).Some?
  {
    if i >= |s| || s[i] != '\n' then None
    else
      match LastIndex(s, i + 1, RunEnd(s, i + 1, IsSpace), IsLineFeed)
      case None => None
      case Some(k) => Some(Hit(k + 1, "\n"))
  }

  /**
   * `(\d+)\s+(\d{n})(?!\d)`: neither `\d+` nor `\s+` can give anything back (the character
   * after a shorter run would be a digit or a space where the next item needs the other), so
   * the match exists exactly when the digit run after the spaces is `n` digits long.
   */
  function MatchDigitSplit(s: string, i: nat, n: nat): (m: Option<Hit>)
    ensures m.Some? ==> i < m.value.end <= |s|
  {
    if i >= |s| || !IsDigit(s[i]) then None
    else
      var a := RunEnd(s, i, IsDigit);
      var b := RunEnd(s, a, IsSpace);
      var c := RunEnd(s, b, IsDigit);
      if a < b && c == b + n then Some(Hit(c, s[i..a] + s[b..c])) else None
  }

  /** `(\d+)\s*\.\s*(\d+)`: both digit runs and both space runs are taken whole. */
  function MatchDecimalPoint(s: string, i: nat): (m: Option<Hit>)
    ensures m.Some? ==> i < m.value.end <= |s|
  {
    if i >= |s| || !IsDigit(s[i]) then None
    else
      var a := RunEnd(s, i, IsDigit);
      var b := RunEnd(s, a, IsSpace);
      if b == |s| || s[b] != '.' then None
      else
        var c := RunEnd(s, b + 1, IsSpace);
        var d := RunEnd(s, c, IsDigit);
        if c < d then Some(Hit(d, s[i..a] + "." + s[c..d])) else None
  }

  /** `<head>\s*\/\s*dL` with the `i` flag, replaced by `out`. */
  function MatchPerDecilitre(s: string, i: nat, head: string, out: string): (m: Option<Hit>)
    requires |head| > 0
    ensures m.Some? ==> i < m.value.end <= |s|
    ensures m.Some? ==> m.value.text == out && FoldedAt(s, i, head)
  {
    if !FoldedAt(s, i, head) then None
    else
      var a := RunEnd(s, i + |head|, IsSpace);
      if a == |s| || s[a] != '/' then None
      else
        var b := RunEnd(s, a + 1, IsSpace);
        if FoldedAt(s, b, "dl") then Some(Hit(b + 2, out)) else None
  }

  /** `\/ \s*uL` with the `i` flag: the space right after the slash is mandatory. */
  function MatchPerMicrolitre(s: string, i: nat): (m: Option<Hit>)
    ensures m.Some? ==> i < m.value.end <= |s|
    ensures m.Some? ==> i + 1 < |s| && s[i] == '/' && s[i + 1] == ' '
  {
    if !(i + 1 < |s| && s[i] == '/' && s[i + 1] == ' ') then None
    else
      var a := RunEnd(s, i + 2, IsSpace);
      if FoldedAt(s, a, "ul") then Some(Hit(a + 2, "/uL")) else None
  }

  /** `%\s*`: every percent sign matches, together with the whole space run after it. */
  function MatchPercent(s: string, i: nat): (m: Option<Hit>)
    ensures m.Some? <==> i < |s| && s[i] == '%'
    ensures m.Some? ==> m.value == Hit(RunEnd(s, i + 1, IsSpace), "%")
  {
    if i < |s| && s[i] == '%' then Some(Hit(RunEnd(s, i + 1, IsSpace), "%")) else None
  }

  /**
   * `^\s*[\.,-]\s*$` in multiline mode: `^` holds at the start or after a line terminator;
   * the first `\s*` is taken whole (it may cross line breaks); the second `\s*` backtracks to
   * the last place where `$` holds: the end of the string, or a line terminator.
   */
  function MatchStrayPunctuation(s: string, i: nat): (m: Option<Hit>)
    ensures m.Some? ==> i < m.value.end <= |s| && m.value.text == ""
    ensures m.Some? ==> i == 0 || (i <= |s| && IsLineTerminator(s[i - 1]))
  {
    if i >= |s| || !(i == 0 || IsLineTerminator(s[i - 1])) then None
    else
      var a := RunEnd(s, i, IsSpace);
      if a == |s| || !IsStrayPunctuation(s[a]) then None
      else
        var b := RunEnd(s, a + 1, IsSpace);
        if b == |s| then Some(Hit(b, ""))
        else
          match LastIndex(s, a + 1, b, IsLineTerminator)
          case None => None
          case Some(c) => Some(Hit(c, ""))
  }

  function MatchThousands(s: string, i: nat): (m: Option<Hit>)
    ensures m.Some? ==> i < m.value.end <= |s|
  {
    MatchDigitSplit(s, i, 3)
  }

  function MatchHundreds(s: string, i: nat): (m: Option<Hit>)
    ensures m.Some? ==> i < m.value.end <= |s|
  {
    MatchDigitSplit(s, i, 2)
  }

  function MatchGramPerDecilitre(s: string, i: nat): (m: Option<Hit>)
    ensures m.Some? ==> i < m.value.end <= |s|
  {
    MatchPerDecilitre(s, i, "g", "g/dL")
  }

  function MatchMilligramPerDecilitre(s: string, i: nat): (m: Option<Hit>)
    ensures m.Some? ==> i < m.value.end <= |s|
  {
    MatchPerDecilitre(s, i, "mg", "mg/dL")
  }

  /** Every match is non-empty and lies within the string. */
  ghost predicate Advances(m: (string, nat) -> Option<Hit>) {
    forall s: string, i: nat :: m(s, i).Some? ==> i < m(s, i).value.end <= |s|
  }

  /** The matcher of each rule. */
  function Pattern(rule: Rule): (m: (string, nat) -> Option<Hit>)
    ensures Advances(m)
  {
    match rule
    case BlankLines => MatchBlankLines
    case ThousandsSplit => MatchThousands
    case HundredsSplit => MatchHundreds
    case DecimalPoint => MatchDecimalPoint
    case GramPerDecilitre => MatchGramPerDecilitre
    case MilligramPerDecilitre => MatchMilligramPerDecilitre
    case PerMicrolitre => MatchPerMicrolitre
    case PercentSpacing => MatchPercent
    case StrayPunctuation => MatchStrayPunctuation
  }

  /** Global replacement with the matcher `m` in `s`, scanning from position `i`. */
  function ReplaceFrom(m: (string, nat) -> Option<Hit>, s: string, i: nat): string
    requires Advances(m) && i <= |s|
    decreases |s| - i
  {
    if i == |s| then []
    else
      match m(s, i)
      case Some(h) => h.text + ReplaceFrom(m, s, h.end)
      case None => [s[i]] + ReplaceFrom(m, s, i + 1)
  }

  function ReplaceAll(rule: Rule, s: string): string {
    ReplaceFrom(Pattern(rule), s, 0)
  }

  /** Line 17: collapse a line feed, whitespace and a line feed into one line feed. */
  function CollapseBlankLines(s: string): string { ReplaceAll(BlankLines, s) }

  /** Line 19: join a digit run and a following three-digit group split by whitespace. */
  function JoinThousands(s: string): string { ReplaceAll(ThousandsSplit, s) }

  /** Line 21: the same for a two-digit group. */
  function JoinHundreds(s: string): string { ReplaceAll(HundredsSplit, s) }

  /** Line 23: remove whitespace on either side of a decimal point between digit runs. */
  function JoinDecimalPoint(s: string): string { ReplaceAll(DecimalPoint, s) }

  /** Line 25: compact `g / dL` to `g/dL`, case-insensitively. */
  function CompactGramPerDecilitre(s: string): string { ReplaceAll(GramPerDecilitre, s) }

  /** Line 27: compact `mg / dL` to `mg/dL`, case-insensitively. */
  function CompactMilligramPerDecilitre(s: string): string { ReplaceAll(MilligramPerDecilitre, s) }

  /** Line 29: compact `/ uL` to `/uL`, case-insensitively. */
  function CompactPerMicrolitre(s: string): string { ReplaceAll(PerMicrolitre, s) }

  /** Line 31: remove whitespace after a percent sign. */
  function TightenPercent(s: string): string { ReplaceAll(PercentSpacing, s) }

  /** Line 33: delete a `.`, `,` or `-` that stands alone on its line, with its whitespace. */
  function DropStrayPunctuation(s: string): string { ReplaceAll(StrayPunctuation, s) }

  /** The end of the text once trailing whitespace is removed, no lower than `lo`. */
  function TrimmedEnd(s: string, lo: nat): (j: nat)
    requires lo <= |s|
    ensures lo <= j <= |s|
    ensures forall k :: j <= k < |s| ==> IsSpace(s[k])
    ensures j == lo || !IsSpace(s[j - 1])
    decreases |s| - lo
  {
    if |s| == lo || !IsSpace(s[|s| - 1]) then |s| else TrimmedEnd(s[..|s| - 1], lo)
  }

  /** Line 35: `String.prototype.trim`. */
  function Trim(s: string): (r: string)
    ensures r == "" || (!IsSpace(r[0]) && !IsSpace(r[|r| - 1]))
    ensures exists i :: (0 <= i <= |s| - |r| && r == s[i..i + |r|]
                         && All(s[..i], IsSpace) && All(s[i + |r|..], IsSpace))
  {
    var i := RunEnd(s, 0, IsSpace);
    var j := TrimmedEnd(s, i);
    assert s[i..j] == s[i..i + (j - i)];
    assert All(s[..i], IsSpace);
    s[i..j]
  }

  /** Lines 15-35: the whole clean-up chain. */
  function Clean(s: string): string {
    Trim(
      DropStrayPunctuation(
        TightenPercent(
          CompactPerMicrolitre(
            CompactMilligramPerDecilitre(
              CompactGramPerDecilitre(
                JoinDecimalPoint(
                  JoinHundreds(
                    JoinThousands(
                      CollapseBlankLines(s))))))))))
  }

  const OcrFailureMessage := "Failed to extract text from image."

  /**
   * `extractTextFromBuffer`: `recognize` stands for `Tesseract.recognize(buffer, 'eng')`,
   * giving the recognised text or `None` when it throws; any failure is re-thrown with a
   * fixed message.
   */
  function ExtractTextFromBuffer(buffer: seq<bv8>, recognize: seq<bv8> -> Option<string>): (r: Result<string>)
    ensures recognize(buffer).None? <==> r == Err(OcrFailureMessage)
    ensures recognize(buffer).Some? ==> r == Ok(Clean(recognize(buffer).value))
  {
    match recognize(buffer)
    case None => Err(OcrFailureMessage)
    case Some(text) => Ok(Clean(text))
  }
}
