/**
 * The character classes and token languages of the hawk recogniser, as pure
 * functions on the input text. The scanning methods of `Parser.Tokens` are
 * proved to move the cursor exactly as these functions say.
 *
 * The input is taken to be ASCII, so positions count characters and bytes alike.
 */
module Lexical {

  /** The ASCII whitespace characters: space, tab, line feed, vertical tab, form feed, carriage return. */
  predicate IsWhitespace(c: char) {
    c == ' ' || c == '\t' || c == '\n' || c == '\U{000B}' || c == '\U{000C}' || c == '\r'
  }

  predicate IsLetter(c: char) {
    'a' <= c <= 'z' || 'A' <= c <= 'Z'
  }

  predicate IsDigit(c: char) {
    '0' <= c <= '9'
  }

  /** A character that may begin an identifier. */
  predicate IsIdentStart(c: char) {
    IsLetter(c) || c == '_'
  }

  /** A character that may continue an identifier. */
  predicate IsIdentChar(c: char) {
    IsIdentStart(c) || IsDigit(c)
  }

  /** The character classes a scanner skips over in a run. */
  datatype CharClass = Space | Digit | Word

  predicate InClass(c: char, k: CharClass) {
    match k
    case Space => IsWhitespace(c)
    case Digit => IsDigit(c)
    case Word => IsIdentChar(c)
  }

  /** The words that can never be identifiers. */
  const Keywords: set<string> :=
    {"program", "begin", "end", "if", "then", "else", "while", "loop",
     "input", "output", "int", "float", "double"}

  /** The number of line feeds among the first `i` characters of `s`. */
  function LineBreaks(s: string, i: nat): nat
    requires i <= |s|
  {
    if i == 0 then 0 else LineBreaks(s, i - 1) + (if s[i - 1] == '\n' then 1 else 0)
  }

  /** `LineBreaks` is the number of occurrences of '\n' in the prefix of length `i`. */
  lemma {:induction false} LineBreaksCount(s: string, i: nat)
    requires i <= |s|
    ensures LineBreaks(s, i) == multiset(s[..i])['\n']
    decreases i
  {
    if i == 0 {
      assert s[..i] == [];
    } else {
      LineBreaksCount(s, i - 1);
      assert s[..i] == s[..i - 1] + [s[i - 1]];
    }
  }

  /** Passing over characters none of which is a line feed adds no line. */
  lemma {:induction false} LineBreaksNone(s: string, i: nat, j: nat)
    requires i <= j <= |s|
    requires forall k :: i <= k < j ==> s[k] != '\n'
    ensures LineBreaks(s, j) == LineBreaks(s, i)
    decreases j - i
  {
    if i < j {
      LineBreaksNone(s, i, j - 1);
    }
  }

  /** The line count never decreases as the cursor moves forward. */
  lemma {:induction false} LineBreaksMonotone(s: string, i: nat, j: nat)
    requires i <= j <= |s|
    ensures LineBreaks(s, i) <= LineBreaks(s, j)
    decreases j - i
  {
    if i < j {
      LineBreaksMonotone(s, i, j - 1);
    }
  }

  /** Passing over a literal without a line feed adds no line. */
  lemma LineBreaksLiteral(s: string, i: nat, q: string)
    requires i + |q| <= |s| && s[i..i + |q|] == q && '\n' !in q
    ensures LineBreaks(s, i + |q|) == LineBreaks(s, i)
  {
    forall k | i <= k < i + |q| ensures s[k] != '\n' {
      assert s[k] == q[k - i];
    }
    LineBreaksNone(s, i, i + |q|);
  }

  /** The end of the longest run of characters of class `p` that starts at `i`. */
  function RunEnd(s: string, i: nat, p: CharClass): (j: nat)
    requires i <= |s|
    ensures i <= j <= |s|
    ensures j == |s| || !InClass(s[j], p)
    decreases |s| - i
  {
    if i < |s| && InClass(s[i], p) then RunEnd(s, i + 1, p) else i
  }

  /** Every character of the run is of class `p`. */
  lemma {:induction false} RunEndInClass(s: string, i: nat, p: CharClass)
    requires i <= |s|
    ensures forall k :: i <= k < RunEnd(s, i, p) ==> InClass(s[k], p)
    decreases |s| - i
  {
    if i < |s| && InClass(s[i], p) {
      RunEndInClass(s, i + 1, p);
    }
  }

  /** A run is longest: every run of class `p` characters from `i` ends no later than `RunEnd`. */
  lemma {:induction false} RunEndLongest(s: string, i: nat, j: nat, p: CharClass)
    requires i <= j <= |s|
    requires forall k :: i <= k < j ==> InClass(s[k], p)
    ensures j <= RunEnd(s, i, p)
    decreases j - i
  {
    if i < j {
      RunEndLongest(s, i + 1, j, p);
    }
  }

  /** A run of class `p` from `i` that cannot be extended past `j` ends at `j`. */
  lemma {:induction false} RunEndExact(s: string, i: nat, j: nat, p: CharClass)
    requires i <= j <= |s|
    requires forall k :: i <= k < j ==> InClass(s[k], p)
    requires j == |s| || !InClass(s[j], p)
    ensures RunEnd(s, i, p) == j
    decreases j - i
  {
    if i < j {
      RunEndExact(s, i + 1, j, p);
    }
  }

  /** Where whitespace skipping starting at `i` stops. */
  function WhitespaceEnd(s: string, i: nat): (j: nat)
    requires i <= |s|
    ensures i <= j <= |s| && (j == |s| || !IsWhitespace(s[j]))
  {
    RunEnd(s, i, Space)
  }

  /** Skipping whitespace a second time moves nowhere. */
  lemma WhitespaceEndIdempotent(s: string, i: nat)
    requires i <= |s|
    ensures WhitespaceEnd(s, WhitespaceEnd(s, i)) == WhitespaceEnd(s, i)
  {
  }

  /** The literal `q` occurs at position `i` of `s`; false when fewer than |q| characters remain. */
  predicate LiteralAt(s: string, i: nat, q: string) {
    i + |q| <= |s| && s[i..i + |q|] == q
  }

  /** The identifier token: a letter or '_' followed by letters, digits and '_'. */
  predicate IsIdentifier(w: string) {
    |w| > 0 && IsIdentStart(w[0]) && forall k :: 1 <= k < |w| ==> IsIdentChar(w[k])
  }

  /** Where identifier scanning starting at `i` stops; `i` itself when no identifier starts there. */
  function IdentEnd(s: string, i: nat): (j: nat)
    requires i <= |s|
    ensures i <= j <= |s|
    ensures j > i <==> i < |s| && IsIdentStart(s[i])
    ensures j > i ==> IsIdentifier(s[i..j])
    ensures j > i ==> j == |s| || !IsIdentChar(s[j])
  {
    if i < |s| && IsIdentStart(s[i]) then
      var e := RunEnd(s, i + 1, Word);
      RunEndInClass(s, i + 1, Word);
      assert forall k :: 1 <= k < e - i ==> s[i..e][k] == s[i + k];
      e
    else
      i
  }

  /** An identifier from `i` that cannot be extended past `j` ends at `j`. */
  lemma IdentEndExact(s: string, i: nat, j: nat)
    requires i < j <= |s| && IsIdentStart(s[i])
    requires forall k :: i < k < j ==> IsIdentChar(s[k])
    requires j == |s| || !IsIdentChar(s[j])
    ensures IdentEnd(s, i) == j
  {
    RunEndExact(s, i + 1, j, Word);
  }

  /** The identifier the scanner reads from `i`: whitespace is skipped, then the longest identifier taken. */
  function IdentifierAt(s: string, i: nat): (w: string)
    requires i <= |s|
    ensures w != [] <==> WhitespaceEnd(s, i) < |s| && IsIdentStart(s[WhitespaceEnd(s, i)])
    ensures w != [] ==> IsIdentifier(w)
  {
    s[WhitespaceEnd(s, i)..IdentEnd(s, WhitespaceEnd(s, i))]
  }

  /** The scanned identifier is the longest one: no identifier starting at `i` reaches past it. */
  lemma IdentEndLongest(s: string, i: nat, j: nat)
    requires i <= j <= |s|
    requires IsIdentifier(s[i..j])
    ensures j <= IdentEnd(s, i)
  {
    assert s[i..j][0] == s[i];
    forall k | i + 1 <= k < j ensures IsIdentChar(s[k]) {
      assert s[i..j][k - i] == s[k];
    }
    RunEndLongest(s, i + 1, j, Word);
  }

  predicate AllDigits(w: string) {
    forall k :: 0 <= k < |w| ==> IsDigit(w[k])
  }

  /** What the number scanner may consume: digits, then at most one '.' followed by digits. */
  predicate IsNumberShape(w: string) {
    AllDigits(w) ||
    exists k :: 0 <= k < |w| && w[k] == '.' && AllDigits(w[..k]) && AllDigits(w[k + 1..])
  }

  /**
   * The numbers the scanner accepts: at least one digit, or digits, a '.', and at
   * least one digit after it (so "12.5" and ".5", but neither "12." nor ".").
   */
  predicate IsNumeral(w: string) {
    (|w| > 0 && AllDigits(w)) ||
    exists k :: 0 <= k < |w| - 1 && w[k] == '.' && AllDigits(w[..k]) && AllDigits(w[k + 1..])
  }

  /** Where a number scan stops, and whether it saw a digit after the last '.' it consumed. */
  datatype NumScan = NumScan(end: nat, accepted: bool)

  /** The number scan starting at `i`: a digit run, then a '.' and a second digit run if a '.' follows. */
  function ScanNumber(s: string, i: nat): (n: NumScan)
    requires i <= |s|
    ensures i <= n.end <= |s|
  {
    var dot := RunEnd(s, i, Digit);
    if dot < |s| && s[dot] == '.' then
      var end := RunEnd(s, dot + 1, Digit);
      NumScan(end, end > dot + 1)
    else
      NumScan(dot, dot > i)
  }

  lemma AllDigitsSlice(s: string, i: nat, j: nat)
    requires i <= j <= |s|
    ensures AllDigits(s[i..j]) <==> forall k :: i <= k < j ==> IsDigit(s[k])
  {
    if AllDigits(s[i..j]) {
      forall k | i <= k < j ensures IsDigit(s[k]) {
        assert s[i..j][k - i] == s[k];
      }
    }
  }

  /** What the scan consumes always has the number shape. */
  lemma ScanNumberShape(s: string, i: nat)
    requires i <= |s|
    ensures IsNumberShape(s[i..ScanNumber(s, i).end])
  {
    var dot := RunEnd(s, i, Digit);
    var n := ScanNumber(s, i);
    var w := s[i..n.end];
    RunEndInClass(s, i, Digit);
    AllDigitsSlice(s, i, dot);
    if dot < |s| && s[dot] == '.' {
      RunEndInClass(s, dot + 1, Digit);
      AllDigitsSlice(s, dot + 1, n.end);
      assert w[..dot - i] == s[i..dot];
      assert w[dot - i + 1..] == s[dot + 1..n.end];
      assert w[dot - i] == '.';
    }
  }

  /** The scan is greedy: no prefix of the number shape starting at `i` extends past where it stops. */
  lemma ScanNumberLongest(s: string, i: nat, j: nat)
    requires i <= j <= |s|
    requires IsNumberShape(s[i..j])
    ensures j <= ScanNumber(s, i).end
  {
    var v := s[i..j];
    if AllDigits(v) {
      DigitsLongest(s, i, j);
    } else {
      var k :| 0 <= k < |v| && v[k] == '.' && AllDigits(v[..k]) && AllDigits(v[k + 1..]);
      DottedShapeLongest(s, i, j, k);
    }
  }

  /** A run of digits from `i` to `j` is consumed in full. */
  lemma DigitsLongest(s: string, i: nat, j: nat)
    requires i <= j <= |s| && AllDigits(s[i..j])
    ensures j <= RunEnd(s, i, Digit)
  {
    var v := s[i..j];
    forall m | i <= m < j ensures InClass(s[m], Digit) {
      assert v[m - i] == s[m];
    }
    RunEndLongest(s, i, j, Digit);
  }

  /** The number shape from `i` to `j` with its '.' at offset `k` is consumed in full. */
  lemma DottedShapeLongest(s: string, i: nat, j: nat, k: nat)
    requires i + k < j <= |s| && s[i + k] == '.'
    requires AllDigits(s[i..j][..k]) && AllDigits(s[i..j][k + 1..])
    ensures j <= ScanNumber(s, i).end
  {
    var head, tail := s[i..j][..k], s[i..j][k + 1..];
    forall m | i <= m < i + k ensures IsDigit(s[m]) {
      assert head[m - i] == s[m];
    }
    forall m | i + k < m < j ensures IsDigit(s[m]) {
      assert tail[m - i - k - 1] == s[m];
    }
    DottedLongest(s, i, i + k, j);
  }

  /** A digit run, a '.' at `d` and a digit run up to `j`: the scan reaches at least `j`. */
  lemma DottedLongest(s: string, i: nat, d: nat, j: nat)
    requires i <= d < j <= |s| && s[d] == '.'
    requires forall m :: i <= m < d ==> IsDigit(s[m])
    requires forall m :: d < m < j ==> IsDigit(s[m])
    ensures j <= ScanNumber(s, i).end
  {
    RunEndLongest(s, i, d, Digit);
    RunEndInClass(s, i, Digit);
    assert RunEnd(s, i, Digit) == d;
    RunEndLongest(s, d + 1, j, Digit);
  }

  /** The scan accepts exactly when what it consumed is a numeral. */
  lemma ScanNumberAccepted(s: string, i: nat)
    requires i <= |s|
    ensures ScanNumber(s, i).accepted <==> IsNumeral(s[i..ScanNumber(s, i).end])
  {
    var dot := RunEnd(s, i, Digit);
    RunEndInClass(s, i, Digit);
    if dot < |s| && s[dot] == '.' {
      DottedAccepted(s, i, dot);
    } else {
      var w := s[i..dot];
      AllDigitsSlice(s, i, dot);
      assert forall m :: 0 <= m < |w| ==> w[m] == s[i + m];
    }
  }

  /** After a digit run ending in a '.' at `dot`, the scan accepts exactly when a digit follows. */
  lemma DottedAccepted(s: string, i: nat, dot: nat)
    requires i <= dot < |s| && s[dot] == '.'
    requires forall m :: i <= m < dot ==> IsDigit(s[m])
    ensures var end := RunEnd(s, dot + 1, Digit); end > dot + 1 <==> IsNumeral(s[i..end])
  {
    var end := RunEnd(s, dot + 1, Digit);
    RunEndInClass(s, dot + 1, Digit);
    var w := s[i..end];
    var d := dot - i;
    assert w[d] == '.';
    assert forall m :: 0 <= m < d ==> w[m] == s[i + m];
    if end > dot + 1 {
      forall m | 0 <= m < |w| && m != d ensures IsDigit(w[m]) {
        assert w[m] == s[i + m];
      }
      NumeralWitness(w, d);
    }
    if IsNumeral(w) {
      NumeralDot(w, d);
    }
  }

  /** A '.' with a digit after it, and only digits elsewhere, makes a numeral. */
  lemma NumeralWitness(w: string, d: nat)
    requires d < |w| - 1 && w[d] == '.'
    requires forall m :: 0 <= m < |w| && m != d ==> IsDigit(w[m])
    ensures IsNumeral(w)
  {
    var head, tail := w[..d], w[d + 1..];
    forall m | 0 <= m < |head| ensures IsDigit(head[m]) {
      assert head[m] == w[m];
    }
    forall m | 0 <= m < |tail| ensures IsDigit(tail[m]) {
      assert tail[m] == w[d + 1 + m];
    }
  }

  /** In a numeral whose first '.' is at `d`, a digit follows the '.'. */
  lemma NumeralDot(w: string, d: nat)
    requires d < |w| && w[d] == '.'
    requires forall m :: 0 <= m < d ==> IsDigit(w[m])
    requires IsNumeral(w)
    ensures d < |w| - 1
  {
    assert !IsDigit(w[d]);
    var k :| 0 <= k < |w| - 1 && w[k] == '.' && AllDigits(w[..k]) && AllDigits(w[k + 1..]);
    assert d < k ==> w[..k][d] == '.';
  }

  /** The boundary cases of the number token. */
  lemma ScanNumberExamples()
    ensures ScanNumber("12.5", 0) == NumScan(4, true)
    ensures ScanNumber("12.", 0) == NumScan(3, false)
    ensures ScanNumber(".", 0) == NumScan(1, false)
    ensures ScanNumber(".5", 0) == NumScan(2, true)
    ensures ScanNumber("1.2.3", 0) == NumScan(3, true)
  {
  }
}
