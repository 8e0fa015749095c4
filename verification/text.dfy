/**
 * The string operations the vendor pages rely on: `toLowerCase`, `includes`,
 * `split(" ")[0]`, `parseFloat` and the name order used by the A-Z sort.
 */
module Text {
  import opened Wrappers

  // ---------------------------------------------------------------- case folding

  /** An ASCII capital letter. */
  predicate IsUpper(c: char) {
    'A' <= c <= 'Z'
  }

  function LowerChar(c: char): char {
    if IsUpper(c) then (c as int + 32) as char else c
  }

  /** `String.prototype.toLowerCase` on the ASCII letters; every other character is kept. */
  function ToLower(s: string): (r: string)
    ensures |r| == |s|
    ensures forall i :: 0 <= i < |r| ==> !IsUpper(r[i])
    ensures forall i :: 0 <= i < |s| && !IsUpper(s[i]) ==> r[i] == s[i]
    ensures forall i :: 0 <= i < |s| && IsUpper(s[i]) ==> r[i] as int == s[i] as int + 32
  {
    seq(|s|, i requires 0 <= i < |s| => LowerChar(s[i]))
  }

  /** Lower-casing twice is lower-casing once. */
  lemma ToLowerIdempotent(s: string)
    ensures ToLower(ToLower(s)) == ToLower(s)
  {
  }

  // ---------------------------------------------------------------- substring search

  /** `needle` occurs in `hay` starting at index `i`. */
  predicate OccursAt(hay: string, needle: string, i: int) {
    0 <= i && i + |needle| <= |hay| && hay[i..i + |needle|] == needle
  }

  /** `String.prototype.includes`: `needle` occurs somewhere in `hay` (the empty needle everywhere). */
  function Includes(hay: string, needle: string): (r: bool)
    ensures r <==> exists i :: OccursAt(hay, needle, i)
    decreases |hay|
  {
    if |needle| <= |hay| && hay[..|needle|] == needle then
      assert OccursAt(hay, needle, 0);
      true
    else if |hay| == 0 then
      assert !OccursAt(hay, needle, 0);
      false
    else
      OccursShift(hay, needle);
      Includes(hay[1..], needle)
  }

  /** An occurrence not at the front of `hay` is an occurrence in its tail, one position earlier. */
  lemma OccursShift(hay: string, needle: string)
    requires |hay| > 0
    requires !OccursAt(hay, needle, 0)
    ensures (exists i :: OccursAt(hay, needle, i)) <==> (exists i :: OccursAt(hay[1..], needle, i))
  {
    forall i | OccursAt(hay[1..], needle, i)
      ensures OccursAt(hay, needle, i + 1)
    {
      assert hay[1..][i..i + |needle|] == hay[i + 1..i + 1 + |needle|];
    }
    forall i | OccursAt(hay, needle, i)
      ensures OccursAt(hay[1..], needle, i - 1)
    {
      assert hay[1..][i - 1..i - 1 + |needle|] == hay[i..i + |needle|];
    }
  }

  // ---------------------------------------------------------------- splitting

  /** `s.split(sep)[0]`: the text before the first `sep`, or all of `s` when there is none. */
  function BeforeFirst(s: string, sep: char): (r: string)
    ensures |r| <= |s| && s[..|r|] == r
    ensures sep !in r
    ensures |r| < |s| ==> s[|r|] == sep
  {
    if |s| == 0 || s[0] == sep then []
    else
      var rest := BeforeFirst(s[1..], sep);
      assert s[..1 + |rest|] == [s[0]] + s[1..][..|rest|];
      [s[0]] + rest
  }

  // ---------------------------------------------------------------- decimal numerals

  predicate IsDigit(c: char) {
    '0' <= c <= '9'
  }

  predicate AllDigits(s: string) {
    forall i :: 0 <= i < |s| ==> IsDigit(s[i])
  }

  function DigitValue(c: char): (d: nat)
    requires IsDigit(c)
    ensures d < 10
  {
    c as int - '0' as int
  }

  function DigitChar(d: nat): (c: char)
    requires d < 10
    ensures IsDigit(c) && DigitValue(c) == d
  {
    ('0' as int + d) as char
  }

  /** The number a run of decimal digits denotes, most significant digit first (0 for no digits). */
  function DigitsValue(ds: string): nat
    requires AllDigits(ds)
    decreases |ds|
  {
    if |ds| == 0 then 0 else DigitsValue(ds[..|ds| - 1]) * 10 + DigitValue(ds[|ds| - 1])
  }

  /** The length of the longest all-digit prefix of `s`. */
  function DigitRun(s: string): (n: nat)
    ensures n <= |s| && AllDigits(s[..n])
    ensures n < |s| ==> !IsDigit(s[n])
  {
    if |s| == 0 || !IsDigit(s[0]) then 0
    else
      var n := DigitRun(s[1..]);
      assert s[..1 + n] == [s[0]] + s[1..][..n];
      1 + n
  }

  function Pow10(n: nat): (r: nat)
    ensures r >= 1
  {
    if n == 0 then 1 else 10 * Pow10(n - 1)
  }

  /** Decimal digits of `n`, without leading zeros. */
  function NatToString(n: nat): (r: string)
    ensures |r| >= 1 && AllDigits(r)
    ensures DigitsValue(r) == n
    decreases n
  {
    if n < 10 then [DigitChar(n)]
    else
      var front := NatToString(n / 10);
      var r := front + [DigitChar(n % 10)];
      assert r[..|r| - 1] == front;
      r
  }

  // ---------------------------------------------------------------- parseFloat

  /** The white space `parseFloat` skips before the number (the ASCII part of it). */
  predicate IsSpace(c: char) {
    c == ' ' || c == '\t' || c == '\n' || c == '\r'
  }

  /** `s` without its leading white space. */
  function TrimStart(s: string): (r: string)
    ensures |r| <= |s| && r == s[|s| - |r|..]
    ensures |r| > 0 ==> !IsSpace(r[0])
  {
    if |s| > 0 && IsSpace(s[0]) then TrimStart(s[1..]) else s
  }

  /** Everything `TrimStart` drops is white space. */
  lemma {:induction false} TrimStartDropsSpaces(s: string)
    ensures forall i :: 0 <= i < |s| - |TrimStart(s)| ==> IsSpace(s[i])
    decreases |s|
  {
    if |s| > 0 && IsSpace(s[0]) {
      TrimStartDropsSpaces(s[1..]);
      assert forall i :: 1 <= i < |s| - |TrimStart(s)| ==> s[i] == s[1..][i - 1];
    }
  }

  /** The text carries a leading minus sign. */
  predicate Negated(t: string) {
    |t| > 0 && t[0] == '-'
  }

  /** The text after an optional leading sign. */
  function Unsigned(t: string): string {
    if |t| > 0 && (t[0] == '-' || t[0] == '+') then t[1..] else t
  }

  /** The text begins with a decimal number: a digit, or a point followed by a digit. */
  predicate StartsNumber(u: string) {
    (|u| > 0 && IsDigit(u[0])) || (|u| > 1 && u[0] == '.' && IsDigit(u[1]))
  }

  /** The longest prefix of `u` of the form `digits[.digits]` or `.digits`, read as a number. */
  function ParseUnsigned(u: string): (r: Option<real>)
    ensures r.None? <==> !StartsNumber(u)
    ensures r.Some? ==> r.value >= 0.0
  {
    var n := DigitRun(u);
    if n < |u| && u[n] == '.' then
      var m := DigitRun(u[n + 1..]);
      if n + m == 0 then None
      else Some(DecimalValue(DigitsValue(u[..n]), u[n + 1..][..m]))
    else if n == 0 then None
    else Some(DigitsValue(u[..n]) as real)
  }

  /** The number `<whole>.<frac>`: `whole` plus the fraction digits scaled down by their count. */
  function DecimalValue(whole: nat, frac: string): (r: real)
    requires AllDigits(frac)
    ensures r >= whole as real
  {
    whole as real + DigitsValue(frac) as real / Pow10(|frac|) as real
  }

  /**
   * `parseFloat`: skips leading white space and one optional sign, then reads the
   * longest decimal prefix; None stands for NaN, the result when no number starts there.
   */
  function ParseFloat(s: string): (r: Option<real>)
    ensures r.None? <==> !StartsNumber(Unsigned(TrimStart(s)))
    ensures r.Some? && !Negated(TrimStart(s)) ==> r.value >= 0.0
  {
    var t := TrimStart(s);
    ApplySign(t, ParseUnsigned(Unsigned(t)))
  }

  /** The number read after the sign, negated when the text carries a minus sign. */
  function ApplySign(t: string, v: Option<real>): Option<real> {
    if Negated(t) && v.Some? then Some(-v.value) else v
  }

  /** Without leading white space `parseFloat` goes straight to the sign. */
  lemma ParseFloatUntrimmed(s: string)
    requires |s| == 0 || !IsSpace(s[0])
    ensures ParseFloat(s) == ApplySign(s, ParseUnsigned(Unsigned(s)))
  {
    assert TrimStart(s) == s;
  }

  /** A distance label of the fixtures' shape: `<whole>.<tenth> <unit>`, such as "0.4 mi". */
  function TenthsLabel(tenths: nat, unit: string): string {
    NatToString(tenths / 10) + "." + [DigitChar(tenths % 10)] + " " + unit
  }

  /** An all-digit text is read in full. */
  lemma DigitRunOfDigits(w: string)
    requires AllDigits(w)
    ensures DigitRun(w) == |w|
    decreases |w|
  {
    if |w| > 0 {
      DigitRunOfDigits(w[1..]);
    }
  }

  /** A numeral `<digits>.<digit>` followed by a non-digit reads as its value. */
  lemma {:induction false} ParseUnsignedOfDecimal(w: string, d: char, t: string)
    requires |w| > 0 && AllDigits(w) && IsDigit(d)
    requires |t| == 0 || !IsDigit(t[0])
    ensures ParseUnsigned(w + ['.', d] + t) == Some(DigitsValue(w) as real + DigitValue(d) as real / 10.0)
  {
    var u := w + ['.', d] + t;
    assert u == w + (['.', d] + t);
    DigitRunAppend(w, ['.', d] + t);
    DigitRunOfDigits(w);
    var rest := u[|w| + 1..];
    assert rest == [d] + t;
    DigitRunAppend([d], t);
    ParseUnsignedFraction(u, w, [d]);
    assert DigitsValue([d]) == DigitValue(d) by {
      assert [d][..0] == [];
    }
    assert Pow10(1) == 10;
  }

  /** The reading of a text whose digit runs before and after its point are known. */
  lemma ParseUnsignedFraction(u: string, w: string, frac: string)
    requires AllDigits(w) && AllDigits(frac) && |w| + |frac| > 0
    requires |w| < |u| && u[..|w|] == w && u[|w|] == '.' && DigitRun(u) == |w|
    requires DigitRun(u[|w| + 1..]) == |frac| && u[|w| + 1..][..|frac|] == frac
    ensures ParseUnsigned(u) == Some(DecimalValue(DigitsValue(w), frac))
  {
  }

  /** Reading a `<whole>.<tenth> <unit>` label gives back its value in tenths. */
  lemma ParseTenthsLabel(tenths: nat, unit: string)
    ensures ParseFloat(TenthsLabel(tenths, unit)) == Some(tenths as real / 10.0)
  {
    var w := NatToString(tenths / 10);
    var d := DigitChar(tenths % 10);
    var s := TenthsLabel(tenths, unit);
    assert s == w + ['.', d] + (" " + unit);
    LabelStartsWithDigit(tenths, unit);
    ParseFloatOfDigitStart(s);
    ParseUnsignedOfDecimal(w, d, " " + unit);
    TenthsSplit(tenths);
  }

  /** A text that starts with a digit is read without trimming or sign handling. */
  lemma ParseFloatOfDigitStart(s: string)
    requires |s| > 0 && IsDigit(s[0])
    ensures ParseFloat(s) == ParseUnsigned(s)
  {
    ParseFloatUntrimmed(s);
    assert !Negated(s) && Unsigned(s) == s;
  }

  /** A count of tenths is its whole part plus its last digit in tenths. */
  lemma TenthsSplit(tenths: nat)
    ensures tenths as real / 10.0 == (tenths / 10) as real + (tenths % 10) as real / 10.0
  {
    assert tenths == (tenths / 10) * 10 + tenths % 10;
  }

  /** DigitRun looks no further than the first non-digit. */
  lemma {:induction false} DigitRunAppend(u: string, t: string)
    requires |t| == 0 || !IsDigit(t[0])
    ensures DigitRun(u + t) == DigitRun(u)
    ensures (u + t)[..DigitRun(u)] == u[..DigitRun(u)]
    decreases |u|
  {
    var w := u + t;
    if |u| == 0 {
      assert w == t;
    } else {
      assert w[0] == u[0];
      if IsDigit(u[0]) {
        assert w[1..] == u[1..] + t;
        DigitRunAppend(u[1..], t);
      }
    }
    assert w[..DigitRun(u)] == u[..DigitRun(u)];
  }

  /** A number is never read across a space. */
  lemma {:induction false} ParseUnsignedStopsAtSpace(u: string, t: string)
    requires |t| == 0 || t[0] == ' '
    ensures ParseUnsigned(u + t) == ParseUnsigned(u)
  {
    DigitRunAppend(u, t);
    var n := DigitRun(u);
    if n < |u| {
      assert (u + t)[n] == u[n];
      if u[n] == '.' {
        assert (u + t)[n + 1..] == u[n + 1..] + t;
        DigitRunAppend(u[n + 1..], t);
      }
    } else if |t| > 0 {
      assert (u + t)[n] == ' ';
    }
  }

  /**
   * The Discover distance filter reads `parseFloat(label.split(" ")[0])` while the sorts
   * read `parseFloat(label)`: both give the same number unless the label starts with white space.
   */
  lemma {:induction false} ParseFloatOfFirstWord(s: string)
    requires |s| == 0 || !IsSpace(s[0])
    ensures ParseFloat(BeforeFirst(s, ' ')) == ParseFloat(s)
  {
    var p := BeforeFirst(s, ' ');
    var t := s[|p|..];
    assert s == p + t;
    if |s| > 0 {
      assert |p| > 0 && p[0] == s[0];
      ParseFloatStopsAtSpace(p, t);
    }
  }

  /** Text after a space never changes what `parseFloat` reads from a word without leading space. */
  lemma ParseFloatStopsAtSpace(p: string, t: string)
    requires |p| > 0 && !IsSpace(p[0])
    requires |t| == 0 || t[0] == ' '
    ensures ParseFloat(p + t) == ParseFloat(p)
  {
    ParseFloatUntrimmed(p);
    ParseFloatUntrimmed(p + t);
    SignOfAppend(p, t);
    ParseUnsignedStopsAtSpace(Unsigned(p), t);
  }

  /** The sign of a non-empty text is read from its first character, whatever follows. */
  lemma SignOfAppend(p: string, t: string)
    requires |p| > 0
    ensures Negated(p + t) == Negated(p)
    ensures Unsigned(p + t) == Unsigned(p) + t
  {
    if p[0] == '-' || p[0] == '+' {
      assert (p + t)[1..] == p[1..] + t;
    }
  }

  /** With a leading space the two readings part: the first word is then empty, so NaN. */
  lemma {:induction false} LeadingSpaceSplitsReadings(tenths: nat, unit: string)
    ensures ParseFloat(BeforeFirst(" " + TenthsLabel(tenths, unit), ' ')) == None
    ensures ParseFloat(" " + TenthsLabel(tenths, unit)) == Some(tenths as real / 10.0)
  {
    var s := " " + TenthsLabel(tenths, unit);
    assert s[0] == ' ';
    assert BeforeFirst(s, ' ') == [];
    assert ParseFloat([]) == None by {
      assert TrimStart([]) == [];
      assert Unsigned([]) == [];
    }
    LabelStartsWithDigit(tenths, unit);
    assert s[1..] == TenthsLabel(tenths, unit);
    assert TrimStart(s) == TenthsLabel(tenths, unit);
    ParseTenthsLabel(tenths, unit);
  }

  lemma LabelStartsWithDigit(tenths: nat, unit: string)
    ensures |TenthsLabel(tenths, unit)| > 0 && IsDigit(TenthsLabel(tenths, unit)[0])
    ensures TrimStart(TenthsLabel(tenths, unit)) == TenthsLabel(tenths, unit)
  {
    var w := NatToString(tenths / 10);
    assert TenthsLabel(tenths, unit)[0] == w[0];
  }

  // ---------------------------------------------------------------- name order

  /** Code-point lexicographic comparison (negative: `a` first); stands in for `localeCompare`. */
  function CompareText(a: string, b: string): (r: int)
    ensures -1 <= r <= 1
    ensures r == 0 <==> a == b
  {
    if |a| == 0 && |b| == 0 then 0
    else if |a| == 0 then -1
    else if |b| == 0 then 1
    else if a[0] < b[0] then -1
    else if b[0] < a[0] then 1
    else
      var r := CompareText(a[1..], b[1..]);
      assert a == [a[0]] + a[1..] && b == [b[0]] + b[1..];
      r
  }

  /** Swapping the arguments negates the comparison. */
  lemma {:induction false} CompareTextAntisymmetric(a: string, b: string)
    ensures CompareText(b, a) == -CompareText(a, b)
  {
    if |a| > 0 && |b| > 0 && a[0] == b[0] {
      CompareTextAntisymmetric(a[1..], b[1..]);
    }
  }

  /** "Not after" is transitive, so the name order is a total preorder. */
  lemma {:induction false} CompareTextTransitive(a: string, b: string, c: string)
    requires CompareText(a, b) <= 0 && CompareText(b, c) <= 0
    ensures CompareText(a, c) <= 0
  {
    if |a| > 0 && |b| > 0 && |c| > 0 && a[0] == b[0] && b[0] == c[0] {
      CompareTextTransitive(a[1..], b[1..], c[1..]);
    }
  }
}
