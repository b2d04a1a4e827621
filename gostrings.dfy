/**
 * The pieces of Go's `strings`, `strconv` and `fmt` packages that the plan parser relies on,
 * written out so that their edge cases (no occurrence, empty pieces, syntax and range errors)
 * are part of the model. Strings are sequences of Unicode code points.
 */
module GoStrings {

  /** `unicode.IsSpace`: the characters `strings.TrimSpace` removes. */
  predicate IsSpace(c: char) {
    c == '\t' || c == '\n' || c == '\U{0B}' || c == '\U{0C}' || c == '\r' || c == ' '
    || c == '\U{85}' || c == '\U{A0}' || c == '\U{1680}' || ('\U{2000}' <= c <= '\U{200A}')
    || c == '\U{2028}' || c == '\U{2029}' || c == '\U{202F}' || c == '\U{205F}' || c == '\U{3000}'
  }

  predicate IsDigit(c: char) {
    '0' <= c <= '9'
  }

  predicate AllDigits(s: string) {
    forall i | 0 <= i < |s| :: IsDigit(s[i])
  }

  // ---------------------------------------------------------------------------------------
  // Trimming
  // ---------------------------------------------------------------------------------------

  /** How many leading characters of `s` satisfy `drop`. */
  function LeadingCount(s: string, drop: char -> bool): (k: nat)
    ensures k <= |s|
    ensures forall i | 0 <= i < k :: drop(s[i])
    ensures k < |s| ==> !drop(s[k])
  {
    if |s| == 0 || !drop(s[0]) then 0 else 1 + LeadingCount(s[1..], drop)
  }

  /** How many trailing characters of `s` satisfy `drop`. */
  function TrailingCount(s: string, drop: char -> bool): (k: nat)
    ensures k <= |s|
    ensures forall i | |s| - k <= i < |s| :: drop(s[i])
    ensures k < |s| ==> !drop(s[|s| - k - 1])
  {
    if |s| == 0 || !drop(s[|s| - 1]) then 0 else 1 + TrailingCount(s[..|s| - 1], drop)
  }

  /** `strings.TrimLeftFunc`. */
  function TrimLeftFunc(s: string, drop: char -> bool): (r: string)
    ensures |r| <= |s| && r == s[|s| - |r|..]
    ensures r != [] ==> !drop(r[0])
  {
    s[LeadingCount(s, drop)..]
  }

  /** `strings.TrimRightFunc`. */
  function TrimRightFunc(s: string, drop: char -> bool): (r: string)
    ensures |r| <= |s| && r == s[..|r|]
    ensures r != [] ==> !drop(r[|r| - 1])
  {
    s[..|s| - TrailingCount(s, drop)]
  }

  /** `strings.TrimSpace`. */
  function TrimSpace(s: string): string {
    TrimRightFunc(TrimLeftFunc(s, IsSpace), IsSpace)
  }

  /** `strings.Trim(s, cutset)`: drops leading and trailing characters of the cutset. */
  function Trim(s: string, cutset: set<char>): string {
    TrimRightFunc(TrimLeftFunc(s, c => c in cutset), c => c in cutset)
  }

  /** `strings.TrimRight(s, cutset)`. */
  function TrimRight(s: string, cutset: set<char>): string {
    TrimRightFunc(s, c => c in cutset)
  }

  // ---------------------------------------------------------------------------------------
  // Searching
  // ---------------------------------------------------------------------------------------

  predicate HasAt(s: string, i: int, p: string) {
    0 <= i && i + |p| <= |s| && s[i..i + |p|] == p
  }

  predicate StartsWith(s: string, p: string) {
    HasAt(s, 0, p)
  }

  /** Leftmost occurrence of `p` in `s` at or after `from`, or -1. */
  function IndexFrom(s: string, p: string, from: nat): (r: int)
    decreases |s| - from
    ensures r == -1 || (from <= r && HasAt(s, r, p))
    ensures r == -1 ==> forall j | from <= j :: !HasAt(s, j, p)
    ensures r != -1 ==> forall j | from <= j < r :: !HasAt(s, j, p)
  {
    if from + |p| > |s| then -1
    else if HasAt(s, from, p) then from
    else IndexFrom(s, p, from + 1)
  }

  /** `strings.Index`: leftmost occurrence of `p` in `s`, or -1. */
  function Index(s: string, p: string): (r: int)
    ensures r == -1 || HasAt(s, r, p)
    ensures r == -1 <==> forall j :: !HasAt(s, j, p)
    ensures forall j | 0 <= j < r :: !HasAt(s, j, p)
  {
    IndexFrom(s, p, 0)
  }

  /** `strings.Contains`, and equally a match of a regular expression that is one literal. */
  predicate Contains(s: string, p: string) {
    Index(s, p) >= 0
  }

  lemma ContainsAt(s: string, p: string, i: int)
    requires HasAt(s, i, p)
    ensures Contains(s, p)
  {
  }

  /** Rightmost occurrence of `p` in `s` that ends at or before `limit`, or -1. */
  function LastIndexBefore(s: string, p: string, limit: int): (r: int)
    decreases limit
    ensures r == -1 || (HasAt(s, r, p) && r + |p| <= limit)
    ensures r == -1 ==> forall j | j + |p| <= limit :: !HasAt(s, j, p)
    ensures forall j | r < j && j + |p| <= limit :: !HasAt(s, j, p)
  {
    if limit < |p| then -1
    else if HasAt(s, limit - |p|, p) then limit - |p|
    else LastIndexBefore(s, p, limit - 1)
  }

  // ---------------------------------------------------------------------------------------
  // Splitting
  // ---------------------------------------------------------------------------------------

  /** Concatenation of `parts` with `sep` between consecutive parts (`strings.Join`). */
  function Join(parts: seq<string>, sep: string): string {
    if |parts| == 0 then ""
    else if |parts| == 1 then parts[0]
    else parts[0] + sep + Join(parts[1..], sep)
  }

  /**
   * `strings.Split` for a non-empty separator: the pieces between the non-overlapping
   * occurrences of `sep` found left to right. `Split("", sep) == [""]`.
   */
  function Split(s: string, sep: string): (parts: seq<string>)
    requires sep != ""
    decreases |s|
    ensures |parts| >= 1
    ensures Join(parts, sep) == s
    ensures forall k | 0 <= k < |parts| :: !Contains(parts[k], sep)
  {
    var i := Index(s, sep);
    if i < 0 then [s]
    else
      var rest := Split(s[i + |sep|..], sep);
      var first := s[..i];
      assert !Contains(first, sep) by {
        forall j ensures !HasAt(first, j, sep) {
          if HasAt(first, j, sep) {
            assert s[j..j + |sep|] == first[j..j + |sep|];
            assert HasAt(s, j, sep);
          }
        }
      }
      assert s == first + sep + s[i + |sep|..];
      [first] + rest
  }

  // ---------------------------------------------------------------------------------------
  // strconv and fmt
  // ---------------------------------------------------------------------------------------

  const MaxInt64: int := 0x7FFF_FFFF_FFFF_FFFF
  const MinInt64: int := -0x8000_0000_0000_0000

  /** A `strconv` result: the value Go returns and whether the error was nil. */
  datatype Parsed<T> = Parsed(value: T, ok: bool)

  /** The value of a run of decimal digits. */
  function DigitsValue(s: string): nat
    requires AllDigits(s)
  {
    if |s| == 0 then 0 else 10 * DigitsValue(s[..|s| - 1]) + (s[|s| - 1] - '0') as nat
  }

  /**
   * `strconv.ParseInt(s, 10, 64)`: an optional sign and one or more decimal digits. A syntax
   * error yields 0; a value outside 64 bits yields the nearest bound; both with a non-nil error.
   */
  function ParseInt(s: string): (r: Parsed<int>)
    ensures MinInt64 <= r.value <= MaxInt64
    ensures r.ok ==> |s| > 0
    ensures AllDigits(s) && |s| > 0 && DigitsValue(s) <= MaxInt64 ==> r == Parsed(DigitsValue(s), true)
  {
    var signed := |s| > 0 && (s[0] == '+' || s[0] == '-');
    var body := if signed then s[1..] else s;
    if |body| == 0 || !AllDigits(body) then Parsed(0, false)
    else
      var v := if signed && s[0] == '-' then -(DigitsValue(body) as int) else DigitsValue(body);
      if v > MaxInt64 then Parsed(MaxInt64, false)
      else if v < MinInt64 then Parsed(MinInt64, false)
      else Parsed(v, true)
  }

  /** A run of digits never parses to a negative number; one too long gives the 64-bit maximum. */
  lemma ParseIntOfDigits(s: string)
    requires AllDigits(s)
    ensures ParseInt(s).value >= 0
  {
    if |s| > 0 {
      assert IsDigit(s[0]);
    }
  }

  /** A run of digits has no spaces to trim. */
  lemma TrimSpaceOfDigits(s: string)
    requires AllDigits(s)
    ensures TrimSpace(s) == s
  {
    if |s| > 0 {
      assert !IsSpace(s[0]) && !IsSpace(s[|s| - 1]);
    }
  }

  function Pow10(k: nat): (r: nat)
    ensures r >= 1
  {
    if k == 0 then 1 else 10 * Pow10(k - 1)
  }

  /** The value of `whole.frac` for digit strings `whole` and `frac`. */
  function DecimalValue(whole: string, frac: string): real
    requires AllDigits(whole) && AllDigits(frac)
  {
    DigitsValue(whole) as real + DigitsValue(frac) as real / Pow10(|frac|) as real
  }

  /** A plain decimal text: one or more digits, with at most one '.' among them. */
  predicate IsDecimal(body: string) {
    var dot := Index(body, ".");
    var whole := if dot < 0 then body else body[..dot];
    var frac := if dot < 0 then "" else body[dot + 1..];
    |whole| + |frac| > 0 && AllDigits(whole) && AllDigits(frac)
  }

  function DecimalOf(body: string): real
    requires IsDecimal(body)
  {
    var dot := Index(body, ".");
    if dot < 0 then DecimalValue(body, "") else DecimalValue(body[..dot], body[dot + 1..])
  }

  /**
   * `strconv.ParseFloat(s, 64)` on plain decimal notation: an optional sign, digits with at
   * most one '.', and at least one digit. A syntax error yields 0 with a non-nil error.
   */
  function ParseFloat(s: string): (r: Parsed<real>)
    ensures !r.ok ==> r.value == 0.0
  {
    var signed := |s| > 0 && (s[0] == '+' || s[0] == '-');
    var body := if signed then s[1..] else s;
    if !IsDecimal(body) then Parsed(0.0, false)
    else Parsed(if signed && s[0] == '-' then -DecimalOf(body) else DecimalOf(body), true)
  }

  lemma NoDotInDigits(s: string)
    requires AllDigits(s)
    ensures Index(s, ".") == -1
  {
    forall j ensures !HasAt(s, j, ".") {
      if 0 <= j < |s| {
        assert s[j] != '.' && s[j..j + 1][0] == s[j];
      }
    }
  }

  /** A run of digits reads as its integer value. */
  lemma ParseFloatDigits(s: string)
    requires AllDigits(s) && |s| > 0
    ensures ParseFloat(s) == Parsed(DigitsValue(s) as real, true)
  {
    assert IsDigit(s[0]);
    NoDotInDigits(s);
    assert AllDigits("") && DigitsValue("") == 0 && Pow10(0) == 1;
    assert IsDecimal(s);
    var d := DigitsValue(s) as real;
    calc {
      DecimalOf(s);
      DecimalValue(s, "");
      d + 0.0 / 1.0;
      d;
    }
  }

  /** Go's conversion `int64(f)`: truncation toward zero. */
  function TruncateToInt(f: real): (r: int)
    ensures f >= 0.0 ==> r as real <= f < r as real + 1.0
    ensures f < 0.0 ==> r as real - 1.0 < f <= r as real
  {
    if f >= 0.0 then f.Floor else -((-f).Floor)
  }

  /** Decimal digits of a natural number, most significant first. */
  function NatDigits(n: nat): (s: string)
    ensures |s| > 0 && AllDigits(s)
    decreases n
  {
    var last := ['0' + (n % 10) as char];
    if n < 10 then last else NatDigits(n / 10) + last
  }

  /** `fmt.Sprintf("%d", i)`. */
  function FormatInt(i: int): string {
    if i < 0 then "-" + NatDigits(-i) else NatDigits(i)
  }

  lemma {:induction false} NatDigitsValue(n: nat)
    ensures DigitsValue(NatDigits(n)) == n
    decreases n
  {
    var s := NatDigits(n);
    if n >= 10 {
      NatDigitsValue(n / 10);
      assert s[..|s| - 1] == NatDigits(n / 10);
    }
  }

  /** Printing an int64 with `%d` and reading it back with `ParseInt` is the identity. */
  lemma FormatIntRoundTrip(i: int)
    requires MinInt64 <= i <= MaxInt64
    ensures ParseInt(FormatInt(i)) == Parsed(i, true)
  {
    if i < 0 {
      NatDigitsValue(-i);
      assert FormatInt(i)[1..] == NatDigits(-i);
    } else {
      NatDigitsValue(i);
    }
  }

  // ---------------------------------------------------------------------------------------
  // int64 arithmetic
  // ---------------------------------------------------------------------------------------

  /** An int64 operation's result: the mathematical value reduced into the int64 range (two's complement). */
  function Wrap64(x: int): (r: int)
    ensures MinInt64 <= r <= MaxInt64
    ensures (r - x) % 0x1_0000_0000_0000_0000 == 0
    ensures MinInt64 <= x <= MaxInt64 ==> r == x
  {
    (x - MinInt64) % 0x1_0000_0000_0000_0000 + MinInt64
  }

  /** Go's integer `/`: the quotient truncated toward zero (Dafny's `/` is Euclidean). */
  function TruncDiv(a: int, b: int): (q: int)
    requires b != 0
    ensures a >= 0 ==> 0 <= a - b * q < (if b > 0 then b else -b)
    ensures a < 0 ==> 0 <= b * q - a < (if b > 0 then b else -b)
  {
    var m := (if a < 0 then -a else a) / (if b < 0 then -b else b);
    if (a < 0) != (b < 0) then -m else m
  }
}
