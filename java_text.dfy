/**
 * The java.lang string and number routines the option engine calls:
 * `startsWith("-")`, `indexOf`, `Arrays.toString`, `Integer.toString`,
 * `Byte/Short/Integer/Long.parse*`, `Boolean.parseBoolean` and the
 * syntax accepted by `Float.parseFloat` / `Double.parseDouble`.
 */
module JavaText {
  import opened Wrappers

  /** `s.startsWith("-")`: the mark of an option token. */
  predicate IsOption(s: string) {
    |s| > 0 && s[0] == '-'
  }

  /** `s.indexOf(c)`: the first position of `c` in `s`, or -1. */
  function IndexOf(s: string, c: char): (k: int)
    ensures -1 <= k < |s|
    ensures k == -1 <==> c !in s
    ensures k >= 0 ==> s[k] == c && c !in s[..k]
  {
    if |s| == 0 then -1
    else if s[0] == c then 0
    else
      var k := IndexOf(s[1..], c);
      if k == -1 then -1
      else
        assert s[..k + 1] == [s[0]] + s[1..][..k];
        k + 1
  }

  /** The elements joined with ", ", as `Arrays.toString` lays them out. */
  function Join(items: seq<string>): string {
    if |items| == 0 then ""
    else if |items| == 1 then items[0]
    else items[0] + ", " + Join(items[1..])
  }

  /** `Arrays.toString(args)` for an array of non-null strings. */
  function ArraysToString(items: seq<string>): (r: string)
    ensures |r| >= 2 && r[0] == '[' && r[|r| - 1] == ']'
    ensures items == [] ==> r == "[]"
    ensures |items| == 1 ==> r == "[" + items[0] + "]"
  {
    "[" + Join(items) + "]"
  }

  // ---------------------------------------------------------------------
  // Decimal integers: Integer.toString and the parse routines
  // ---------------------------------------------------------------------

  predicate IsDigit(c: char) {
    '0' <= c <= '9'
  }

  predicate AllDigits(s: string) {
    forall i :: 0 <= i < |s| ==> IsDigit(s[i])
  }

  /** The number a run of decimal digits denotes (leading zeros allowed). */
  function DigitsValue(s: string): nat
    requires AllDigits(s)
  {
    if |s| == 0 then 0
    else DigitsValue(s[..|s| - 1]) * 10 + (s[|s| - 1] as int - '0' as int)
  }

  /** The shortest digit run denoting `n`. */
  function Digits(n: nat): (s: string)
    ensures |s| > 0 && AllDigits(s) && DigitsValue(s) == n
    ensures n > 0 ==> s[0] != '0'
  {
    var last := ('0' as int + n % 10) as char;
    if n < 10 then [last]
    else
      var prefix := Digits(n / 10);
      assert (prefix + [last])[..|prefix|] == prefix;
      prefix + [last]
  }

  /** `Integer.toString(v)` / `Long.toString(v)`. */
  function ToDecimal(v: int): string {
    if v < 0 then "-" + Digits(-v) else Digits(v)
  }

  /**
   * The text accepted by `Long.parseLong(s, 10)` before its range check: an
   * optional '+' or '-' followed by at least one decimal digit.
   */
  function ParseDecimal(s: string): (r: Option<int>)
    ensures r.Some? ==> |s| > 0
    ensures |s| > 0 && AllDigits(s) ==> r == Some(DigitsValue(s))
  {
    if |s| == 0 then None
    else if s[0] == '-' || s[0] == '+' then
      if |s| > 1 && AllDigits(s[1..]) then
        var magnitude: int := DigitsValue(s[1..]);
        Some(if s[0] == '-' then -magnitude else magnitude)
      else None
    else if AllDigits(s) then Some(DigitsValue(s))
    else None
  }

  /**
   * `Byte.parseByte`, `Short.parseShort`, `Integer.parseInt` and
   * `Long.parseLong` with the type's bounds [lo, hi]: null, malformed text
   * and out-of-range numbers all throw NumberFormatException (None).
   */
  function ParseInteger(v: Option<string>, lo: int, hi: int): (r: Option<int>)
    ensures r.Some? <==> v.Some? && ParseDecimal(v.value).Some? && lo <= ParseDecimal(v.value).value <= hi
    ensures r.Some? ==> lo <= r.value <= hi && r == ParseDecimal(v.value)
  {
    if v.None? then None
    else match ParseDecimal(v.value)
      case Some(n) => if lo <= n <= hi then Some(n) else None
      case None => None
  }

  /** Parsing the printed form of any integer gives that integer back. */
  lemma DecimalRoundTrip(v: int)
    ensures ParseDecimal(ToDecimal(v)) == Some(v)
  {
    if v < 0 {
      var s := ToDecimal(v);
      assert s[1..] == Digits(-v);
    }
  }

  /** Within a type's bounds, the printed form of a value parses to it. */
  lemma IntegerRoundTrip(v: int, lo: int, hi: int)
    requires lo <= v <= hi
    ensures ParseInteger(Some(ToDecimal(v)), lo, hi) == Some(v)
  {
    DecimalRoundTrip(v);
  }

  // ---------------------------------------------------------------------
  // Boolean.parseBoolean
  // ---------------------------------------------------------------------

  /** ASCII lower-casing. */
  function Lower(c: char): char {
    if 'A' <= c <= 'Z' then (c as int + 32) as char else c
  }

  /** `Boolean.parseBoolean(v)`: `v != null && v.equalsIgnoreCase("true")`. */
  function ParseBoolean(v: Option<string>): (b: bool)
    ensures v == Some("true") || v == Some("TRUE") ==> b
    ensures v == None || v == Some("false") || v == Some("") ==> !b
  {
    && v.Some?
    && |v.value| == 4
    && Lower(v.value[0]) == 't' && Lower(v.value[1]) == 'r'
    && Lower(v.value[2]) == 'u' && Lower(v.value[3]) == 'e'
  }

  // ---------------------------------------------------------------------
  // The syntax of Float.parseFloat / Double.parseDouble
  // ---------------------------------------------------------------------

  /** `String.trim()`: drop leading and trailing characters up to ' '. */
  function Trim(s: string): (t: string)
    ensures |t| <= |s|
    ensures |t| > 0 ==> t[0] > ' ' && t[|t| - 1] > ' '
  {
    if |s| > 0 && s[0] <= ' ' then Trim(s[1..])
    else if |s| > 0 && s[|s| - 1] <= ' ' then Trim(s[..|s| - 1])
    else s
  }

  predicate IsHexDigit(c: char) {
    IsDigit(c) || 'a' <= c <= 'f' || 'A' <= c <= 'F'
  }

  /** The end of the run of characters satisfying `hex ? IsHexDigit : IsDigit` from `i`. */
  function SkipDigits(s: string, i: nat, hex: bool): (j: nat)
    requires i <= |s|
    ensures i <= j <= |s|
    ensures forall k :: i <= k < j ==> (if hex then IsHexDigit(s[k]) else IsDigit(s[k]))
    ensures j < |s| ==> !(if hex then IsHexDigit(s[j]) else IsDigit(s[j]))
    decreases |s| - i
  {
    if i < |s| && (if hex then IsHexDigit(s[i]) else IsDigit(s[i])) then SkipDigits(s, i + 1, hex)
    else i
  }

  /** A mantissa `digits[.digits]` or `.digits` from `i`: its end, or -1 without any digit. */
  function MantissaEnd(s: string, i: nat, hex: bool): (j: int)
    requires i <= |s|
    ensures j == -1 || i < j <= |s|
  {
    var intEnd := SkipDigits(s, i, hex);
    var fracEnd := if intEnd < |s| && s[intEnd] == '.' then SkipDigits(s, intEnd + 1, hex) else intEnd;
    var digitCount := (intEnd - i) + (if fracEnd > intEnd then fracEnd - intEnd - 1 else 0);
    if digitCount > 0 then fracEnd else -1
  }

  /** An exponent `marker [+|-] digits` at `i`: its end, or -1 when malformed. */
  function ExponentEnd(s: string, i: nat, markers: string): (j: int)
    requires i <= |s|
    ensures j == -1 || i <= j <= |s|
  {
    if i < |s| && s[i] in markers then
      var signEnd := if i + 1 < |s| && (s[i + 1] == '+' || s[i + 1] == '-') then i + 2 else i + 1;
      var digitsEnd := SkipDigits(s, signEnd, false);
      if digitsEnd > signEnd then digitsEnd else -1
    else i
  }

  /** Ends at `j`, or one optional type suffix f, F, d or D before the end. */
  predicate EndsAt(s: string, j: int) {
    j == |s| || (0 <= j && j == |s| - 1 && s[j] in "fFdD")
  }

  /** A decimal floating literal without sign: mantissa, optional exponent, optional suffix. */
  predicate IsDecimalFloat(u: string) {
    var m := MantissaEnd(u, 0, false);
    m != -1 && var e := ExponentEnd(u, m, "eE"); e != -1 && EndsAt(u, e)
  }

  /** A hexadecimal floating literal without sign: 0x, mantissa, mandatory p-exponent, optional suffix. */
  predicate IsHexFloat(u: string) {
    && |u| > 2 && u[0] == '0' && (u[1] == 'x' || u[1] == 'X')
    && var m := MantissaEnd(u, 2, true);
       m != -1 && m < |u| && (u[m] == 'p' || u[m] == 'P')
       && var e := ExponentEnd(u, m, "pP"); e != -1 && EndsAt(u, e)
  }

  /** The text `Float.parseFloat` and `Double.parseDouble` accept without throwing. */
  predicate IsFloatLiteral(s: string) {
    var t := Trim(s);
    var u := if |t| > 0 && (t[0] == '+' || t[0] == '-') then t[1..] else t;
    u == "NaN" || u == "Infinity" || IsHexFloat(u) || IsDecimalFloat(u)
  }
}
