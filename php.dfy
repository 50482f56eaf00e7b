/**
 * The part of PHP's value semantics the plugin's decisions depend on:
 * truthiness (`(bool) $v`), string conversion (`(string) $v`), `trim`,
 * ASCII case mapping (`strtoupper`) and `filter_var($v, FILTER_VALIDATE_BOOLEAN)`.
 */
module Php {

  /** A key of a PHP array. */
  datatype ArrayKey = IntKey(i: int) | StrKey(s: string)

  /** A PHP value. Floats and objects are not modelled. */
  datatype Value =
    | Null
    | Bool(b: bool)
    | Int(i: int)
    | Str(s: string)
    | Arr(entries: map<ArrayKey, Value>)

  const False: Value := Bool(false)

  /** `(bool) $v`: null, false, 0, "", "0" and the empty array are falsy. */
  predicate Truthy(v: Value) {
    match v
    case Null => false
    case Bool(b) => b
    case Int(i) => i != 0
    case Str(s) => s != "" && s != "0"
    case Arr(m) => |m| != 0
  }

  function DigitChar(d: nat): (c: char)
    requires d < 10
    ensures '0' <= c <= '9'
    ensures c == '0' <==> d == 0
  {
    "0123456789"[d]
  }

  /** Decimal digits of `n`, without leading zeros. */
  function NatToString(n: nat): (r: string)
    ensures |r| > 0
    ensures forall k :: 0 <= k < |r| ==> '0' <= r[k] <= '9'
    ensures |r| > 1 ==> r[0] != '0'
    ensures r == "0" <==> n == 0
    decreases n
  {
    if n < 10 then [DigitChar(n)] else NatToString(n / 10) + [DigitChar(n % 10)]
  }

  /** `(string) $v` */
  function ToStr(v: Value): string {
    match v
    case Null => ""
    case Bool(b) => if b then "1" else ""
    case Int(i) => if i < 0 then "-" + NatToString(-i) else NatToString(i)
    case Str(s) => s
    case Arr(_) => "Array"
  }

  /** Converting a scalar to a string does not change whether it is truthy. */
  lemma StringCastKeepsTruthiness(v: Value)
    requires !v.Arr?
    ensures Truthy(Str(ToStr(v))) == Truthy(v)
  {
    match v
    case Int(i) =>
      if i < 0 {
        assert ToStr(v)[0] == '-';
      } else {
        var r := NatToString(i);
        assert r == "0" <==> i == 0;
      }
    case _ =>
  }

  /* ASCII case mapping, as strtoupper and strtolower do it */

  function UpperChar(c: char): char {
    if 'a' <= c <= 'z' then (c as int - 32) as char else c
  }

  function LowerChar(c: char): char {
    if 'A' <= c <= 'Z' then (c as int + 32) as char else c
  }

  function Upper(s: string): string {
    seq(|s|, k requires 0 <= k < |s| => UpperChar(s[k]))
  }

  function Lower(s: string): string {
    seq(|s|, k requires 0 <= k < |s| => LowerChar(s[k]))
  }

  /* Trimming */

  /** The characters `trim` strips by default: " \t\n\r\0\x0B". */
  predicate IsTrimSpace(c: char) {
    c == ' ' || c == '\t' || c == '\n' || c == '\r' || c == '\0' || c == 11 as char
  }

  /** The characters the boolean validation filter strips: " \t\r\v\n" (not NUL). */
  predicate IsFilterSpace(c: char) {
    c == ' ' || c == '\t' || c == '\r' || c == 11 as char || c == '\n'
  }

  /** Length of the longest prefix of `s` made of characters `drop` accepts. */
  function LeadingCount(s: string, drop: char -> bool): (n: nat)
    ensures n <= |s|
    ensures forall k :: 0 <= k < n ==> drop(s[k])
    ensures n < |s| ==> !drop(s[n])
    decreases |s|
  {
    if s == [] || !drop(s[0]) then 0 else 1 + LeadingCount(s[1..], drop)
  }

  /** Length of the longest suffix of `s` made of characters `drop` accepts. */
  function TrailingCount(s: string, drop: char -> bool): (n: nat)
    ensures n <= |s|
    ensures forall k :: |s| - n <= k < |s| ==> drop(s[k])
    ensures n < |s| ==> !drop(s[|s| - 1 - n])
    decreases |s|
  {
    if s == [] || !drop(s[|s| - 1]) then 0 else 1 + TrailingCount(s[..|s| - 1], drop)
  }

  /**
   * `r` is what remains of `s` once the characters `drop` accepts are cut from
   * both ends: `r` stands in `s` at index `i`, everything before and after it is
   * dropped, and `r` neither starts nor ends with a dropped character.
   */
  ghost predicate IsTrimAt(r: string, s: string, i: int, drop: char -> bool) {
    && 0 <= i <= i + |r| <= |s|
    && r == s[i..i + |r|]
    && (forall k :: 0 <= k < i ==> drop(s[k]))
    && (forall k :: i + |r| <= k < |s| ==> drop(s[k]))
    && (r != [] ==> !drop(r[0]) && !drop(r[|r| - 1]))
  }

  /** Cut the characters `drop` accepts from both ends of `s`. */
  function TrimWith(s: string, drop: char -> bool): (r: string)
    ensures IsTrimAt(r, s, LeadingCount(s, drop), drop)
  {
    var i := LeadingCount(s, drop);
    var n := TrailingCount(s[i..], drop);
    TrailingCountOfSuffix(s, i, drop);
    s[i..|s| - n]
  }

  /** The trailing run of a suffix, read in the whole string. */
  lemma TrailingCountOfSuffix(s: string, i: nat, drop: char -> bool)
    requires i <= |s|
    ensures var n := TrailingCount(s[i..], drop);
      && (forall k :: |s| - n <= k < |s| ==> drop(s[k]))
      && (n < |s| - i ==> !drop(s[|s| - 1 - n]))
  {
    var t := s[i..];
    var n := TrailingCount(t, drop);
    forall k | |s| - n <= k < |s| ensures drop(s[k]) {
      assert s[k] == t[k - i];
    }
    if n < |t| {
      assert s[|s| - 1 - n] == t[|t| - 1 - n];
    }
  }

  /** The trimmed string is the only infix of `s` with the trimmed shape. */
  lemma {:induction false} TrimUnique(r: string, s: string, i: int, drop: char -> bool)
    requires IsTrimAt(r, s, i, drop)
    ensures r == TrimWith(s, drop)
  {
    var t := TrimWith(s, drop);
    var j := LeadingCount(s, drop);
    assert IsTrimAt(t, s, j, drop);
    if r != [] {
      // r starts at the first kept character, and so does t
      assert s[i] == r[0];
      assert i == j;
      assert s[i + |r| - 1] == r[|r| - 1];
    }
  }

  /** Trimming twice is trimming once. */
  lemma TrimIdempotent(s: string, drop: char -> bool)
    ensures TrimWith(TrimWith(s, drop), drop) == TrimWith(s, drop)
  {
    var t := TrimWith(s, drop);
    assert IsTrimAt(t, t, 0, drop);
    TrimUnique(t, t, 0, drop);
  }

  /** PHP's `trim($s)` with the default character set. */
  function Trim(s: string): string {
    TrimWith(s, IsTrimSpace)
  }

  /* filter_var($v, FILTER_VALIDATE_BOOLEAN) */

  /** The strings the boolean filter maps to true, once trimmed and lower-cased. */
  const AcceptedBooleans: set<string> := {"1", "true", "on", "yes"}

  /**
   * `filter_var($v, FILTER_VALIDATE_BOOLEAN)` without FILTER_NULL_ON_FAILURE:
   * a scalar is converted to a string, trimmed and compared case-insensitively
   * with "1", "true", "on" and "yes"; every other string, and every array, gives false.
   */
  function FilterValidateBoolean(v: Value): bool {
    !v.Arr? && Lower(TrimWith(ToStr(v), IsFilterSpace)) in AcceptedBooleans
  }

  lemma LowerCharKeepsFilterSpace(c: char)
    ensures IsFilterSpace(LowerChar(c)) == IsFilterSpace(c)
  {
  }

  /** Lower-casing neither creates nor removes filter spaces. */
  lemma LowerKeepsFilterSpaces(s: string)
    ensures |Lower(s)| == |s|
    ensures forall k :: 0 <= k < |s| ==> IsFilterSpace(Lower(s)[k]) == IsFilterSpace(s[k])
  {
    forall k | 0 <= k < |s| ensures IsFilterSpace(Lower(s)[k]) == IsFilterSpace(s[k]) {
      LowerCharKeepsFilterSpace(s[k]);
    }
  }

  lemma LowerSlice(s: string, i: int, j: int)
    requires 0 <= i <= j <= |s|
    ensures Lower(s[i..j]) == Lower(s)[i..j]
  {
  }

  /** Lower-casing a trimmed infix gives a trimmed infix of the lower-cased string. */
  lemma LowerKeepsTrimShape(r: string, s: string, i: int)
    requires IsTrimAt(r, s, i, IsFilterSpace)
    ensures IsTrimAt(Lower(r), Lower(s), i, IsFilterSpace)
  {
    LowerKeepsFilterSpaces(s);
    LowerKeepsFilterSpaces(r);
    LowerSlice(s, i, i + |r|);
  }

  /** Lower-casing commutes with the filter's trimming. */
  lemma {:induction false} LowerTrimCommute(s: string)
    ensures Lower(TrimWith(s, IsFilterSpace)) == TrimWith(Lower(s), IsFilterSpace)
  {
    var i := LeadingCount(s, IsFilterSpace);
    LowerKeepsTrimShape(TrimWith(s, IsFilterSpace), s, i);
    TrimUnique(Lower(TrimWith(s, IsFilterSpace)), Lower(s), i, IsFilterSpace);
  }

  lemma {:induction false} LowerIdempotent(s: string)
    ensures Lower(Lower(s)) == Lower(s)
  {
  }

  /** The boolean filter ignores letter case. */
  lemma FilterValidateBooleanIgnoresCase(s: string)
    ensures FilterValidateBoolean(Str(Lower(s))) == FilterValidateBoolean(Str(s))
  {
    LowerTrimCommute(s);
    LowerTrimCommute(Lower(s));
    LowerIdempotent(TrimWith(Lower(s), IsFilterSpace));
    LowerIdempotent(s);
  }

  /** A string with no filter space at either end is its own trim. */
  lemma FilterTrimKeeps(s: string)
    requires s != [] && !IsFilterSpace(s[0]) && !IsFilterSpace(s[|s| - 1])
    ensures TrimWith(s, IsFilterSpace) == s
  {
    assert IsTrimAt(s, s, 0, IsFilterSpace);
    TrimUnique(s, s, 0, IsFilterSpace);
  }

  /** The canonical stored forms "1" and "0", and the booleans themselves. */
  lemma FilterValidateBooleanOnCanonical()
    ensures FilterValidateBoolean(Str("1")) && !FilterValidateBoolean(Str("0"))
    ensures FilterValidateBoolean(Bool(true)) && !FilterValidateBoolean(Bool(false))
    ensures !FilterValidateBoolean(Null)
  {
    FilterTrimKeeps("1");
    FilterTrimKeeps("0");
    assert ToStr(Bool(true)) == "1";
    assert ToStr(Bool(false)) == ToStr(Null) == "";
    assert Lower("1") == "1";
    assert Lower("0") == "0";
    assert Lower("") == "";
    assert "0" !in AcceptedBooleans && "" !in AcceptedBooleans;
  }
}
