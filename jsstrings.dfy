/**
 * The parts of JavaScript's string and number library that the application's
 * logic depends on, following the ECMAScript Language Specification:
 * `String.prototype.trim` (section 22.1.3.32), `String.prototype.includes`,
 * `parseInt` with no radix (section 19.2.5), `Number.prototype.toString` on
 * integers, `Math.round` (section 21.3.2.28), `split('T')[0]` and the default
 * comparison of `Array.prototype.sort` on strings.
 */
module JsStrings {
  import opened Wrappers

  /** The WhiteSpace and LineTerminator code points that `trim` and `parseInt` skip. */
  predicate IsWhiteSpace(c: char) {
    || c == '\t' || c == '\n' || c == '\U{000B}' || c == '\U{000C}' || c == '\r'
    || c == ' ' || c == '\U{00A0}' || c == '\U{1680}'
    || ('\U{2000}' <= c <= '\U{200A}')
    || c == '\U{2028}' || c == '\U{2029}' || c == '\U{202F}' || c == '\U{205F}'
    || c == '\U{3000}' || c == '\U{FEFF}'
  }

  predicate IsBlank(s: string) {
    forall i :: 0 <= i < |s| ==> IsWhiteSpace(s[i])
  }

  /** `s` without its leading white space. */
  function TrimStart(s: string): (r: string)
    ensures |r| <= |s| && r == s[|s| - |r|..]
    ensures IsBlank(s[..|s| - |r|])
    ensures r != [] ==> !IsWhiteSpace(r[0])
  {
    if s != [] && IsWhiteSpace(s[0]) then
      var r := TrimStart(s[1..]);
      assert s[..|s| - |r|] == [s[0]] + s[1..][..|s| - 1 - |r|];
      r
    else s
  }

  /** `s` without its trailing white space. */
  function TrimEnd(s: string): (r: string)
    ensures |r| <= |s| && r == s[..|r|]
    ensures IsBlank(s[|r|..])
    ensures r != [] ==> !IsWhiteSpace(r[|r| - 1])
  {
    if s != [] && IsWhiteSpace(s[|s| - 1]) then
      var r := TrimEnd(s[..|s| - 1]);
      assert s[|r|..] == s[..|s| - 1][|r|..] + [s[|s| - 1]];
      r
    else s
  }

  /** `String.prototype.trim`. */
  function Trim(s: string): string {
    TrimEnd(TrimStart(s))
  }

  /** `s.trim() === ''` exactly when every character of `s` is white space. */
  lemma TrimEmptyIffBlank(s: string)
    ensures Trim(s) == "" <==> IsBlank(s)
  {
    var t := TrimStart(s);
    if Trim(s) == "" {
      assert t[0..] == t;
      assert s[..|s|] == s;
    }
  }

  /** Computes `s.trim() === ''`; callers see only that this is `IsBlank(s)`. */
  method TrimmedIsEmpty(s: string) returns (b: bool)
    ensures b <==> IsBlank(s)
  {
    b := Trim(s) == "";
    TrimEmptyIffBlank(s);
  }

  predicate IsPrefix(p: string, s: string) {
    |p| <= |s| && s[..|p|] == p
  }

  /** `sub` occurs in `s` starting at index `i`. */
  predicate OccursAt(s: string, sub: string, i: int) {
    0 <= i && i + |sub| <= |s| && s[i..i + |sub|] == sub
  }

  /** `s.includes(sub)`. */
  function Includes(s: string, sub: string): (r: bool)
    ensures r <==> exists i :: OccursAt(s, sub, i)
  {
    if IsPrefix(sub, s) then
      assert OccursAt(s, sub, 0);
      true
    else if s == [] then
      false
    else
      OccursInTail(s, sub);
      Includes(s[1..], sub)
  }

  /** When `sub` is not a prefix of `s`, it occurs in `s` exactly when it occurs in `s[1..]`. */
  lemma OccursInTail(s: string, sub: string)
    requires s != [] && !IsPrefix(sub, s)
    ensures (exists i :: OccursAt(s, sub, i)) <==> exists j :: OccursAt(s[1..], sub, j)
  {
    var t := s[1..];
    forall i | OccursAt(s, sub, i)
      ensures OccursAt(t, sub, i - 1)
    {
      assert i != 0;
      assert s[i..i + |sub|] == t[i - 1..i - 1 + |sub|];
    }
    forall j | OccursAt(t, sub, j)
      ensures OccursAt(s, sub, j + 1)
    {
      assert s[j + 1..j + 1 + |sub|] == t[j..j + |sub|];
    }
  }

  // ---- numbers -----------------------------------------------------------

  function DigitValue(c: char): (d: nat)
    ensures d < 16
  {
    if '0' <= c <= '9' then c as int - '0' as int
    else if 'a' <= c <= 'f' then c as int - 'a' as int + 10
    else if 'A' <= c <= 'F' then c as int - 'A' as int + 10
    else 0
  }

  /** A digit of `radix` 10 or 16. */
  predicate IsDigit(c: char, radix: nat) {
    if radix == 16 then '0' <= c <= '9' || 'a' <= c <= 'f' || 'A' <= c <= 'F'
    else '0' <= c <= '9'
  }

  /** The longest prefix of `s` made of `radix` digits. */
  function LeadingDigits(s: string, radix: nat): (z: string)
    ensures IsPrefix(z, s)
    ensures forall i :: 0 <= i < |z| ==> IsDigit(z[i], radix)
    ensures |z| < |s| ==> !IsDigit(s[|z|], radix)
  {
    if s != [] && IsDigit(s[0], radix) then [s[0]] + LeadingDigits(s[1..], radix) else []
  }

  /** The value of the digit string `z` read in `radix`, most significant digit first. */
  function DigitsValue(z: string, radix: nat): nat {
    if z == [] then 0 else DigitsValue(z[..|z| - 1], radix) * radix + DigitValue(z[|z| - 1])
  }

  /**
   * `parseInt(s)` without a radix: skip leading white space, take an optional
   * sign, then read digits. `None` is `NaN` (no digits at all).
   */
  function ParseInt(s: string): Option<int> {
    ParseSigned(TrimStart(s))
  }

  /** An optional `-` or `+`, then the digits. */
  function ParseSigned(t: string): Option<int> {
    if t != [] && t[0] == '-' then
      match ParseDigits(t[1..])
      case Some(v) => Some(-v)
      case None => None
    else if t != [] && t[0] == '+' then ParseDigits(t[1..])
    else ParseDigits(t)
  }

  /** A `0x`/`0X` prefix selects radix 16, otherwise radix 10; the longest run of digits is read. */
  function ParseDigits(u: string): Option<int> {
    var hex := |u| >= 2 && u[0] == '0' && (u[1] == 'x' || u[1] == 'X');
    var radix := if hex then 16 else 10;
    var z := LeadingDigits(if hex then u[2..] else u, radix);
    if z == [] then None else Some(DigitsValue(z, radix))
  }

  /** `parseInt(x) || 1`: `NaN` and `0` (also `-0`) are falsy and become 1. */
  function ParsedOrOne(s: string): (n: int)
    ensures n != 0
    ensures ParseInt(s).Some? && ParseInt(s).value != 0 ==> n == ParseInt(s).value
    ensures ParseInt(s).None? || ParseInt(s) == Some(0) ==> n == 1
  {
    match ParseInt(s)
    case Some(v) => if v == 0 then 1 else v
    case None => 1
  }

  function DigitChar(d: nat): (c: char)
    requires d < 10
    ensures '0' <= c <= '9' && DigitValue(c) == d
  {
    ('0' as int + d) as char
  }

  /** Decimal rendering of a natural number, no leading zeros. */
  function NatToString(n: nat): (s: string)
    ensures s != []
    ensures forall i :: 0 <= i < |s| ==> '0' <= s[i] <= '9'
  {
    if n < 10 then [DigitChar(n)] else NatToString(n / 10) + [DigitChar(n % 10)]
  }

  /** `Number.prototype.toString()` of an integer (below 10^21, where JavaScript switches to exponent form). */
  function IntToString(n: int): (s: string)
    ensures s != []
  {
    if n < 0 then "-" + NatToString(-n) else NatToString(n)
  }

  lemma {:induction false} NatToStringValue(n: nat)
    ensures DigitsValue(NatToString(n), 10) == n
  {
    var s := NatToString(n);
    if n >= 10 {
      NatToStringValue(n / 10);
      assert s[..|s| - 1] == NatToString(n / 10);
    }
  }

  lemma {:induction false} LeadingDigitsAll(s: string, radix: nat)
    requires forall i :: 0 <= i < |s| ==> IsDigit(s[i], radix)
    ensures LeadingDigits(s, radix) == s
  {
    if s != [] {
      LeadingDigitsAll(s[1..], radix);
    }
  }

  lemma ParseDigitsOfNat(m: nat)
    ensures ParseDigits(NatToString(m)) == Some(m)
  {
    var u := NatToString(m);
    LeadingDigitsAll(u, 10);
    NatToStringValue(m);
    if |u| >= 2 {
      assert '0' <= u[1] <= '9';
    }
  }

  lemma TrimStartNoLeadingSpace(s: string)
    requires s != [] && (s[0] == '-' || '0' <= s[0] <= '9')
    ensures TrimStart(s) == s
  {
  }

  /** `parseInt(String(n)) === n`: the decimal rendering reads back as the same integer. */
  lemma ParseIntOfIntToString(n: int)
    ensures ParseInt(IntToString(n)) == Some(n)
  {
    if n < 0 {
      var digits := NatToString(-n);
      ParseDigitsOfNat(-n);
      var s := "-" + digits;
      TrimStartNoLeadingSpace(s);
      assert s[1..] == digits;
    } else {
      var digits := NatToString(n);
      ParseDigitsOfNat(n);
      TrimStartNoLeadingSpace(digits);
    }
  }

  /** `Math.round` on an exact real: the nearest integer, halves rounded up. */
  function Round(x: real): (n: int)
    ensures n as real - 0.5 <= x < n as real + 0.5
  {
    (x + 0.5).Floor
  }

  /** `s.split(c)[0]`: everything before the first `c`. */
  function BeforeFirst(s: string, c: char): (r: string)
    ensures IsPrefix(r, s) && c !in r
    ensures |r| < |s| ==> s[|r|] == c
  {
    if s == [] || s[0] == c then [] else [s[0]] + BeforeFirst(s[1..], c)
  }

  // ---- default string order of Array.prototype.sort ----------------------

  /** `a` sorts no later than `b`: compared character by character, a prefix first. */
  predicate LexLe(a: string, b: string) {
    a == [] || (b != [] && (a[0] < b[0] || (a[0] == b[0] && LexLe(a[1..], b[1..]))))
  }

  lemma {:induction false} LexLeTotal(a: string, b: string)
    ensures LexLe(a, b) || LexLe(b, a)
  {
    if a != [] && b != [] && a[0] == b[0] {
      LexLeTotal(a[1..], b[1..]);
    }
  }

  lemma {:induction false} LexLeTrans(a: string, b: string, c: string)
    requires LexLe(a, b) && LexLe(b, c)
    ensures LexLe(a, c)
  {
    if a != [] && a[0] == b[0] && b[0] == c[0] {
      LexLeTrans(a[1..], b[1..], c[1..]);
    }
  }

  lemma {:induction false} LexLeAntisym(a: string, b: string)
    requires LexLe(a, b) && LexLe(b, a)
    ensures a == b
  {
    if a != [] {
      LexLeAntisym(a[1..], b[1..]);
      assert a == [a[0]] + a[1..] && b == [b[0]] + b[1..];
    }
  }

  predicate Sorted(s: seq<string>) {
    forall i, j :: 0 <= i < j < |s| ==> LexLe(s[i], s[j])
  }

  function Insert(x: string, s: seq<string>): (r: seq<string>)
    requires Sorted(s)
    ensures Sorted(r)
    ensures multiset(r) == multiset(s) + multiset{x}
  {
    if s == [] then [x]
    else if LexLe(x, s[0]) then
      forall j | 0 <= j < |s| ensures LexLe(x, s[j]) {
        if j > 0 { LexLeTrans(x, s[0], s[j]); }
      }
      [x] + s
    else
      LexLeTotal(x, s[0]);
      var t := Insert(x, s[1..]);
      assert s == [s[0]] + s[1..];
      forall j | 0 <= j < |t| ensures LexLe(s[0], t[j]) {
        assert t[j] in multiset(t);
        assert t[j] == x || t[j] in multiset(s[1..]);
      }
      [s[0]] + t
  }

  /** `[...xs].sort()` on strings: the same elements in ascending order. */
  function SortStrings(s: seq<string>): (r: seq<string>)
    ensures Sorted(r)
    ensures multiset(r) == multiset(s)
  {
    if s == [] then []
    else
      assert s == [s[0]] + s[1..];
      Insert(s[0], SortStrings(s[1..]))
  }
}
