/**
 * The JavaScript built-ins the voice-command core leans on, each stated over
 * exact values: String.prototype.toLowerCase (ASCII letters), Array.prototype.filter,
 * parseInt with radix 10, and Math.round.
 */
module JsBuiltins {
  import opened Wrappers

  // ---------------------------------------------------------------- toLowerCase

  predicate IsUpper(c: char) {
    'A' <= c <= 'Z'
  }

  function LowerChar(c: char): (d: char)
    ensures !IsUpper(d)
    ensures IsUpper(c) ==> d as int == c as int + 32
    ensures !IsUpper(c) ==> d == c
  {
    if IsUpper(c) then (c as int + 32) as char else c
  }

  /** `s.toLowerCase()`: every upper-case letter replaced by its lower-case form, nothing else touched. */
  function ToLower(s: string): (r: string)
    ensures |r| == |s|
    ensures forall i :: 0 <= i < |s| ==> r[i] == LowerChar(s[i])
  {
    if s == [] then [] else [LowerChar(s[0])] + ToLower(s[1..])
  }

  /** A string with no upper-case letter is its own lower-case form. */
  lemma ToLowerFixesLower(s: string)
    requires forall i :: 0 <= i < |s| ==> !IsUpper(s[i])
    ensures ToLower(s) == s
  {
  }

  /** Lower-casing twice is lower-casing once. */
  lemma ToLowerIdempotent(s: string)
    ensures ToLower(ToLower(s)) == ToLower(s)
  {
    ToLowerFixesLower(ToLower(s));
  }

  // ---------------------------------------------------------------- Array.prototype.filter

  /** `s.filter(keep)`: the elements of `s` that satisfy `keep`, in their order. */
  function Filter<T>(s: seq<T>, keep: T -> bool): (r: seq<T>)
    ensures |r| <= |s|
    ensures forall j :: 0 <= j < |r| ==> r[j] in s && keep(r[j])
    ensures forall i :: 0 <= i < |s| && keep(s[i]) ==> s[i] in r
  {
    if s == [] then []
    else (if keep(s[0]) then [s[0]] else []) + Filter(s[1..], keep)
  }

  /** Filtering keeps order: filtering a list with one more element at the end filters the rest, then judges that element. */
  lemma {:induction false} FilterAppend<T>(s: seq<T>, x: T, keep: T -> bool)
    ensures Filter(s + [x], keep) == Filter(s, keep) + (if keep(x) then [x] else [])
  {
    if s != [] {
      assert (s + [x])[0] == s[0];
      assert (s + [x])[1..] == s[1..] + [x];
      FilterAppend(s[1..], x, keep);
    }
  }

  /** The head of a filtered list is the first element that passes, and the list is empty when none passes. */
  lemma {:induction false} FilterHead<T>(s: seq<T>, keep: T -> bool)
    ensures |Filter(s, keep)| == 0 <==> forall i :: 0 <= i < |s| ==> !keep(s[i])
    ensures forall i :: 0 <= i < |s| && keep(s[i]) && (forall j :: 0 <= j < i ==> !keep(s[j])) ==>
              Filter(s, keep)[0] == s[i]
  {
    if s != [] {
      FilterHead(s[1..], keep);
      if !keep(s[0]) {
        forall i | 0 <= i < |s| && keep(s[i]) && (forall j :: 0 <= j < i ==> !keep(s[j]))
          ensures Filter(s, keep)[0] == s[i]
        {
          assert s[1..][i - 1] == s[i];
          forall j | 0 <= j < i - 1 ensures !keep(s[1..][j]) {
            assert s[1..][j] == s[j + 1];
          }
        }
        if forall i :: 0 <= i < |s[1..]| ==> !keep(s[1..][i]) {
          forall i | 0 <= i < |s| ensures !keep(s[i]) {
            if i > 0 { assert s[i] == s[1..][i - 1]; }
          }
        }
      }
    }
  }

  // ---------------------------------------------------------------- parseInt(s, 10)

  /** The characters parseInt skips before the number: white space, line terminators and space separators. */
  predicate IsJsWhiteSpace(c: char) {
    var n := c as int;
    n == 0x09 || n == 0x0A || n == 0x0B || n == 0x0C || n == 0x0D || n == 0x20 || n == 0xA0
    || n == 0x1680 || (0x2000 <= n <= 0x200A) || n == 0x2028 || n == 0x2029 || n == 0x202F
    || n == 0x205F || n == 0x3000 || n == 0xFEFF
  }

  predicate IsDigit(c: char) {
    '0' <= c <= '9'
  }

  function DigitValue(c: char): (d: nat)
    requires IsDigit(c)
    ensures d < 10
  {
    c as int - '0' as int
  }

  function DigitChar(d: nat): (c: char)
    requires d < 10
    ensures IsDigit(c) && DigitValue(c) == d
  {
    ('0' as int + d) as char
  }

  /** `s` without its leading white space. */
  function TrimStart(s: string): string {
    if s != [] && IsJsWhiteSpace(s[0]) then TrimStart(s[1..]) else s
  }

  /** Trimming keeps a suffix of the input and stops at the first character that is not white space. */
  lemma {:induction false} TrimStartIsSuffix(s: string)
    ensures |TrimStart(s)| <= |s| && TrimStart(s) == s[|s| - |TrimStart(s)|..]
    ensures TrimStart(s) == [] || !IsJsWhiteSpace(TrimStart(s)[0])
  {
    if s != [] && IsJsWhiteSpace(s[0]) {
      TrimStartIsSuffix(s[1..]);
      assert s[1..][|s| - 1 - |TrimStart(s)|..] == s[|s| - |TrimStart(s)|..];
    }
  }

  /** The longest prefix of `s` made of decimal digits. */
  function DigitPrefix(s: string): (r: string)
    ensures forall i :: 0 <= i < |r| ==> IsDigit(r[i])
  {
    if s == [] || !IsDigit(s[0]) then [] else [s[0]] + DigitPrefix(s[1..])
  }

  /** The digit prefix is a prefix, and the character after it, if any, is not a digit. */
  lemma {:induction false} DigitPrefixIsLongest(s: string)
    ensures |DigitPrefix(s)| <= |s|
    ensures DigitPrefix(s) == s[..|DigitPrefix(s)|]
    ensures |DigitPrefix(s)| < |s| ==> !IsDigit(s[|DigitPrefix(s)|])
  {
    if s != [] && IsDigit(s[0]) {
      DigitPrefixIsLongest(s[1..]);
      assert s[1..][..|DigitPrefix(s)| - 1] == s[1..|DigitPrefix(s)|];
    }
  }

  /** The number a string of decimal digits denotes, most significant digit first. */
  function DigitsValue(ds: string): nat
    requires forall i :: 0 <= i < |ds| ==> IsDigit(ds[i])
  {
    if ds == [] then 0 else DigitsValue(ds[..|ds| - 1]) * 10 + DigitValue(ds[|ds| - 1])
  }

  /**
   * `parseInt(s, 10)`: skip leading white space, read an optional sign, then the longest run
   * of decimal digits; `None` stands for NaN, the result when there is no digit.
   */
  function ParseInt(s: string): (r: Option<int>)
    ensures r.None? <==> |DigitPrefix(SignStripped(TrimStart(s)))| == 0
  {
    var t := TrimStart(s);
    var digits := DigitPrefix(SignStripped(t));
    if |digits| == 0 then None
    else if |t| > 0 && t[0] == '-' then Some(-(DigitsValue(digits) as int))
    else Some(DigitsValue(digits))
  }

  function SignStripped(t: string): string {
    if |t| > 0 && (t[0] == '-' || t[0] == '+') then t[1..] else t
  }

  /** The decimal numeral of `n`, without leading zeros. */
  function NatToString(n: nat): (s: string)
    ensures |s| > 0 && forall i :: 0 <= i < |s| ==> IsDigit(s[i])
  {
    if n < 10 then [DigitChar(n)] else NatToString(n / 10) + [DigitChar(n % 10)]
  }

  /** The decimal numeral of `n`, with a leading `-` when it is negative. */
  function IntToString(n: int): (s: string)
    ensures |s| > 0
  {
    if n < 0 then "-" + NatToString(-n) else NatToString(n)
  }

  lemma {:induction false} NatToStringValue(n: nat)
    ensures DigitsValue(NatToString(n)) == n
  {
    if n >= 10 {
      var s := NatToString(n);
      assert s[..|s| - 1] == NatToString(n / 10);
      NatToStringValue(n / 10);
    }
  }

  lemma {:induction false} DigitPrefixOfDigits(s: string)
    requires forall i :: 0 <= i < |s| ==> IsDigit(s[i])
    ensures DigitPrefix(s) == s
  {
    if s != [] {
      DigitPrefixOfDigits(s[1..]);
    }
  }

  /** parseInt reads back every integer's numeral: the two are inverse. */
  lemma ParseIntRoundTrip(n: int)
    ensures ParseInt(IntToString(n)) == Some(n)
  {
    if n < 0 {
      assert IntToString(n) == "-" + NatToString(-n);
      ParseNegativeNumeral(-n);
    } else {
      assert IntToString(n) == NatToString(n);
      ParseNaturalNumeral(n);
    }
  }

  /** A numeral, with or without a leading minus, has no white space to skip. */
  lemma NumeralIsTrimmed(s: string)
    requires |s| > 0 && (s[0] == '-' || IsDigit(s[0]))
    ensures TrimStart(s) == s
  {
  }

  /** A run of digits parses to the number it denotes. */
  lemma ParseDigits(digits: string)
    requires |digits| > 0 && forall i :: 0 <= i < |digits| ==> IsDigit(digits[i])
    ensures ParseInt(digits) == Some(DigitsValue(digits))
  {
    var t := TrimStart(digits);
    assert t == digits by { NumeralIsTrimmed(digits); }
    assert SignStripped(t) == digits by { assert IsDigit(t[0]); }
    assert DigitPrefix(digits) == digits by { DigitPrefixOfDigits(digits); }
    assert t[0] != '-' by { assert IsDigit(digits[0]); }
  }

  /** A minus sign followed by a run of digits parses to the negated number. */
  lemma ParseMinusDigits(digits: string)
    requires |digits| > 0 && forall i :: 0 <= i < |digits| ==> IsDigit(digits[i])
    ensures ParseInt("-" + digits) == Some(-(DigitsValue(digits) as int))
  {
    var s := "-" + digits;
    assert s[0] == '-';
    NumeralIsTrimmed(s);
    assert SignStripped(s) == s[1..] == digits;
    DigitPrefixOfDigits(digits);
  }

  lemma ParseNaturalNumeral(m: nat)
    ensures ParseInt(NatToString(m)) == Some(m)
  {
    ParseDigits(NatToString(m));
    NatToStringValue(m);
  }

  lemma ParseNegativeNumeral(m: nat)
    requires m > 0
    ensures ParseInt("-" + NatToString(m)) == Some(-(m as int))
  {
    ParseMinusDigits(NatToString(m));
    NatToStringValue(m);
  }

  /** A numeral has no upper-case letter, so lower-casing it first changes nothing. */
  lemma IntToStringIsLower(n: int)
    ensures ToLower(IntToString(n)) == IntToString(n)
  {
    ToLowerFixesLower(IntToString(n));
  }

  // ---------------------------------------------------------------- Math.round

  /** `Math.round(x)`: the nearest integer, halves rounded up. */
  function Round(x: real): (r: int)
    ensures r as real - 0.5 <= x < r as real + 0.5
  {
    (x + 0.5).Floor
  }

  /** A real number has exactly one nearest integer in the sense of `Round`. */
  lemma RoundUnique(x: real, n: int)
    requires n as real - 0.5 <= x < n as real + 0.5
    ensures Round(x) == n
  {
  }
}
