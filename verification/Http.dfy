/** Optimistic versions: parsing If-Match and comparing it with the stored version (core/http.py). */
module Http {
  import opened Common

  const MAX_VERSION := 2147483647

  predicate Digit(c: char) { '0' <= c <= '9' }

  function DigitValue(c: char): nat
    requires Digit(c)
  {
    c as nat - '0' as nat
  }

  function DigitChar(d: nat): char
    requires d < 10
  {
    '0' + d as char
  }

  predicate Digits(s: string) { forall i :: 0 <= i < |s| ==> Digit(s[i]) }

  function Parse(s: string): nat
    requires Digits(s)
  {
    if s == [] then 0 else 10 * Parse(s[..|s| - 1]) + DigitValue(s[|s| - 1])
  }

  /** Decimal rendering of a positive version, as the ETag header carries it. */
  function Decimal(n: nat): (s: string)
    ensures Digits(s)
  {
    if n == 0 then "" else Decimal(n / 10) + [DigitChar(n % 10)]
  }

  function ETag(version: nat): string { "\"" + Decimal(version) + "\"" }

  /** `"([1-9][0-9]{0,9})"`, matched in full; yields the digits. */
  function MatchVersion(value: string): Option<string> {
    if 3 <= |value| <= 12 && value[0] == '"' && value[|value| - 1] == '"'
       && Digits(value[1..|value| - 1]) && value[1] != '0'
    then Some(value[1..|value| - 1])
    else None
  }

  function RequireVersion(value: Option<string>, current: nat): Check {
    if value.None? then Fail(AppError(428, "PRECONDITION_REQUIRED"))
    else
      var digits := MatchVersion(value.value);
      if digits.None? || Parse(digits.value) > MAX_VERSION then Fail(AppError(400, "INVALID_ETAG"))
      else if Parse(digits.value) != current then Fail(AppError(412, "VERSION_CONFLICT"))
      else Pass
  }

  lemma {:induction false} ParseDecimal(n: nat)
    ensures Parse(Decimal(n)) == n
    ensures n > 0 ==> Decimal(n) != "" && Decimal(n)[0] != '0'
  {
    if n > 0 {
      ParseDecimal(n / 10);
      var s := Decimal(n);
      assert s[..|s| - 1] == Decimal(n / 10);
    }
  }

  lemma DecimalStep(n: nat, c: char)
    requires Digit(c) && 10 * n + DigitValue(c) > 0
    ensures Decimal(10 * n + DigitValue(c)) == Decimal(n) + [c]
  {
    var m := 10 * n + DigitValue(c);
    assert m / 10 == n && m % 10 == DigitValue(c);
    assert DigitChar(DigitValue(c)) == c;
  }

  lemma {:induction false} DecimalParse(s: string)
    requires s != "" && Digits(s) && s[0] != '0'
    ensures Parse(s) > 0 && Decimal(Parse(s)) == s
  {
    var init, last := s[..|s| - 1], s[|s| - 1];
    assert s == init + [last];
    assert Parse(s) == 10 * Parse(init) + DigitValue(last);
    if init == "" {
      assert last == s[0] && Decimal(Parse(init)) == init;
    } else {
      assert Digits(init) && init[0] == s[0];
      DecimalParse(init);
    }
    DecimalStep(Parse(init), last);
  }

  lemma {:induction false} DecimalLength(n: nat, k: nat)
    requires n < Power10(k)
    ensures |Decimal(n)| <= k
  {
    if n > 0 {
      assert k > 0;
      DecimalLength(n / 10, k - 1);
    }
  }

  function Power10(k: nat): nat { if k == 0 then 1 else 10 * Power10(k - 1) }

  predicate Version(v: nat) { 1 <= v <= MAX_VERSION }

  lemma ETagParses(v: nat)
    requires Version(v)
    ensures MatchVersion(ETag(v)) == Some(Decimal(v)) && Parse(Decimal(v)) == v
  {
    ParseDecimal(v);
    assert Power10(10) == 10000000000 by {
      assert Power10(5) == 100000;
    }
    DecimalLength(v, 10);
    assert ETag(v)[1..|ETag(v)| - 1] == Decimal(v);
  }

  lemma Quoted(value: string)
    requires |value| >= 2 && value[0] == '"' && value[|value| - 1] == '"'
    ensures value == "\"" + value[1..|value| - 1] + "\""
  {
  }

  /** Every header the pattern and range accept is the ETag of one version. */
  lemma MatchedIsETag(value: string)
    requires MatchVersion(value).Some? && Parse(MatchVersion(value).value) <= MAX_VERSION
    ensures Version(Parse(MatchVersion(value).value)) && value == ETag(Parse(MatchVersion(value).value))
  {
    var digits := value[1..|value| - 1];
    assert digits[0] == value[1];
    DecimalParse(digits);
    Quoted(value);
  }

  /** 428 for a missing header, success for the current version's ETag, 412 for another version's, 400 for the rest. */
  lemma RequireVersionExact(value: Option<string>, current: nat)
    ensures RequireVersion(value, current).Pass? <==> Version(current) && value == Some(ETag(current))
    ensures RequireVersion(value, current) == Fail(AppError(428, "PRECONDITION_REQUIRED")) <==> value.None?
    ensures RequireVersion(value, current) == Fail(AppError(412, "VERSION_CONFLICT"))
       <==> exists v: nat :: Version(v) && v != current && value == Some(ETag(v))
  {
    if value.Some? && MatchVersion(value.value).Some? && Parse(MatchVersion(value.value).value) <= MAX_VERSION {
      MatchedIsETag(value.value);
    }
    forall v: nat | Version(v) && value == Some(ETag(v))
      ensures MatchVersion(value.value) == Some(Decimal(v)) && Parse(Decimal(v)) == v
    {
      ETagParses(v);
    }
  }

  lemma ETagInjective(a: nat, b: nat)
    requires ETag(a) == ETag(b)
    ensures a == b
  {
    assert ETag(a)[1..|ETag(a)| - 1] == Decimal(a) && ETag(b)[1..|ETag(b)| - 1] == Decimal(b);
    ParseDecimal(a);
    ParseDecimal(b);
  }
}
