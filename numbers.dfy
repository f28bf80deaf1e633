/**
 * Decimal text and Go's `int`: the `strconv.Atoi` parse that every by-id handler
 * applies to its `:id` path parameter, and the `strconv.Itoa` rendering that the
 * update-query builder uses for its `$n` placeholders.
 */
module Numbers {
  import opened Wrappers

  /** Bounds of Go's `int` on the 64-bit platforms the service is deployed to. */
  const MaxInt: int := 0x7fff_ffff_ffff_ffff
  const MinInt: int := -0x8000_0000_0000_0000

  predicate IsDigit(c: char) {
    '0' <= c <= '9'
  }

  predicate AllDigits(s: string) {
    forall i :: 0 <= i < |s| ==> IsDigit(s[i])
  }

  function DigitValue(c: char): nat
    requires IsDigit(c)
  {
    c as int - '0' as int
  }

  function DigitChar(d: nat): (c: char)
    requires d < 10
    ensures IsDigit(c) && DigitValue(c) == d
  {
    ('0' as int + d) as char
  }

  /** The value of a string of decimal digits, most significant first. */
  function DigitsValue(s: string): nat
    requires AllDigits(s)
  {
    if s == [] then 0 else DigitsValue(s[..|s| - 1]) * 10 + DigitValue(s[|s| - 1])
  }

  /**
   * `strconv.Itoa` on a non-negative number: the shortest decimal rendering,
   * which reads back as the same number.
   */
  function Itoa(n: nat): (s: string)
    ensures |s| > 0 && AllDigits(s)
    ensures DigitsValue(s) == n
    ensures (s[0] == '0') == (n == 0)
  {
    if n < 10 then [DigitChar(n)]
    else
      var prefix := Itoa(n / 10);
      var s := prefix + [DigitChar(n % 10)];
      assert s[..|s| - 1] == prefix;
      s
  }

  predicate IsSign(c: char) {
    c == '+' || c == '-'
  }

  /** Decimal integer syntax: an optional sign, then at least one digit and nothing else. */
  predicate IntegerSyntax(s: string) {
    && |s| > 0
    && (IsDigit(s[0]) || IsSign(s[0]))
    && (forall i :: 1 <= i < |s| ==> IsDigit(s[i]))
    && (IsSign(s[0]) ==> |s| >= 2)
  }

  /** The value of text in integer syntax: the digits' value, negated after a `-`. */
  function SignedValue(s: string): int
    requires IntegerSyntax(s)
  {
    if s[0] == '-' then -(DigitsValue(s[1..]) as int)
    else if s[0] == '+' then DigitsValue(s[1..])
    else DigitsValue(s)
  }

  /**
   * `strconv.Atoi`: an optional `+` or `-` sign followed by one or more decimal
   * digits, whose value must fit in a Go `int`; anything else is an error (`None`).
   */
  function Atoi(s: string): (r: Option<int>)
    ensures r.Some? <==> IntegerSyntax(s) && MinInt <= SignedValue(s) <= MaxInt
    ensures r.Some? ==> r.value == SignedValue(s)
  {
    if s == [] then None
    else
      var digits := if s[0] == '-' || s[0] == '+' then s[1..] else s;
      if digits == [] || !AllDigits(digits) then None
      else
        var magnitude: int := DigitsValue(digits);
        var v := if s[0] == '-' then -magnitude else magnitude;
        if MinInt <= v <= MaxInt then Some(v) else None
  }

  /** Every id the service hands out renders as text that parses back to it. */
  lemma AtoiItoa(n: nat)
    requires n <= MaxInt
    ensures Atoi(Itoa(n)) == Some(n)
  {
  }

  /** A negative number written as a minus sign and its magnitude parses back, down to `MinInt`. */
  lemma AtoiNegativeItoa(n: nat)
    requires n <= -MinInt
    ensures Atoi("-" + Itoa(n)) == Some(-(n as int))
  {
    assert ("-" + Itoa(n))[1..] == Itoa(n);
  }

  /** An explicit plus sign changes nothing: `+n` parses to the same value as `n`. */
  lemma AtoiPlusSign(n: nat)
    requires n <= MaxInt
    ensures Atoi("+" + Itoa(n)) == Atoi(Itoa(n)) == Some(n)
  {
    assert ("+" + Itoa(n))[1..] == Itoa(n);
  }

  /** A parsed id only ever comes from a sign and digits: a letter anywhere after the sign is rejected. */
  lemma {:induction false} AtoiRejectsNonDigit(s: string, i: nat)
    requires 0 < i < |s| && !IsDigit(s[i])
    ensures Atoi(s) == None
  {
    var digits := if s[0] == '-' || s[0] == '+' then s[1..] else s;
    if digits != [] {
      var j := if s[0] == '-' || s[0] == '+' then i - 1 else i;
      assert digits[j] == s[i];
    }
  }
}
