/**
 * The Python values that `json()` hands to the bot, and the two Python
 * built-ins the bot applies to them: `type(v).__name__` and `str(v)`.
 */
module Json {

  /** A decoded JSON document. A JSON object becomes a Python dict, an array a list. */
  datatype JValue =
    | JNull
    | JBool(b: bool)
    | JNumber(n: int)
    | JString(str: string)
    | JArray(items: seq<JValue>)
    | JObject(fields: map<string, JValue>)

  /** The Python type name `json` gives each kind of value. */
  function TypeName(v: JValue): string {
    match v
    case JNull => "NoneType"
    case JBool(_) => "bool"
    case JNumber(_) => "int"
    case JString(_) => "str"
    case JArray(_) => "list"
    case JObject(_) => "dict"
  }

  /** Python's unhashable types: they cannot be looked up as a dict key. */
  predicate Unhashable(v: JValue) {
    v.JArray? || v.JObject?
  }

  function DigitChar(d: nat): (c: char)
    requires d < 10
    ensures '0' <= c <= '9' && c as int - '0' as int == d
  {
    ('0' as int + d) as char
  }

  /** The number a string of decimal digits denotes, most significant digit first. */
  function DigitsValue(s: string): int
    decreases |s|
  {
    if s == [] then 0 else DigitsValue(s[..|s| - 1]) * 10 + (s[|s| - 1] as int - '0' as int)
  }

  /** The number a decimal text with an optional leading minus sign denotes. */
  function IntValue(s: string): int {
    if 0 < |s| && s[0] == '-' then -DigitsValue(s[1..]) else DigitsValue(s)
  }

  /** A decimal numeral as Python writes one: digits only, no leading zero except in "0". */
  predicate Decimal(s: string) {
    && 0 < |s|
    && (forall i :: 0 <= i < |s| ==> '0' <= s[i] <= '9')
    && (|s| > 1 ==> s[0] != '0')
  }

  /** The decimal digits of `n`, most significant first, without leading zeros. */
  function NatToString(n: nat): (s: string)
    ensures 0 < |s|
    ensures forall i :: 0 <= i < |s| ==> '0' <= s[i] <= '9'
    ensures |s| > 1 ==> s[0] != '0'
    ensures DigitsValue(s) == n
    decreases n
  {
    if n < 10 then
      [DigitChar(n)]
    else
      var front := NatToString(n / 10);
      var last := DigitChar(n % 10);
      assert (front + [last])[..|front|] == front;
      front + [last]
  }

  /** A numeral whose first digit is not `0` denotes at least 1. */
  lemma {:induction false} LeadingDigitPositive(s: string)
    requires Decimal(s) && s[0] != '0'
    ensures DigitsValue(s) >= 1
    decreases |s|
  {
    if |s| > 1 {
      var front := s[..|s| - 1];
      assert front[0] == s[0];
      LeadingDigitPositive(front);
    }
  }

  /** Two numerals that denote the same number are the same text. */
  lemma {:induction false} DecimalUnique(a: string, b: string)
    requires Decimal(a) && Decimal(b) && DigitsValue(a) == DigitsValue(b)
    ensures a == b
    decreases |a|
  {
    if |a| > 1 {
      LeadingDigitPositive(a[..|a| - 1]);
    }
    if |b| > 1 {
      LeadingDigitPositive(b[..|b| - 1]);
    }
    if |a| > 1 && |b| > 1 {
      var fa, fb := a[..|a| - 1], b[..|b| - 1];
      assert fa[0] == a[0] && fb[0] == b[0];
      var da, db := a[|a| - 1] as int - '0' as int, b[|b| - 1] as int - '0' as int;
      assert DigitsValue(fa) * 10 + da == DigitsValue(fb) * 10 + db;
      assert da == db && DigitsValue(fa) == DigitsValue(fb);
      DecimalUnique(fa, fb);
      assert a == fa + [a[|a| - 1]] && b == fb + [b[|b| - 1]];
    }
  }

  /** `str(n)` is the one decimal numeral that denotes `n`. */
  lemma NatToStringUnique(n: nat, s: string)
    requires Decimal(s) && DigitsValue(s) == n
    ensures s == NatToString(n)
  {
    DecimalUnique(s, NatToString(n));
  }

  /** `str(i)` for a Python int: a minus sign for a negative `i`, then the numeral of `|i|`. */
  function IntToString(i: int): (s: string)
    ensures 0 < |s|
    ensures s[0] == '-' <==> i < 0
    ensures IntValue(s) == i
    ensures i >= 0 ==> s == NatToString(i)
    ensures i < 0 ==> s == "-" + NatToString(-i)
  {
    if i < 0 then
      var digits := NatToString(-i);
      assert ("-" + digits)[1..] == digits;
      "-" + digits
    else
      NatToString(i)
  }

  /**
   * `str(v)`, which is what an f-string inserts. Exact for strings, None,
   * booleans and integers; a list or dict is rendered by a fixed marker
   * (the repr of its items is not modelled).
   */
  function PyStr(v: JValue): (s: string)
    ensures v.JString? ==> s == v.str
    ensures v.JNull? ==> s == "None"
    ensures v.JBool? ==> s == if v.b then "True" else "False"
    ensures v.JNumber? ==> IntValue(s) == v.n && s == IntToString(v.n)
  {
    match v
    case JNull => "None"
    case JBool(b) => if b then "True" else "False"
    case JNumber(n) => IntToString(n)
    case JString(s) => s
    case JArray(_) => "[...]"
    case JObject(_) => "{...}"
  }

  /** Python's `pat in s` on two strings: `pat` occurs in `s` as a contiguous piece. */
  predicate Contains(s: string, pat: string)
    ensures pat <= s ==> Contains(s, pat)
    ensures Contains(s, pat) ==> |pat| <= |s|
    decreases |s|
  {
    pat <= s || (0 < |s| && Contains(s[1..], pat))
  }

  /** `pat` occurs in `s` starting at index `i`. */
  ghost predicate OccursAt(s: string, pat: string, i: int) {
    0 <= i && i + |pat| <= |s| && s[i..i + |pat|] == pat
  }

  /** `Contains` is substring search: some index of `s` starts a copy of `pat`. */
  lemma {:induction false} ContainsAt(s: string, pat: string)
    ensures Contains(s, pat) <==> exists i :: OccursAt(s, pat, i)
    decreases |s|
  {
    if pat <= s {
      assert OccursAt(s, pat, 0);
    } else if 0 < |s| {
      ContainsAt(s[1..], pat);
      if Contains(s[1..], pat) {
        var i :| OccursAt(s[1..], pat, i);
        assert s[i + 1..i + 1 + |pat|] == s[1..][i..i + |pat|];
        assert OccursAt(s, pat, i + 1);
      }
      if exists i :: OccursAt(s, pat, i) {
        var i :| OccursAt(s, pat, i);
        assert i != 0;
        assert s[1..][i - 1..i - 1 + |pat|] == s[i..i + |pat|];
        assert OccursAt(s[1..], pat, i - 1);
      }
    }
  }
}
