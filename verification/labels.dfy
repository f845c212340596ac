/** The financing label the core engine stores on every property: `"cash"`, or
    `f"{int(ltv * 100)}%_leverage"` for a leveraged one, and the parse back
    `float(label.replace("%_leverage", "")) / 100` used by the yield
    calculator. */
module Labels {
  import opened Wrappers
  import opened Numerics

  const CashLabel: string := "cash"
  const LeverageSuffix: string := "%_leverage"

  predicate IsDigit(c: char) {
    '0' <= c <= '9'
  }

  predicate AllDigits(s: string) {
    forall i :: 0 <= i < |s| ==> IsDigit(s[i])
  }

  function DigitChar(d: nat): (c: char)
    requires d < 10
    ensures IsDigit(c) && c as int - '0' as int == d
  {
    (d + '0' as int) as char
  }

  /** Decimal digits of a natural number, most significant first (`str(n)`). */
  function NatToDecimal(n: nat): (s: string)
    ensures |s| >= 1 && AllDigits(s)
  {
    if n < 10 then [DigitChar(n)] else NatToDecimal(n / 10) + [DigitChar(n % 10)]
  }

  /** `str(i)` for a Python int. */
  function IntToDecimal(i: int): (s: string)
    ensures |s| >= 1
    ensures forall k :: 0 <= k < |s| ==> s[k] != '%'
  {
    if i < 0 then "-" + NatToDecimal(-i) else NatToDecimal(i)
  }

  function ParseDigits(s: string): nat
    requires |s| >= 1 && AllDigits(s)
  {
    var last := (s[|s| - 1] as int - '0' as int);
    if |s| == 1 then last else 10 * ParseDigits(s[..|s| - 1]) + last
  }

  /** The integers `float()` reads back from `str(int)`: an optional minus
      sign followed by decimal digits. */
  function ParseInt(s: string): Option<int> {
    if |s| >= 2 && s[0] == '-' && AllDigits(s[1..]) then Some(0 - ParseDigits(s[1..]) as int)
    else if |s| >= 1 && AllDigits(s) then Some(ParseDigits(s))
    else None
  }

  /** `s.replace(pat, "")`: every non-overlapping occurrence, scanned from
      the left, is deleted. */
  function RemoveAll(s: string, pat: string): string
    requires |pat| > 0
    decreases |s|
  {
    if |s| == 0 then ""
    else if |pat| <= |s| && s[..|pat|] == pat then RemoveAll(s[|pat|..], pat)
    else [s[0]] + RemoveAll(s[1..], pat)
  }

  function EncodeLeverage(ltv: real): string {
    IntToDecimal(Trunc(ltv * 100.0)) + LeverageSuffix
  }

  function DecodeLeverage(name: string): Option<real> {
    match ParseInt(RemoveAll(name, LeverageSuffix))
    case Some(k) => Some(k as real / 100.0)
    case None => None
  }

  lemma {:induction false} ParseNatToDecimal(n: nat)
    ensures ParseDigits(NatToDecimal(n)) == n
  {
    if n >= 10 {
      var s := NatToDecimal(n);
      assert s[..|s| - 1] == NatToDecimal(n / 10);
      ParseNatToDecimal(n / 10);
    }
  }

  lemma ParseIntToDecimal(i: int)
    ensures ParseInt(IntToDecimal(i)) == Some(i)
  {
    if i < 0 {
      var s := IntToDecimal(i);
      assert s[1..] == NatToDecimal(-i);
      ParseNatToDecimal(-i);
    } else {
      ParseNatToDecimal(i);
    }
  }

  /** Removing the suffix from `prefix + suffix` gives back the prefix when the
      prefix has no `%` (so no occurrence can start inside it). */
  lemma {:induction false} RemoveSuffix(prefix: string)
    requires forall k :: 0 <= k < |prefix| ==> prefix[k] != '%'
    ensures RemoveAll(prefix + LeverageSuffix, LeverageSuffix) == prefix
    decreases |prefix|
  {
    var s := prefix + LeverageSuffix;
    if |prefix| == 0 {
      assert s == LeverageSuffix;
      assert s[..|LeverageSuffix|] == LeverageSuffix;
      assert s[|LeverageSuffix|..] == "";
    } else {
      assert s[0] == prefix[0] && s[0] != '%';
      assert s[..|LeverageSuffix|][0] == s[0];
      assert s[1..] == prefix[1..] + LeverageSuffix;
      RemoveSuffix(prefix[1..]);
      assert [prefix[0]] + prefix[1..] == prefix;
    }
  }

  /** Decoding an encoded label gives back the ratio truncated to whole
      percent. */
  lemma DecodeEncode(ltv: real)
    ensures DecodeLeverage(EncodeLeverage(ltv)) == Some(Trunc(ltv * 100.0) as real / 100.0)
  {
    var digits := IntToDecimal(Trunc(ltv * 100.0));
    RemoveSuffix(digits);
    ParseIntToDecimal(Trunc(ltv * 100.0));
  }

  /** For a non-negative ratio the decoded value is floor(100 * ltv) / 100:
      at most the true ratio and less than one percentage point below it. */
  lemma DecodeEncodeBounds(ltv: real)
    requires ltv >= 0.0
    ensures DecodeLeverage(EncodeLeverage(ltv)).Some?
    ensures DecodeLeverage(EncodeLeverage(ltv)).value == (ltv * 100.0).Floor as real / 100.0
    ensures ltv - 0.01 < DecodeLeverage(EncodeLeverage(ltv)).value <= ltv
  {
    DecodeEncode(ltv);
    TruncIsFloor(ltv * 100.0);
  }

  /** No encoded label can be mistaken for the cash label. */
  lemma EncodedIsNotCash(ltv: real)
    ensures EncodeLeverage(ltv) != CashLabel
  {
    var e := EncodeLeverage(ltv);
    assert e[|e| - 1] == 'e';
    assert |e| >= 11;
  }

  /** What the yield code reads back from an encoded label. */
  lemma EncodedFacts(ltv: real, tag: string)
    requires tag == EncodeLeverage(ltv)
    ensures tag != CashLabel
    ensures DecodeLeverage(tag) == Some(Trunc(ltv * 100.0) as real / 100.0)
  {
    DecodeEncode(ltv);
    EncodedIsNotCash(ltv);
  }
}
