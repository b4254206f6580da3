/** The two textual conversions of amounts the adapter relies on, ethers'
    formatUnits and parseUnits: the watchers report base units through the
    first, and every reader of such a report goes through the second. */
module Amounts {
  import opened Wrappers

  predicate IsDigit(c: char) { '0' <= c <= '9' }

  predicate AllDigits(s: string) { forall i :: 0 <= i < |s| ==> IsDigit(s[i]) }

  predicate AllZeros(s: string) { forall i :: 0 <= i < |s| ==> s[i] == '0' }

  function DigitValue(c: char): nat requires IsDigit(c) { c as int - '0' as int }

  function DigitChar(d: nat): (c: char)
    requires d < 10
    ensures IsDigit(c) && DigitValue(c) == d
  {
    (d + '0' as int) as char
  }

  /** The number a string of digits writes. */
  function Value(s: string): nat
    requires AllDigits(s)
  {
    if s == "" then 0 else 10 * Value(s[..|s| - 1]) + DigitValue(s[|s| - 1])
  }

  /** The decimal digits of a number, without leading zeros. */
  function Digits(n: nat): (s: string)
    ensures s != "" && AllDigits(s) && Value(s) == n
  {
    if n < 10 then [DigitChar(n)] else Digits(n / 10) + [DigitChar(n % 10)]
  }

  function Zeros(n: nat): (s: string)
    ensures |s| == n && AllZeros(s)
  {
    seq(n, _ => '0')
  }

  /** ethers prepends zeros by the eighty until a whole digit is there. */
  function PadLeft(s: string, decimals: nat): string
    decreases decimals - |s|
  {
    if |s| > decimals then s else PadLeft(Zeros(80) + s, decimals)
  }

  function TrimLeading(whole: string): string {
    if |whole| > 1 && whole[0] == '0' then TrimLeading(whole[1..]) else whole
  }

  function TrimTrailing(fraction: string): string {
    if |fraction| > 1 && fraction[|fraction| - 1] == '0' then TrimTrailing(fraction[..|fraction| - 1]) else fraction
  }

  function Abs(v: int): nat { if v < 0 then -v else v }

  function Signed(negative: bool, n: nat): int { if negative then 0 - n else n }

  /** formatUnits(value, decimals). */
  function FormatUnits(value: int, decimals: nat): string {
    if value < 0 then "-" + FormatUnsigned(Abs(value), decimals) else FormatUnsigned(Abs(value), decimals)
  }

  function FormatUnsigned(n: nat, decimals: nat): string {
    if decimals == 0 then Digits(n) else
    var padded := PadLeft(Digits(n), decimals);
    PaddedLongEnough(Digits(n), decimals);
    Pointed(padded, decimals)
  }

  /** The padded digits, split at the point and trimmed on both sides. */
  function Pointed(padded: string, decimals: nat): string
    requires |padded| > decimals
  {
    TrimLeading(padded[..|padded| - decimals]) + ("." + TrimTrailing(padded[|padded| - decimals..]))
  }

  lemma {:induction false} PaddedLongEnough(s: string, decimals: nat)
    ensures |PadLeft(s, decimals)| > decimals
    decreases decimals - |s|
  {
    if |s| <= decimals {
      PaddedLongEnough(Zeros(80) + s, decimals);
    }
  }

  /** The length of the longest run of digits a string starts with. */
  function DigitRun(s: string): (n: nat)
    ensures n <= |s| && AllDigits(s[..n]) && (n < |s| ==> !IsDigit(s[n]))
  {
    if s == "" || !IsDigit(s[0]) then 0 else 1 + DigitRun(s[1..])
  }

  function PadRight(s: string, decimals: nat): string
    decreases decimals - |s|
  {
    if |s| >= decimals then s else PadRight(s + Zeros(80), decimals)
  }

  lemma {:induction false} PadRightIs(s: string, decimals: nat)
    ensures |PadRight(s, decimals)| >= decimals && s <= PadRight(s, decimals)
    ensures AllZeros(PadRight(s, decimals)[|s|..])
    ensures AllDigits(s) ==> AllDigits(PadRight(s, decimals))
    decreases decimals - |s|
  {
    if |s| < decimals {
      PadRightIs(s + Zeros(80), decimals);
      var p := PadRight(s + Zeros(80), decimals);
      forall i | |s| <= i < |p|
        ensures p[i] == '0'
      {
        if i < |s| + 80 {
          assert p[i] == (s + Zeros(80))[i];
        } else {
          assert p[i] == p[|s| + 80..][i - |s| - 80];
        }
      }
    }
  }

  /** parseUnits(text, decimals): an optional minus, digits, at most one point,
      digits; more fraction digits than decimals only if they are zeros. */
  function ParseUnits(text: string, decimals: nat): Result<int> {
    if text != "" && text[0] == '-' then
      var n :- ParseUnsigned(text[1..], decimals);
      Ok(Signed(true, n))
    else
      var n :- ParseUnsigned(text, decimals);
      Ok(Signed(false, n))
  }

  function ParseUnsigned(body: string, decimals: nat): Result<nat> {
    var w := DigitRun(body);
    var rest := body[w..];
    var fraction := if rest != "" && rest[0] == '.' then rest[1..] else rest;
    if DigitRun(fraction) != |fraction| || w + |fraction| == 0 then Err("invalid FixedNumber string value")
    else ScaleUp(body[..w], fraction, decimals)
  }

  /** The base units of a whole part and a fraction. */
  function ScaleUp(whole: string, fraction: string, decimals: nat): Result<nat>
    requires AllDigits(whole) && AllDigits(fraction)
  {
    PadRightIs(fraction, decimals);
    var padded := PadRight(fraction, decimals);
    if !AllZeros(padded[decimals..]) then Err("too many decimals for format")
    else Ok(Value(whole + padded[..decimals]))
  }

  /* ---- the round trip ---- */

  /** What precedes a suffix matters only by its value. */
  lemma {:induction false} ValueOfPrefix(a: string, b: string, suffix: string)
    requires AllDigits(a) && AllDigits(b) && AllDigits(suffix) && Value(a) == Value(b)
    ensures AllDigits(a + suffix) && AllDigits(b + suffix) && Value(a + suffix) == Value(b + suffix)
  {
    if suffix == "" {
      assert a + suffix == a && b + suffix == b;
    } else {
      var init := suffix[..|suffix| - 1];
      ValueOfPrefix(a, b, init);
      assert (a + suffix)[..|a + suffix| - 1] == a + init;
      assert (b + suffix)[..|b + suffix| - 1] == b + init;
    }
  }

  lemma {:induction false} ValueOfZeros(s: string)
    requires AllZeros(s)
    ensures AllDigits(s) && Value(s) == 0
  {
    if s != "" {
      ValueOfZeros(s[..|s| - 1]);
    }
  }

  lemma LeadingZerosFree(z: string, s: string)
    requires AllZeros(z) && AllDigits(s)
    ensures AllDigits(z + s) && Value(z + s) == Value(s)
  {
    ValueOfZeros(z);
    ValueOfPrefix(z, "", s);
    assert "" + s == s;
  }

  lemma {:induction false} PadLeftKeepsValue(s: string, decimals: nat)
    requires AllDigits(s)
    ensures AllDigits(PadLeft(s, decimals)) && Value(PadLeft(s, decimals)) == Value(s)
    decreases decimals - |s|
  {
    if |s| <= decimals {
      LeadingZerosFree(Zeros(80), s);
      PadLeftKeepsValue(Zeros(80) + s, decimals);
    }
  }

  lemma {:induction false} TrimLeadingKeepsValue(s: string)
    requires AllDigits(s) && s != ""
    ensures AllDigits(TrimLeading(s)) && TrimLeading(s) != "" && Value(TrimLeading(s)) == Value(s)
  {
    if |s| > 1 && s[0] == '0' {
      LeadingZerosFree(s[..1], s[1..]);
      assert s[..1] + s[1..] == s;
      TrimLeadingKeepsValue(s[1..]);
    }
  }

  lemma {:induction false} TrimTrailingDropsZeros(s: string)
    requires AllDigits(s)
    ensures TrimTrailing(s) <= s && AllDigits(TrimTrailing(s)) && AllZeros(s[|TrimTrailing(s)|..])
    ensures s != "" ==> TrimTrailing(s) != ""
  {
    if |s| > 1 && s[|s| - 1] == '0' {
      var init := s[..|s| - 1];
      TrimTrailingDropsZeros(init);
      var t := TrimTrailing(init);
      assert s[|t|..] == init[|t|..] + "0";
    }
  }

  lemma {:induction false} RunEndsAt(digits: string, rest: string)
    requires AllDigits(digits) && (rest == "" || !IsDigit(rest[0]))
    ensures DigitRun(digits + rest) == |digits|
  {
    if digits == "" {
      assert digits + rest == rest;
    } else {
      RunEndsAt(digits[1..], rest);
      assert (digits + rest)[1..] == digits[1..] + rest;
    }
  }

  /** A trimmed fraction is padded back to what it was. */
  lemma ScalesBack(whole: string, fraction: string, kept: string)
    requires AllDigits(whole) && AllDigits(fraction)
    requires kept <= fraction && AllZeros(fraction[|kept|..])
    ensures ScaleUp(whole, kept, |fraction|) == Ok(Value(whole + fraction))
  {
    PadRightIs(kept, |fraction|);
    var padded := PadRight(kept, |fraction|);
    assert forall i :: |kept| <= i < |padded| ==> padded[i] == padded[|kept|..][i - |kept|];
    assert forall i :: |kept| <= i < |fraction| ==> fraction[i] == fraction[|kept|..][i - |kept|];
    assert padded[..|fraction|] == fraction;
  }

  /** Reading back digits, a point and a trimmed fraction. */
  lemma ParsesBack(whole: string, fraction: string, kept: string)
    requires AllDigits(whole) && whole != "" && AllDigits(fraction)
    requires kept <= fraction && kept != "" && AllZeros(fraction[|kept|..])
    ensures ParseUnsigned(whole + ("." + kept), |fraction|) == Ok(Value(whole + fraction))
  {
    var body := whole + ("." + kept);
    RunEndsAt(whole, "." + kept);
    assert body[|whole|..] == "." + kept && body[..|whole|] == whole;
    assert ("." + kept)[1..] == kept;
    RunEndsAt(kept, "");
    assert kept + "" == kept;
    ScalesBack(whole, fraction, kept);
  }

  lemma WholeParsesBack(digits: string)
    requires AllDigits(digits) && digits != ""
    ensures ParseUnsigned(digits, 0) == Ok(Value(digits))
  {
    RunEndsAt(digits, "");
    assert digits + "" == digits && digits[..|digits|] == digits;
    ScalesBack(digits, "", "");
  }

  lemma JoinedParsesBack(whole: string, fraction: string, trimmed: string, kept: string)
    requires AllDigits(whole) && AllDigits(fraction) && AllDigits(trimmed) && trimmed != "" && Value(trimmed) == Value(whole)
    requires kept <= fraction && kept != "" && AllZeros(fraction[|kept|..])
    ensures ParseUnsigned(trimmed + ("." + kept), |fraction|) == Ok(Value(whole + fraction))
  {
    ParsesBack(trimmed, fraction, kept);
    ValueOfPrefix(trimmed, whole, fraction);
  }

  lemma PointedParsesBack(padded: string, decimals: nat)
    requires AllDigits(padded) && |padded| > decimals > 0
    ensures ParseUnsigned(Pointed(padded, decimals), decimals) == Ok(Value(padded))
    ensures Pointed(padded, decimals) != "" && IsDigit(Pointed(padded, decimals)[0])
  {
    var whole, fraction := padded[..|padded| - decimals], padded[|padded| - decimals..];
    assert whole + fraction == padded;
    TrimLeadingKeepsValue(whole);
    TrimTrailingDropsZeros(fraction);
    JoinedParsesBack(whole, fraction, TrimLeading(whole), TrimTrailing(fraction));
  }

  lemma UnsignedRoundTrip(n: nat, decimals: nat)
    ensures FormatUnsigned(n, decimals) != "" && IsDigit(FormatUnsigned(n, decimals)[0])
    ensures ParseUnsigned(FormatUnsigned(n, decimals), decimals) == Ok(n)
  {
    var digits := Digits(n);
    if decimals == 0 {
      WholeParsesBack(digits);
    } else {
      PaddedLongEnough(digits, decimals);
      PadLeftKeepsValue(digits, decimals);
      PointedParsesBack(PadLeft(digits, decimals), decimals);
    }
  }

  lemma MinusParses(text: string, decimals: nat, n: nat)
    requires ParseUnsigned(text, decimals) == Ok(n)
    ensures ParseUnits("-" + text, decimals) == Ok(Signed(true, n))
  {
    assert ("-" + text)[1..] == text;
  }

  lemma PlusParses(text: string, decimals: nat, n: nat)
    requires ParseUnsigned(text, decimals) == Ok(n) && text != "" && IsDigit(text[0])
    ensures ParseUnits(text, decimals) == Ok(n)
  {
  }

  /** For every amount and every number of decimals, reading the text the
      adapter writes gives the amount back. */
  lemma AmountRoundTrip(value: int, decimals: nat)
    ensures ParseUnits(FormatUnits(value, decimals), decimals) == Ok(value)
  {
    UnsignedRoundTrip(Abs(value), decimals);
    if value < 0 {
      MinusParses(FormatUnsigned(Abs(value), decimals), decimals, Abs(value));
    } else {
      PlusParses(FormatUnsigned(Abs(value), decimals), decimals, Abs(value));
    }
  }

  /* ---- which texts are read, and which are written ---- */

  /** A whole part and a fraction are read exactly if the digits that base units
      have no room for are zeros, and then as the digits there is room for. */
  lemma ReadIff(whole: string, fraction: string, decimals: nat)
    requires AllDigits(whole) && AllDigits(fraction) && |whole| + |fraction| > 0
    ensures var r := ParseUnsigned(whole + ("." + fraction), decimals);
            && (r.Ok? <==> forall i :: decimals <= i < |fraction| ==> fraction[i] == '0')
            && (r.Ok? ==> r.value == Value(whole + if |fraction| < decimals then fraction + Zeros(decimals - |fraction|) else fraction[..decimals]))
  {
    var body := whole + ("." + fraction);
    RunEndsAt(whole, "." + fraction);
    assert body[|whole|..] == "." + fraction && body[..|whole|] == whole;
    assert ("." + fraction)[1..] == fraction;
    RunEndsAt(fraction, "");
    assert fraction + "" == fraction;
    ScaledIff(whole, fraction, decimals);
  }

  lemma ScaledIff(whole: string, fraction: string, decimals: nat)
    requires AllDigits(whole) && AllDigits(fraction)
    ensures var r := ScaleUp(whole, fraction, decimals);
            && (r.Ok? <==> forall i :: decimals <= i < |fraction| ==> fraction[i] == '0')
            && (r.Ok? ==> r.value == Value(whole + if |fraction| < decimals then fraction + Zeros(decimals - |fraction|) else fraction[..decimals]))
  {
    PadRightIs(fraction, decimals);
    var padded := PadRight(fraction, decimals);
    assert forall i :: |fraction| <= i < |padded| ==> padded[i] == padded[|fraction|..][i - |fraction|];
    assert forall i :: decimals <= i < |padded| ==> padded[i] == padded[decimals..][i - decimals];
    assert padded[..decimals] == if |fraction| < decimals then fraction + Zeros(decimals - |fraction|) else fraction[..decimals];
  }

  /** A number as ethers writes it: a minus exactly if it is negative, a whole part
      without needless zeros and, if there are decimals, a point and at least one
      and at most so many digits, without needless zeros at the end. */
  ghost predicate WrittenAs(text: string, negative: bool, decimals: nat, whole: string, fraction: string) {
    && AllDigits(whole) && whole != "" && (|whole| > 1 ==> whole[0] != '0')
    && AllDigits(fraction) && (decimals == 0 <==> fraction == "") && |fraction| <= decimals
    && (|fraction| > 1 ==> fraction[|fraction| - 1] != '0')
    && text == (if negative then "-" else "") + whole + (if decimals == 0 then "" else "." + fraction)
  }

  lemma {:induction false} DigitsLead(n: nat)
    ensures |Digits(n)| > 1 ==> Digits(n)[0] != '0'
    ensures n > 0 ==> Digits(n)[0] != '0'
  {
    if n >= 10 {
      DigitsLead(n / 10);
    }
  }

  lemma {:induction false} TrimLeadingLeads(s: string)
    ensures |TrimLeading(s)| > 1 ==> TrimLeading(s)[0] != '0'
  {
    if |s| > 1 && s[0] == '0' {
      TrimLeadingLeads(s[1..]);
    }
  }

  lemma {:induction false} TrimTrailingEnds(s: string)
    ensures |TrimTrailing(s)| > 1 ==> TrimTrailing(s)[|TrimTrailing(s)| - 1] != '0'
    ensures |TrimTrailing(s)| <= |s|
  {
    if |s| > 1 && s[|s| - 1] == '0' {
      TrimTrailingEnds(s[..|s| - 1]);
    }
  }

  lemma WholeWritten(digits: string)
    requires AllDigits(digits) && digits != "" && (|digits| > 1 ==> digits[0] != '0')
    ensures WrittenAs(digits, false, 0, digits, "")
  {
    assert digits == "" + digits + "";
  }

  lemma JoinedWritten(whole: string, fraction: string, decimals: nat)
    requires AllDigits(whole) && whole != "" && (|whole| > 1 ==> whole[0] != '0')
    requires AllDigits(fraction) && 0 < |fraction| <= decimals && (|fraction| > 1 ==> fraction[|fraction| - 1] != '0')
    ensures WrittenAs(whole + ("." + fraction), false, decimals, whole, fraction)
  {
    assert whole + ("." + fraction) == "" + whole + ("." + fraction);
  }

  lemma PointedWritten(padded: string, decimals: nat)
    requires AllDigits(padded) && |padded| > decimals > 0
    ensures WrittenAs(Pointed(padded, decimals), false, decimals,
                      TrimLeading(padded[..|padded| - decimals]), TrimTrailing(padded[|padded| - decimals..]))
  {
    var w, f := padded[..|padded| - decimals], padded[|padded| - decimals..];
    TrimLeadingKeepsValue(w);
    TrimLeadingLeads(w);
    TrimTrailingDropsZeros(f);
    TrimTrailingEnds(f);
    JoinedWritten(TrimLeading(w), TrimTrailing(f), decimals);
  }

  lemma UnsignedWritten(n: nat, decimals: nat) returns (whole: string, fraction: string)
    ensures WrittenAs(FormatUnsigned(n, decimals), false, decimals, whole, fraction)
  {
    if decimals == 0 {
      whole, fraction := Digits(n), "";
      DigitsLead(n);
      WholeWritten(Digits(n));
    } else {
      PaddedLongEnough(Digits(n), decimals);
      PadLeftKeepsValue(Digits(n), decimals);
      var padded := PadLeft(Digits(n), decimals);
      whole, fraction := TrimLeading(padded[..|padded| - decimals]), TrimTrailing(padded[|padded| - decimals..]);
      PointedWritten(padded, decimals);
    }
  }

  /** Every amount is written so; with AmountRoundTrip that settles the text. */
  lemma FormattedSo(value: int, decimals: nat) returns (whole: string, fraction: string)
    ensures WrittenAs(FormatUnits(value, decimals), value < 0, decimals, whole, fraction)
  {
    whole, fraction := UnsignedWritten(Abs(value), decimals);
    var tail := if decimals == 0 then "" else "." + fraction;
    assert "" + whole + tail == whole + tail;
    assert "-" + (whole + tail) == "-" + whole + tail;
  }

  /* ---- what a depositor is expected to send ---- */

  /** What `expectedAmount ? parseUnits(expectedAmount, decimals) : undefined`
      evaluates to: any amount will do, so many base units, or a thrown error. */
  datatype Expectation = Anything | Units(units: int) | Unreadable

  function Expect(expectedAmount: Option<string>, decimals: nat): Expectation {
    if expectedAmount.None? || expectedAmount.value == "" then Anything
    else match ParseUnits(expectedAmount.value, decimals)
         case Ok(units) => Units(units)
         case Err(_) => Unreadable
  }

  /** The amount is there, and nothing more has to be waited for. */
  predicate Satisfies(e: Expectation, amount: nat) {
    match e
    case Anything => true
    case Units(units) => amount >= units
    case Unreadable => false
  }

  /** A deposit announced with the text of some amount waits for that amount. */
  lemma ExpectsWhatItSays(amount: nat, decimals: nat)
    ensures Expect(Some(FormatUnits(amount, decimals)), decimals) == Units(amount)
  {
    AmountRoundTrip(amount, decimals);
    UnsignedRoundTrip(amount, decimals);
  }
}
