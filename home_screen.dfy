/** The balance headline of the home screen
    (packages/daimo-mobile/src/view/screen/HomeScreen.tsx, `TitleAmount`):
    a non-negative token balance in base units is cut down to
    `displayDecimals` decimals, printed, left-padded with zeros and split into
    a whole part and a fractional part. The rendering is outside the model. */
module HomeScreen {
  import opened Errors
  import opened Decimal

  const InvalidAmount: string := "Invalid amount"

  /** `BigInt(x)` of a fractional number throws a RangeError. */
  const NotAnInteger: string := "RangeError: not an integer"

  /** The two halves of the headline, shown as `dollars.cents`. */
  datatype Amount = Amount(dollars: string, cents: string)

  /** A JavaScript `slice` bound: a negative index counts from the end, and
      every index is clamped to the string. */
  function SliceIndex(i: int, len: nat): (k: nat)
    ensures k <= len
    ensures 0 <= i <= len ==> k == i
    ensures i < 0 && len + i >= 0 ==> k == len + i
  {
    if i < 0 then (if len + i < 0 then 0 else len + i)
    else if i > len then len
    else i
  }

  /** `s.slice(start, end)`. */
  function Slice(s: string, start: int, end: int): (r: string)
    ensures |r| <= |s|
  {
    var a := SliceIndex(start, |s|);
    var b := SliceIndex(end, |s|);
    if a < b then s[a..b] else []
  }

  /** `s.slice(start)`. */
  function SliceFrom(s: string, start: int): (r: string)
    ensures |r| <= |s|
  {
    Slice(s, start, |s|)
  }

  /** Slicing with a negative bound `-d` cuts at `d` from the end. */
  lemma SliceFromEnd(s: string, d: nat)
    requires 1 <= d <= |s|
    ensures Slice(s, 0, -(d as int)) == s[..|s| - d]
    ensures SliceFrom(s, -(d as int)) == s[|s| - d..]
  {
  }

  /** The balance in display units, truncated. */
  function Scaled(balance: nat, decimals: nat, displayDecimals: nat): nat
    requires displayDecimals <= decimals
  {
    var unit := Pow10(decimals - displayDecimals);
    DivNat(balance, unit)
  }

  /** Division of naturals, as bigint `/` on non-negative operands. */
  function DivNat(a: nat, b: nat): (q: nat)
    requires b > 0
    ensures q * b <= a < (q + 1) * b
  {
    a / b
  }

  /** The zero-padded digit text of the scaled balance. */
  function Padded(balance: nat, decimals: nat, displayDecimals: nat): (s: string)
    requires displayDecimals <= decimals
    ensures |s| >= displayDecimals + 1 && AllDigits(s)
  {
    var digits := NatToString(Scaled(balance, decimals, displayDecimals));
    var s := PadStart(digits, displayDecimals + 1, '0');
    assert forall i :: 0 <= i < |s| - |digits| ==> IsDigit(s[i]);
    assert forall i :: |s| - |digits| <= i < |s| ==> s[i] == digits[i - (|s| - |digits|)];
    s
  }

  /** `TitleAmount`. A negative balance, or fewer token decimals than
      display decimals (a fractional power of ten), throws. */
  function TitleAmount(balance: int, decimals: nat, displayDecimals: nat): (r: Result<Amount>)
    ensures r.Err? <==> balance < 0 || decimals < displayDecimals
    ensures balance < 0 ==> r.msg == InvalidAmount
  {
    if !(balance >= 0) then Err(InvalidAmount)
    else if decimals < displayDecimals then Err(NotAnInteger)
    else
      var dispStr := Padded(balance, decimals, displayDecimals);
      Ok(Amount(Slice(dispStr, 0, -(displayDecimals as int)), SliceFrom(dispStr, -(displayDecimals as int))))
  }

  /** With at least one display decimal, `cents` is the last
      `displayDecimals` digits, `dollars` the non-empty rest, and together
      they are the padded text. */
  lemma TitleAmountSplit(balance: nat, decimals: nat, displayDecimals: nat)
    requires 1 <= displayDecimals <= decimals
    ensures var a := TitleAmount(balance, decimals, displayDecimals).value;
      && |a.cents| == displayDecimals && |a.dollars| >= 1
      && a.dollars + a.cents == Padded(balance, decimals, displayDecimals)
  {
    var s := Padded(balance, decimals, displayDecimals);
    SliceFromEnd(s, displayDecimals);
  }

  /** Read back as numbers, the two halves give the scaled balance:
      `dollars * 10^displayDecimals + cents`. */
  lemma TitleAmountValue(balance: nat, decimals: nat, displayDecimals: nat)
    requires 1 <= displayDecimals <= decimals
    ensures var a := TitleAmount(balance, decimals, displayDecimals).value;
      && AllDigits(a.dollars) && AllDigits(a.cents)
      && DigitsValue(a.dollars) * Pow10(displayDecimals) + DigitsValue(a.cents)
         == Scaled(balance, decimals, displayDecimals)
  {
    var a := TitleAmount(balance, decimals, displayDecimals).value;
    var s := Padded(balance, decimals, displayDecimals);
    TitleAmountSplit(balance, decimals, displayDecimals);
    assert forall i :: 0 <= i < |a.dollars| ==> a.dollars[i] == s[i];
    assert forall i :: 0 <= i < |a.cents| ==> a.cents[i] == s[|a.dollars| + i];
    DigitsValueConcat(a.dollars, a.cents);
    PaddedValue(balance, decimals, displayDecimals);
  }

  /** Padding does not change the value of the digits. */
  lemma PaddedValue(balance: nat, decimals: nat, displayDecimals: nat)
    requires displayDecimals <= decimals
    ensures DigitsValue(Padded(balance, decimals, displayDecimals)) == Scaled(balance, decimals, displayDecimals)
  {
    var n := Scaled(balance, decimals, displayDecimals);
    var digits := NatToString(n);
    NatToStringValue(n);
    if |digits| < displayDecimals + 1 {
      var k := displayDecimals + 1 - |digits|;
      assert Padded(balance, decimals, displayDecimals) == seq(k, _ => '0') + digits;
      LeadingZerosValue(k, digits);
    }
  }

  /** The whole part has no superfluous leading zero: it starts with "0"
      only when it is exactly "0". */
  lemma DollarsHaveNoLeadingZero(balance: nat, decimals: nat, displayDecimals: nat)
    requires 1 <= displayDecimals <= decimals
    ensures var d := TitleAmount(balance, decimals, displayDecimals).value.dollars;
      |d| >= 1 && (d[0] == '0' ==> d == "0")
  {
    TitleAmountSplit(balance, decimals, displayDecimals);
    var n := Scaled(balance, decimals, displayDecimals);
    var digits := NatToString(n);
    var s := Padded(balance, decimals, displayDecimals);
    var d := TitleAmount(balance, decimals, displayDecimals).value.dollars;
    assert d == s[..|s| - displayDecimals];
    if |digits| >= displayDecimals + 1 {
      assert s == digits;
      if n == 0 {
        assert false;
      }
    } else {
      assert |s| == displayDecimals + 1;
      assert s[0] == '0';
    }
  }

  /** The displayed amount never overstates the balance and falls short of
      it by less than one display unit. */
  lemma TruncatesDown(balance: nat, decimals: nat, displayDecimals: nat)
    requires displayDecimals <= decimals
    ensures var unit := Pow10(decimals - displayDecimals);
      var n := Scaled(balance, decimals, displayDecimals);
      n * unit <= balance < (n + 1) * unit
  {
    var unit := Pow10(decimals - displayDecimals);
    assert Scaled(balance, decimals, displayDecimals) == DivNat(balance, unit);
  }

  /** With no display decimals, `slice(0, -0)` is empty and `slice(-0)` is
      everything: the whole number ends up in `cents`. */
  lemma NoDisplayDecimals(balance: nat, decimals: nat)
    ensures TitleAmount(balance, decimals, 0)
         == Ok(Amount("", NatToString(Scaled(balance, decimals, 0))))
  {
    var s := Padded(balance, decimals, 0);
    assert s == NatToString(Scaled(balance, decimals, 0));
    assert s[0..|s|] == s;
  }
}
