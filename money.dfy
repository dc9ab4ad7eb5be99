/**
 * `formatMoney`: which unit band an amount is shown in. Amounts of ten
 * million and up are shown in 千萬 (ten millions) with one decimal, amounts of
 * ten thousand and up in whole 萬 (ten thousands), and smaller amounts as
 * they are.
 */
module Money {
  import opened JsRuntime

  const TenMillion: int := 10000000
  const TenThousand: int := 10000

  /**
   * The band chosen for an amount, with the number shown in it: the quotient
   * that `toFixed(1)` would print for 千萬, the rounded count of 萬, or the
   * amount itself for `toLocaleString()`.
   */
  datatype MoneyText =
    | TenMillions(quotient: real)
    | TenThousands(count: int)
    | Plain(amount: int)

  /** `formatMoney`: exactly one band, tried from the largest down. */
  function FormatMoney(amount: int): (r: MoneyText)
    ensures r.TenMillions? <==> amount >= 10000000
    ensures r.TenThousands? <==> 10000 <= amount < 10000000
    ensures r.Plain? <==> amount < 10000
    ensures r.TenMillions? ==> r.quotient >= 1.0 && r.quotient * 10000000.0 == amount as real
    ensures r.TenThousands? ==> 1 <= r.count <= 1000
    ensures r.TenThousands? ==> r.count * 10000 - 5000 <= amount < r.count * 10000 + 5000
    ensures r.Plain? ==> r.amount == amount
  {
    if amount >= TenMillion then TenMillions(amount as real / TenMillion as real)
    else if amount >= TenThousand then TenThousands(Round(amount as real / TenThousand as real))
    else Plain(amount)
  }

  /** The text of the 萬 band: `Math.round(amount / 10000) + ' 萬'`. */
  function TenThousandsText(count: int): (s: string)
    ensures |s| >= 3 && s[|s| - 2..] == " 萬"
  {
    IntToString(count) + " 萬"
  }

  /** The digits in front of the unit read back as the count. */
  lemma TenThousandsTextValue(count: nat)
    ensures var s := TenThousandsText(count);
            s[..|s| - 2] == NatToString(count) && DecimalValue(s[..|s| - 2]) == count
  {
    NatToStringValue(count);
    var s := TenThousandsText(count);
    assert s[..|s| - 2] == NatToString(count);
  }

  /** The contract of P001 and the contract of P004 as shown on their cards. */
  lemma FormatMoneyExamples()
    ensures FormatMoney(5835168) == TenThousands(584)
    ensures TenThousandsText(584) == "584 萬"
    ensures FormatMoney(53700) == TenThousands(5)
    ensures TenThousandsText(5) == "5 萬"
    ensures FormatMoney(10000000) == TenMillions(1.0)
    ensures FormatMoney(9999) == Plain(9999)
  {
    assert NatToString(584) == NatToString(58) + ['4'];
    assert NatToString(58) == NatToString(5) + ['8'];
  }
}
