/** Rupee amounts are reals, ledger amounts are whole paise. */
module Money {

  /** `math.Round`: to the nearest integer, halves away from zero. */
  function Round(x: real): int {
    if x >= 0.0 then (x + 0.5).Floor else -((-x + 0.5).Floor)
  }

  function MoneyToPaise(value: real): int {
    Round(value * 100.0)
  }

  /** The division `float64(paise) / 100`. */
  function PaiseToMoney(paise: int): real {
    paise as real / 100.0
  }

  function RoundSourceMoney(value: real): real {
    PaiseToMoney(MoneyToPaise(value))
  }

  predicate ValidMoney(value: real) {
    value >= 0.0
  }

  function AbsPaise(value: int): int {
    if value < 0 then -value else value
  }

  /** Whole paise nearest to a non-negative amount of rupees, halves upwards. */
  predicate NearestPaise(paise: int, rupees: real) {
    paise as real - 0.5 <= rupees * 100.0 < paise as real + 0.5
  }

  /** The conversion is to the nearest paise, and symmetric about zero. */
  lemma PaiseAreNearest(rupees: real)
    ensures rupees >= 0.0 ==> NearestPaise(MoneyToPaise(rupees), rupees)
    ensures MoneyToPaise(-rupees) == -MoneyToPaise(rupees)
  {
  }

  lemma PaiseRoundTrip(paise: int)
    ensures MoneyToPaise(PaiseToMoney(paise)) == paise
  {
    assert PaiseToMoney(paise) * 100.0 == paise as real;
  }

  /** Rounding a payable to two decimals does not change the paise that enter the ledger. */
  lemma RoundedMoneyKeepsPaise(value: real)
    ensures MoneyToPaise(RoundSourceMoney(value)) == MoneyToPaise(value)
  {
    PaiseRoundTrip(MoneyToPaise(value));
  }

  /** A record "in whole paise" is one that conversion to paise and back leaves alone. */
  predicate WholePaise(value: real) {
    PaiseToMoney(MoneyToPaise(value)) == value
  }

  lemma WholePaiseAdds(a: real, b: real)
    requires WholePaise(a) && WholePaise(b)
    ensures WholePaise(a + b)
    ensures MoneyToPaise(a + b) == MoneyToPaise(a) + MoneyToPaise(b)
  {
    var p, q := MoneyToPaise(a), MoneyToPaise(b);
    assert a + b == PaiseToMoney(p + q);
    PaiseRoundTrip(p + q);
  }

  lemma WholePaiseSign(a: real)
    requires WholePaise(a)
    ensures MoneyToPaise(a) > 0 <==> a > 0.0
    ensures MoneyToPaise(a) < 0 <==> a < 0.0
  {
  }
}
