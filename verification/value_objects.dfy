/**
 The two value objects of the domain: Money (a non-negative decimal amount with an
 upper-cased currency code) and Quantity (a strictly positive count).  Both are C#
 records, so equality is structural, which is Dafny's datatype equality.
 */
module ValueObjects {
  import opened Common

  datatype MoneyData = MoneyData(amount: real, currency: string)

  /** Every Money the program can hold passed the constructor's checks: the
      amount is non-negative and the currency is already upper-cased. */
  type Money = m: MoneyData | m.amount >= 0.0 && IsUpper(m.currency)
    witness MoneyData(0.0, "")

  const AmountNegative := "Amount cannot be negative."

  /** The zero value used for "no price yet" and for an empty bill's total. */
  const ZeroMoney: Money := MoneyData(0.0, "")

  /** The currency stored by the constructor: null and "" become "", anything
      else is upper-cased (white space is kept, not trimmed). */
  function NormalizeCurrency(currency: Option<string>): (r: string)
    ensures IsUpper(r)
    ensures |r| == |currency.GetOr("")|
  {
    ToUpperIsUpper(currency.GetOr(""));
    if IsNullOrEmpty(currency) then "" else ToUpper(currency.value)
  }

  /** new Money(amount, currency) */
  function NewMoney(amount: real, currency: Option<string>): (r: Result<Money>)
    ensures r.Err? <==> amount < 0.0
    ensures r.Err? ==> r.error == ArgumentError(AmountNegative)
    ensures r.Ok? ==> r.value.amount == amount
    ensures r.Ok? ==> |r.value.currency| == |currency.GetOr("")|
    ensures r.Ok? && currency.Some? ==>
              forall i :: 0 <= i < |currency.value| ==> r.value.currency[i] == ToUpperChar(currency.value[i])
  {
    if amount < 0.0 then Err(ArgumentError(AmountNegative))
    else Ok(MoneyData(amount, NormalizeCurrency(currency)))
  }

  /** Rebuilding a Money from its own fields gives the same Money back: the
      normalisation is idempotent. */
  lemma NewMoneyRoundTrip(m: Money)
    ensures NewMoney(m.amount, Some(m.currency)) == Ok(m)
  {
  }

  /** Two constructed Money values are equal exactly when the amounts are equal
      and the currencies agree after normalisation; so "usd" and "USD" name the
      same currency. */
  lemma MoneyEquality(a1: real, c1: Option<string>, a2: real, c2: Option<string>)
    requires a1 >= 0.0 && a2 >= 0.0
    ensures NewMoney(a1, c1).Ok? && NewMoney(a2, c2).Ok?
    ensures NewMoney(a1, c1) == NewMoney(a2, c2)
        <==> a1 == a2 && NormalizeCurrency(c1) == NormalizeCurrency(c2)
  {
  }

  lemma {:induction false} CurrencyCaseInsensitive(amount: real)
    requires amount >= 0.0
    ensures NewMoney(amount, Some("usd")) == NewMoney(amount, Some("USD"))
    ensures NewMoney(amount, Some("USD")).Ok? && NewMoney(amount, Some("USD")).value.currency == "USD"
    ensures NewMoney(amount, Some(" ")).Ok? && NewMoney(amount, Some(" ")).value.currency == " "
    ensures NewMoney(amount, None).Ok? && NewMoney(amount, None).value.currency == ""
  {
    assert ToUpper("usd") == "USD" by {
      assert ToUpper("usd")[0] == 'U' && ToUpper("usd")[1] == 'S' && ToUpper("usd")[2] == 'D';
    }
    assert ToUpper("USD") == "USD";
    assert ToUpper(" ") == " ";
  }

  datatype QuantityData = QuantityData(value: int)

  /** Every Quantity the program can hold is at least one. */
  type Quantity = q: QuantityData | q.value > 0 witness QuantityData(1)

  const QuantityNotPositive := "Value must be greater than zero."

  /** new Quantity(value) */
  function NewQuantity(value: int): (r: Result<Quantity>)
    ensures r.Err? <==> value <= 0
    ensures r.Err? ==> r.error == ArgumentError(QuantityNotPositive)
    ensures r.Ok? ==> r.value.value == value && r.value.value >= 1
  {
    if value <= 0 then Err(ArgumentError(QuantityNotPositive)) else Ok(QuantityData(value))
  }

  /** Quantities are equal exactly when their values are, and constructing from
      an existing Quantity's value gives it back. */
  lemma QuantityEquality(v1: int, v2: int)
    requires v1 > 0 && v2 > 0
    ensures NewQuantity(v1) == NewQuantity(v2) <==> v1 == v2
  {
  }
}
