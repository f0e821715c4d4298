/**
 Grouping Money values by currency and summing each group, as LINQ's
 `GroupBy(currency).Select(g => new Money(g.Sum(amount), g.Key))` does: one
 entry per distinct currency, in the order the currencies first appear.

 `GroupByCurrency` is the operational fold (each value is added into its
 group, or opens a new one); `Currencies` and `SumFor` are the independent
 description of what the groups must be, and the contract of `GroupByCurrency`
 ties the two together.
 */
module CurrencyGroups {
  import opened Common
  import opened ValueObjects

  function Last(ms: seq<Money>): Money
    requires ms != []
  {
    ms[|ms| - 1]
  }

  function AllButLast(ms: seq<Money>): seq<Money>
    requires ms != []
  {
    ms[..|ms| - 1]
  }

  /** The currency of each value, in order. */
  function CurrencyOf(ms: seq<Money>): (r: seq<string>)
    ensures |r| == |ms|
    ensures forall k :: 0 <= k < |ms| ==> r[k] == ms[k].currency
  {
    seq(|ms|, k requires 0 <= k < |ms| => ms[k].currency)
  }

  /** The distinct currencies of `ms`, in order of first appearance. */
  function Currencies(ms: seq<Money>): (r: seq<string>)
    decreases |ms|
    ensures forall i, j :: 0 <= i < j < |r| ==> r[i] != r[j]
    ensures forall c :: c in r <==> c in CurrencyOf(ms)
    ensures |r| <= |ms|
    ensures ms != [] ==> r != []
  {
    if ms == [] then []
    else
      var prev := Currencies(AllButLast(ms));
      assert CurrencyOf(ms) == CurrencyOf(AllButLast(ms)) + [Last(ms).currency];
      if Last(ms).currency in prev then prev else prev + [Last(ms).currency]
  }

  /** The sum of the amounts of `ms` in currency `c`: together with
      `Currencies` and `SumAll`, the reference definition `GroupByCurrency` is
      proved against. */
  function SumFor(ms: seq<Money>, c: string): (r: real)
    decreases |ms|
    ensures r >= 0.0
  {
    if ms == [] then 0.0
    else SumFor(AllButLast(ms), c) + (if Last(ms).currency == c then Last(ms).amount else 0.0)
  }

  /** The sum of all the amounts of `ms`, whatever their currency: the
      reference for `GroupingConservesTotal`. */
  function SumAll(ms: seq<Money>): (r: real)
    decreases |ms|
    ensures r >= 0.0
  {
    if ms == [] then 0.0 else SumAll(AllButLast(ms)) + Last(ms).amount
  }

  /** The index of the first group in currency `c`. */
  function IndexOfCurrency(groups: seq<Money>, c: string): (r: Option<nat>)
    ensures r.Some? ==> r.value < |groups| && groups[r.value].currency == c
    ensures r.Some? ==> forall j :: 0 <= j < r.value ==> groups[j].currency != c
    ensures r.None? ==> forall j :: 0 <= j < |groups| ==> groups[j].currency != c
  {
    if groups == [] then None
    else if groups[0].currency == c then Some(0)
    else match IndexOfCurrency(groups[1..], c)
      case None => None
      case Some(i) => Some(i + 1)
  }

  /** Adds one value into its currency's group, or opens a new group for it. */
  function Accumulate(groups: seq<Money>, m: Money): seq<Money> {
    match IndexOfCurrency(groups, m.currency)
    case Some(i) => groups[i := MoneyData(groups[i].amount + m.amount, groups[i].currency)]
    case None => groups + [MoneyData(m.amount, m.currency)]
  }

  /** GroupBy(currency) followed by one summed Money per group: one group per
      distinct currency, in order of first appearance, holding the sum of that
      currency's amounts. */
  function GroupByCurrency(ms: seq<Money>): (r: seq<Money>)
    decreases |ms|
    ensures CurrencyOf(r) == Currencies(ms)
    ensures forall i :: 0 <= i < |r| ==> r[i].amount == SumFor(ms, r[i].currency)
  {
    if ms == [] then []
    else
      var groups := GroupByCurrency(AllButLast(ms));
      AccumulateStep(ms, groups);
      Accumulate(groups, Last(ms))
  }

  /** One step of the fold keeps the groups in line with their description. */
  lemma AccumulateStep(ms: seq<Money>, groups: seq<Money>)
    requires ms != []
    requires CurrencyOf(groups) == Currencies(AllButLast(ms))
    requires forall i :: 0 <= i < |groups| ==> groups[i].amount == SumFor(AllButLast(ms), groups[i].currency)
    ensures CurrencyOf(Accumulate(groups, Last(ms))) == Currencies(ms)
    ensures var r := Accumulate(groups, Last(ms));
            forall i :: 0 <= i < |r| ==> r[i].amount == SumFor(ms, r[i].currency)
  {
    var prev := AllButLast(ms);
    var m := Last(ms);
    var r := Accumulate(groups, m);
    match IndexOfCurrency(groups, m.currency)
    case Some(i) =>
      assert CurrencyOf(groups)[i] == m.currency;
      assert CurrencyOf(r) == CurrencyOf(groups);
      forall j | 0 <= j < |r|
        ensures r[j].amount == SumFor(ms, r[j].currency)
      {
        if j != i {
          assert CurrencyOf(groups)[j] != CurrencyOf(groups)[i];
        }
      }
    case None =>
      assert m.currency !in CurrencyOf(groups);
      ZeroForAbsentCurrency(prev, m.currency);
      assert CurrencyOf(r) == CurrencyOf(groups) + [m.currency];
  }

  lemma {:induction false} ZeroForAbsentCurrency(ms: seq<Money>, c: string)
    requires c !in Currencies(ms)
    ensures SumFor(ms, c) == 0.0
    decreases |ms|
  {
    if ms != [] {
      assert Last(ms).currency in CurrencyOf(ms);
      ZeroForAbsentCurrency(AllButLast(ms), c);
    }
  }

  /** The groups' currencies are pairwise distinct and are exactly the
      currencies occurring in the input; there are no groups iff there is no
      input. */
  lemma GroupsAreTheCurrencies(ms: seq<Money>)
    ensures var r := GroupByCurrency(ms);
            forall i, j :: 0 <= i < j < |r| ==> r[i].currency != r[j].currency
    ensures forall c :: c in CurrencyOf(GroupByCurrency(ms)) <==> c in CurrencyOf(ms)
    ensures GroupByCurrency(ms) == [] <==> ms == []
  {
    var r := GroupByCurrency(ms);
    assert forall i :: 0 <= i < |r| ==> r[i].currency == Currencies(ms)[i];
  }

  lemma {:induction false} SumAllUpdate(groups: seq<Money>, i: nat, x: Money)
    requires i < |groups|
    ensures SumAll(groups[i := x]) == SumAll(groups) - groups[i].amount + x.amount
    decreases |groups|
  {
    if i < |groups| - 1 {
      assert AllButLast(groups[i := x]) == AllButLast(groups)[i := x];
      SumAllUpdate(AllButLast(groups), i, x);
    } else {
      assert AllButLast(groups[i := x]) == AllButLast(groups);
    }
  }

  /** Adding a value into the groups adds its amount to their total. */
  lemma AccumulateAddsAmount(groups: seq<Money>, m: Money)
    ensures SumAll(Accumulate(groups, m)) == SumAll(groups) + m.amount
  {
    match IndexOfCurrency(groups, m.currency)
    case Some(i) =>
      SumAllUpdate(groups, i, MoneyData(groups[i].amount + m.amount, groups[i].currency));
    case None =>
      assert AllButLast(groups + [MoneyData(m.amount, m.currency)]) == groups;
  }

  /** Grouping conserves money: the group totals add up to the sum of all the
      input amounts. */
  lemma {:induction false} GroupingConservesTotal(ms: seq<Money>)
    ensures SumAll(GroupByCurrency(ms)) == SumAll(ms)
    decreases |ms|
  {
    if ms != [] {
      var groups := GroupByCurrency(AllButLast(ms));
      assert GroupByCurrency(ms) == Accumulate(groups, Last(ms));
      GroupingConservesTotal(AllButLast(ms));
      AccumulateAddsAmount(groups, Last(ms));
    }
  }
}
