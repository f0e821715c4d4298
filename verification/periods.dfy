/**
 Period: a date range holding an ordered collection of bills, in any mix of
 currencies.  StartDate <= EndDate is established by the constructor and kept by
 every date update (start = end is allowed).  `TotalSpent` groups the bills'
 totals by currency.  `Update` changes name, description, start and end one
 after the other, checking the new start against the end the period had
 before the call.
 */
module Periods {
  import opened Common
  import opened ValueObjects
  import opened Entities
  import Bills
  import opened CurrencyGroups

  type Bill = Bills.Bill

  datatype Period = Period(
    id: Guid,
    name: string,
    description: string,
    startDate: Ticks,
    endDate: Ticks,
    bills: seq<Bill>,
    userId: Guid)
  {
    function Key(): EntityKey { EntityKey(PeriodType, id) }
  }

  /** The Key of a bill, as a function value for the list helpers. */
  function BillKey(b: Bill): EntityKey { b.Key() }

  const NameRequired := "Period name cannot be null or empty."
  const DatesOutOfOrder := "StartDate must be before or equal to EndDate."
  const StartAfterEnd := "StartDate cannot be later than EndDate."
  const EndBeforeStart := "EndDate cannot be earlier than StartDate."
  const InvalidUser := "Invalid user identifier."
  const BillAlreadyExists := "Bill already exists in the period."
  const BillNotFound := "Bill not found in the period."

  /** The period invariant. */
  predicate DatesOrdered(p: Period) {
    p.startDate <= p.endDate
  }

  /** new Period(name, description, startDate, endDate, userId), with `id` the
      freshly drawn Guid: dates, then name, then user are checked. */
  function NewPeriod(id: Guid, name: Option<string>, description: Option<string>,
                     startDate: Ticks, endDate: Ticks, userId: Guid): (r: Result<Period>)
    ensures r.Err? <==> startDate > endDate || IsNullOrWhiteSpace(name) || userId == EmptyGuid
    ensures startDate > endDate ==> r == Err(ArgumentError(DatesOutOfOrder))
    ensures startDate <= endDate && IsNullOrWhiteSpace(name) ==> r == Err(ArgumentError(NameRequired))
    ensures startDate <= endDate && !IsNullOrWhiteSpace(name) && userId == EmptyGuid ==>
              r == Err(ArgumentError(InvalidUser))
    ensures r.Ok? ==> DatesOrdered(r.value) && r.value.bills == []
    ensures r.Ok? ==> r.value.startDate == startDate && r.value.endDate == endDate
    ensures r.Ok? ==> r.value.id == id && r.value.name == name.value && r.value.userId == userId
    ensures r.Ok? ==> r.value.description == (if description.Some? then description.value else "")
  {
    if startDate > endDate then Err(ArgumentError(DatesOutOfOrder))
    else if IsNullOrWhiteSpace(name) then Err(ArgumentError(NameRequired))
    else if userId == EmptyGuid then Err(ArgumentError(InvalidUser))
    else Ok(Period(id, name.value, description.GetOr(""), startDate, endDate, [], userId))
  }

  /** Period.AddBill: like Bill.AddBillItem, without any currency check. */
  function AddBill(p: Period, bill: Option<Bill>): (r: Outcome<Period>)
    ensures r.Succeeded() <==> bill.Some? && !Contains(p.bills, BillKey, bill.value.Key())
    ensures bill.None? ==> r == Throw(p, ArgumentNullError("bill"))
    ensures bill.Some? && Contains(p.bills, BillKey, bill.value.Key()) ==>
              r == Throw(p, InvalidOperation(BillAlreadyExists))
    ensures r.Succeeded() ==> r.after == p.(bills := p.bills + [bill.value])
  {
    match bill
    case None => Throw(p, ArgumentNullError("bill"))
    case Some(b) =>
      if Contains(p.bills, BillKey, b.Key()) then Throw(p, InvalidOperation(BillAlreadyExists))
      else Done(p.(bills := p.bills + [b]))
  }

  /** Period.RemoveBill: removes the first bill with the same Id. */
  function RemoveBill(p: Period, bill: Option<Bill>): (r: Outcome<Period>)
    ensures r.Succeeded() <==> bill.Some? && Contains(p.bills, BillKey, bill.value.Key())
    ensures bill.None? ==> r == Throw(p, ArgumentNullError("bill"))
    ensures bill.Some? && !Contains(p.bills, BillKey, bill.value.Key()) ==>
              r == Throw(p, InvalidOperation(BillNotFound))
    ensures r.Succeeded() ==>
              var k := IndexOf(p.bills, BillKey, bill.value.Key()).value;
              && p.bills[k].id == bill.value.id
              && r.after == p.(bills := RemoveAt(p.bills, k))
  {
    match bill
    case None => Throw(p, ArgumentNullError("bill"))
    case Some(b) =>
      match IndexOf(p.bills, BillKey, b.Key())
      case None => Throw(p, InvalidOperation(BillNotFound))
      case Some(k) => Done(p.(bills := RemoveAt(p.bills, k)))
  }

  /** A period may hold bills of different currencies at once; adding a bill
      that is already present (same Id) fails, and RemoveBill undoes AddBill. */
  lemma AddBillRemoveBill(p: Period, b: Bill)
    requires !Contains(p.bills, BillKey, b.Key())
    ensures AddBill(p, Some(b)) == Done(p.(bills := p.bills + [b]))
    ensures AddBill(AddBill(p, Some(b)).after, Some(b)) ==
              Throw(AddBill(p, Some(b)).after, InvalidOperation(BillAlreadyExists))
    ensures RemoveBill(AddBill(p, Some(b)).after, Some(b)) == Done(p)
  {
    IndexOfAppendAbsent(p.bills, BillKey, b);
    assert RemoveAt(p.bills + [b], |p.bills|) == p.bills;
  }

  /** Membership of bills is unique by Id under AddBill and RemoveBill. */
  lemma AddRemoveBillKeepUniqueIds(p: Period, bill: Option<Bill>)
    requires UniqueKeys(p.bills, BillKey)
    ensures UniqueKeys(AddBill(p, bill).after.bills, BillKey)
    ensures UniqueKeys(RemoveBill(p, bill).after.bills, BillKey)
  {
    if AddBill(p, bill).Succeeded() {
      UniqueKeysAppend(p.bills, BillKey, bill.value);
    }
    if RemoveBill(p, bill).Succeeded() {
      UniqueKeysRemoveAt(p.bills, BillKey, IndexOf(p.bills, BillKey, bill.value.Key()).value);
    }
  }

  /** Period.UpdateName */
  function UpdateName(p: Period, name: Option<string>): (r: Outcome<Period>)
    ensures r.Succeeded() <==> !IsNullOrWhiteSpace(name)
    ensures !r.Succeeded() ==> r == Throw(p, ArgumentError(NameRequired))
    ensures r.Succeeded() ==> r.after == p.(name := name.value)
  {
    if IsNullOrWhiteSpace(name) then Throw(p, ArgumentError(NameRequired))
    else Done(p.(name := name.value))
  }

  /** Period.UpdateDescription: never fails; null becomes "". */
  function UpdateDescription(p: Period, description: Option<string>): (r: Outcome<Period>)
    ensures r.Succeeded()
    ensures r.after == p.(description := if description.Some? then description.value else "")
  {
    Done(p.(description := description.GetOr("")))
  }

  /** Period.UpdateStartDate: the new start may not pass the current end. */
  function UpdateStartDate(p: Period, newStart: Ticks): (r: Outcome<Period>)
    ensures r.Succeeded() <==> newStart <= p.endDate
    ensures !r.Succeeded() ==> r == Throw(p, ArgumentError(StartAfterEnd))
    ensures r.Succeeded() ==> r.after == p.(startDate := newStart)
    ensures DatesOrdered(p) ==> DatesOrdered(r.after)
  {
    if newStart > p.endDate then Throw(p, ArgumentError(StartAfterEnd))
    else Done(p.(startDate := newStart))
  }

  /** Period.UpdateEndDate: the new end may not precede the current start. */
  function UpdateEndDate(p: Period, newEnd: Ticks): (r: Outcome<Period>)
    ensures r.Succeeded() <==> newEnd >= p.startDate
    ensures !r.Succeeded() ==> r == Throw(p, ArgumentError(EndBeforeStart))
    ensures r.Succeeded() ==> r.after == p.(endDate := newEnd)
    ensures DatesOrdered(p) ==> DatesOrdered(r.after)
  {
    if newEnd < p.startDate then Throw(p, ArgumentError(EndBeforeStart))
    else Done(p.(endDate := newEnd))
  }

  /** Period.Update: name, description, start, end, stopping at the first
      exception. */
  function Update(p: Period, name: Option<string>, description: Option<string>,
                  startDate: Ticks, endDate: Ticks): (r: Outcome<Period>)
    ensures DatesOrdered(p) ==> DatesOrdered(r.after)
    ensures r.after.bills == p.bills && r.after.id == p.id && r.after.userId == p.userId
  {
    var o1 := UpdateName(p, name);
    if !o1.Succeeded() then o1 else
    var o2 := UpdateDescription(o1.after, description);
    var o3 := UpdateStartDate(o2.after, startDate);
    if !o3.Succeeded() then o3 else
    UpdateEndDate(o3.after, endDate)
  }

  /** Update is not atomic, and it compares the new start with the old end.  It
      succeeds exactly when the name is valid, the new start is not after the
      old end, and the new end is not before the new start.  A failing date
      check leaves name and description already changed; a failing end check
      leaves the new start in place as well. */
  lemma UpdateExposesPartialEffects(p: Period, name: Option<string>, description: Option<string>,
                                    s: Ticks, e: Ticks)
    ensures Update(p, name, description, s, e).Succeeded() <==>
              !IsNullOrWhiteSpace(name) && s <= p.endDate && s <= e
    ensures IsNullOrWhiteSpace(name) ==>
              Update(p, name, description, s, e) == Throw(p, ArgumentError(NameRequired))
    ensures !IsNullOrWhiteSpace(name) && s > p.endDate ==>
              Update(p, name, description, s, e) ==
                Throw(p.(name := name.value, description := description.GetOr("")), ArgumentError(StartAfterEnd))
    ensures !IsNullOrWhiteSpace(name) && s <= p.endDate && e < s ==>
              Update(p, name, description, s, e) ==
                Throw(p.(name := name.value, description := description.GetOr(""), startDate := s),
                      ArgumentError(EndBeforeStart))
    ensures Update(p, name, description, s, e).Succeeded() ==>
              Update(p, name, description, s, e).after ==
                p.(name := name.value, description := description.GetOr(""), startDate := s, endDate := e)
  {
  }

  /** Moving a period wholly past its old end fails on the start date, even
      though the new range itself is well ordered. */
  lemma MovingPastOldEndFails(p: Period, name: string, s: Ticks, e: Ticks)
    requires !IsNullOrWhiteSpace(Some(name))
    requires DatesOrdered(p) && p.endDate < s <= e
    ensures Update(p, Some(name), None, s, e) ==
              Throw(p.(name := name, description := ""), ArgumentError(StartAfterEnd))
  {
  }

  /** The totals of the bills, in order. */
  function BillTotals(bills: seq<Bill>): (r: seq<Money>)
    ensures |r| == |bills|
    ensures forall i :: 0 <= i < |bills| ==> r[i] == Bills.TotalPrice(bills[i])
    ensures forall i :: 0 <= i < |bills| ==> r[i].amount == Bills.ItemsTotal(bills[i].items)
    ensures forall i :: 0 <= i < |bills| && bills[i].items == [] ==> r[i] == ZeroMoney
    ensures forall i :: 0 <= i < |bills| && bills[i].items != [] ==>
              r[i].currency == bills[i].items[0].price.currency
  {
    seq(|bills|, i requires 0 <= i < |bills| => Bills.TotalPrice(bills[i]))
  }

  /** Period.TotalSpent: the bills' totals grouped by currency. */
  function TotalSpent(p: Period): (r: seq<Money>)
    ensures CurrencyOf(r) == Currencies(BillTotals(p.bills))
    ensures forall i :: 0 <= i < |r| ==> r[i].amount == SumFor(BillTotals(p.bills), r[i].currency)
  {
    if p.bills == [] then []
    else GroupByCurrency(BillTotals(p.bills))
  }

  /** TotalSpent has one entry per distinct currency among the bill totals, none
      other, and is empty exactly when the period has no bills. */
  lemma TotalSpentShape(p: Period)
    ensures TotalSpent(p) == [] <==> p.bills == []
    ensures forall i, j :: 0 <= i < j < |TotalSpent(p)| ==> TotalSpent(p)[i].currency != TotalSpent(p)[j].currency
    ensures forall c :: c in CurrencyOf(TotalSpent(p)) <==> c in CurrencyOf(BillTotals(p.bills))
  {
    GroupsAreTheCurrencies(BillTotals(p.bills));
  }

  /** The entries of TotalSpent add up to the sum of all bill totals. */
  lemma TotalSpentConservesTotal(p: Period)
    ensures SumAll(TotalSpent(p)) == SumAll(BillTotals(p.bills))
  {
    GroupingConservesTotal(BillTotals(p.bills));
  }

  lemma {:induction false} EmptyBillsHaveOneCurrency(ms: seq<Money>)
    requires ms != []
    requires forall i :: 0 <= i < |ms| ==> ms[i] == ZeroMoney
    ensures Currencies(ms) == [""]
    ensures SumFor(ms, "") == 0.0
    decreases |ms|
  {
    if |ms| > 1 {
      EmptyBillsHaveOneCurrency(AllButLast(ms));
    }
  }

  /** A period holding only empty bills spends Money(0, ""), as one entry. */
  lemma OnlyEmptyBillsSpendZero(p: Period)
    requires p.bills != []
    requires forall i :: 0 <= i < |p.bills| ==> p.bills[i].items == []
    ensures TotalSpent(p) == [ZeroMoney]
  {
    var ms := BillTotals(p.bills);
    assert forall i :: 0 <= i < |ms| ==> ms[i] == ZeroMoney;
    EmptyBillsHaveOneCurrency(ms);
    var r := TotalSpent(p);
    assert CurrencyOf(r) == [""];
    assert r[0] == MoneyData(0.0, "");
    assert r == [r[0]];
  }

  /** Bills in different currencies are kept apart, in the order the
      currencies first appear: a 6 USD bill and a 300 EUR bill spend 6 USD and
      300 EUR. */
  lemma MultiCurrencyExample(p: Period)
    requires |p.bills| == 2
    requires Bills.TotalPrice(p.bills[0]) == MoneyData(6.0, "USD")
    requires Bills.TotalPrice(p.bills[1]) == MoneyData(300.0, "EUR")
    ensures TotalSpent(p) == [MoneyData(6.0, "USD"), MoneyData(300.0, "EUR")]
  {
    var ms := BillTotals(p.bills);
    assert ms == [MoneyData(6.0, "USD"), MoneyData(300.0, "EUR")];
    assert AllButLast(ms) == [MoneyData(6.0, "USD")];
    assert "EUR" != "USD" by { assert "EUR"[0] != "USD"[0]; }
    assert Currencies(ms) == ["USD", "EUR"];
    assert AllButLast(AllButLast(ms)) == [];
    var first := AllButLast(ms);
    assert SumFor(first, "EUR") == SumFor([], "EUR") + 0.0;
    assert SumFor(first, "USD") == 6.0;
    assert SumFor(ms, "USD") == 6.0;
    assert SumFor(ms, "EUR") == 300.0;
  }

  /** Bills in one currency are summed into one entry: EUR bills of 8 and 3
      spend 11 EUR. */
  lemma SameCurrencyExample(p: Period)
    requires |p.bills| == 2
    requires Bills.TotalPrice(p.bills[0]) == MoneyData(8.0, "EUR")
    requires Bills.TotalPrice(p.bills[1]) == MoneyData(3.0, "EUR")
    ensures TotalSpent(p) == [MoneyData(11.0, "EUR")]
  {
    var ms := BillTotals(p.bills);
    assert ms == [MoneyData(8.0, "EUR"), MoneyData(3.0, "EUR")];
    assert AllButLast(ms) == [MoneyData(8.0, "EUR")];
    assert Currencies(ms) == ["EUR"];
    assert AllButLast(AllButLast(ms)) == [];
    assert SumFor(AllButLast(ms), "EUR") == 8.0;
    assert SumFor(ms, "EUR") == 11.0;
  }
}
