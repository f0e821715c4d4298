/**
 Bill: an ordered collection of bill items under a single-currency lock.  An
 item can join only if no item with its Id is present and, when the bill is not
 empty, its price is in the first item's currency; once the bill is empty again
 any currency is accepted.  The total is derived on every access.

 The C# items are shared mutable objects, so `UpdatePrice` on an item already in
 a bill changes the bill's contents without passing through `AddBillItem`.  Here
 a bill holds item values, and the lock is stated over the values it holds.
 */
module Bills {
  import opened Common
  import opened ValueObjects
  import opened Entities
  import opened BillItems

  datatype Bill = Bill(id: Guid, name: string, description: string, items: seq<BillItem>, userId: Guid) {
    function Key(): EntityKey { EntityKey(BillType, id) }
  }

  const InvalidUser := "Invalid user identifier."
  const ItemAlreadyExists := "Item already exists in the bill."
  const CurrencyMismatch := "All items in a bill must have the same currency."
  const ItemNotFound := "Item not found in the bill."

  /** The currency lock: every item is priced in the first item's currency. */
  predicate CurrencyLocked(items: seq<BillItem>) {
    forall i :: 0 <= i < |items| ==> items[i].price.currency == items[0].price.currency
  }

  /** The bill invariant: one currency and no two items with the same Id. */
  predicate Valid(b: Bill) {
    CurrencyLocked(b.items) && UniqueKeys(b.items, KeyOf)
  }

  /** new Bill(name, description, userId), with `id` the freshly drawn Guid. */
  function NewBill(id: Guid, name: Option<string>, description: Option<string>, userId: Guid): (r: Result<Bill>)
    ensures r.Err? <==> IsNullOrWhiteSpace(name) || userId == EmptyGuid
    ensures IsNullOrWhiteSpace(name) ==> r == Err(ArgumentError(NameRequired))
    ensures !IsNullOrWhiteSpace(name) && userId == EmptyGuid ==> r == Err(ArgumentError(InvalidUser))
    ensures r.Ok? ==> r.value.items == [] && Valid(r.value)
    ensures r.Ok? ==> r.value.id == id && r.value.name == name.value && r.value.userId == userId
    ensures r.Ok? ==> r.value.description == (if description.Some? then description.value else "")
  {
    if IsNullOrWhiteSpace(name) then Err(ArgumentError(NameRequired))
    else if userId == EmptyGuid then Err(ArgumentError(InvalidUser))
    else Ok(Bill(id, name.value, description.GetOr(""), [], userId))
  }

  /** Bill.AddBillItem: null, then duplicate Id, then currency are checked. */
  function AddBillItem(b: Bill, item: Option<BillItem>): (r: Outcome<Bill>)
    ensures r.Succeeded() <==>
              && item.Some?
              && !Contains(b.items, KeyOf, item.value.Key())
              && (|b.items| == 0 || item.value.price.currency == b.items[0].price.currency)
    ensures item.None? ==> r == Throw(b, ArgumentNullError("item"))
    ensures item.Some? && Contains(b.items, KeyOf, item.value.Key()) ==>
              r == Throw(b, InvalidOperation(ItemAlreadyExists))
    ensures !r.Succeeded() ==> r.after == b
    ensures r.Succeeded() ==> r.after == b.(items := b.items + [item.value])
  {
    match item
    case None => Throw(b, ArgumentNullError("item"))
    case Some(x) =>
      if Contains(b.items, KeyOf, x.Key()) then Throw(b, InvalidOperation(ItemAlreadyExists))
      else if |b.items| > 0 && x.price.currency != b.items[0].price.currency then
        Throw(b, InvalidOperation(CurrencyMismatch))
      else Done(b.(items := b.items + [x]))
  }

  /** AddBillItem keeps the bill invariant. */
  lemma AddBillItemPreservesValid(b: Bill, item: Option<BillItem>)
    requires Valid(b)
    ensures Valid(AddBillItem(b, item).after)
  {
    var r := AddBillItem(b, item);
    if r.Succeeded() {
      UniqueKeysAppend(b.items, KeyOf, item.value);
    }
  }

  /** The lock resets on an empty bill: any item, in any currency, is accepted. */
  lemma EmptyBillAcceptsAnyCurrency(b: Bill, x: BillItem)
    requires b.items == []
    ensures AddBillItem(b, Some(x)) == Done(b.(items := [x]))
  {
    assert b.items + [x] == [x];
  }

  /** A non-empty bill rejects an item in another currency, whatever its Id. */
  lemma LockedBillRejectsOtherCurrency(b: Bill, x: BillItem)
    requires |b.items| > 0 && x.price.currency != b.items[0].price.currency
    ensures !AddBillItem(b, Some(x)).Succeeded()
    ensures !Contains(b.items, KeyOf, x.Key()) ==>
              AddBillItem(b, Some(x)) == Throw(b, InvalidOperation(CurrencyMismatch))
  {
  }

  /** Adds the items one by one, stopping at the first failure; what was added
      before it stays added. */
  function AddEach(b: Bill, xs: seq<Option<BillItem>>): (r: Outcome<Bill>)
    decreases |xs|
    ensures |b.items| <= |r.after.items| <= |b.items| + |xs|
    ensures r.after == b.(items := r.after.items)
    ensures r.after.items[..|b.items|] == b.items
    ensures forall i :: |b.items| <= i < |r.after.items| ==> xs[i - |b.items|] == Some(r.after.items[i])
    ensures r.Succeeded() <==> |r.after.items| == |b.items| + |xs|
    ensures !r.Succeeded() ==> r == AddBillItem(r.after, xs[|r.after.items| - |b.items|])
  {
    if xs == [] then Done(b)
    else
      var first := AddBillItem(b, xs[0]);
      if !first.Succeeded() then first
      else AddEach(first.after, xs[1..])
  }

  /** Bill.AddBillItems */
  function AddBillItems(b: Bill, items: Option<seq<Option<BillItem>>>): (r: Outcome<Bill>)
    ensures items.None? ==> r == Throw(b, ArgumentNullError("billItems"))
    ensures items.Some? ==> r == AddEach(b, items.value)
  {
    match items
    case None => Throw(b, ArgumentNullError("billItems"))
    case Some(xs) => AddEach(b, xs)
  }

  /** AddBillItems keeps the bill invariant, even when it fails part-way. */
  lemma {:induction false} AddEachPreservesValid(b: Bill, xs: seq<Option<BillItem>>)
    requires Valid(b)
    ensures Valid(AddEach(b, xs).after)
    decreases |xs|
  {
    if xs != [] {
      AddBillItemPreservesValid(b, xs[0]);
      var first := AddBillItem(b, xs[0]);
      if first.Succeeded() {
        AddEachPreservesValid(first.after, xs[1..]);
      }
    }
  }

  /** Bill.RemoveItem: removes the first item with the same Id. */
  function RemoveItem(b: Bill, item: Option<BillItem>): (r: Outcome<Bill>)
    ensures r.Succeeded() <==> item.Some? && Contains(b.items, KeyOf, item.value.Key())
    ensures item.None? ==> r == Throw(b, ArgumentNullError("item"))
    ensures item.Some? && !Contains(b.items, KeyOf, item.value.Key()) ==>
              r == Throw(b, InvalidOperation(ItemNotFound))
    ensures !r.Succeeded() ==> r.after == b
    ensures r.Succeeded() ==>
              var k := IndexOf(b.items, KeyOf, item.value.Key()).value;
              && b.items[k].id == item.value.id
              && r.after == b.(items := RemoveAt(b.items, k))
  {
    match item
    case None => Throw(b, ArgumentNullError("item"))
    case Some(x) =>
      match IndexOf(b.items, KeyOf, x.Key())
      case None => Throw(b, InvalidOperation(ItemNotFound))
      case Some(k) => Done(b.(items := RemoveAt(b.items, k)))
  }

  /** RemoveItem keeps the bill invariant, and on a valid bill no item with the
      removed Id is left afterwards. */
  lemma RemoveItemPreservesValid(b: Bill, item: Option<BillItem>)
    requires Valid(b)
    ensures Valid(RemoveItem(b, item).after)
    ensures RemoveItem(b, item).Succeeded() ==> !Contains(RemoveItem(b, item).after.items, KeyOf, item.value.Key())
  {
    var r := RemoveItem(b, item);
    if r.Succeeded() {
      var k := IndexOf(b.items, KeyOf, item.value.Key()).value;
      UniqueKeysRemoveAt(b.items, KeyOf, k);
      var rest := r.after.items;
      if |rest| > 0 {
        assert rest[0].price.currency == b.items[0].price.currency;
      }
    }
  }

  /** Removing an item that was just added gives the bill back: RemoveItem
      undoes a successful AddBillItem. */
  lemma RemoveUndoesAdd(b: Bill, x: BillItem)
    requires AddBillItem(b, Some(x)).Succeeded()
    ensures RemoveItem(AddBillItem(b, Some(x)).after, Some(x)) == Done(b)
  {
    IndexOfAppendAbsent(b.items, KeyOf, x);
    assert RemoveAt(b.items + [x], |b.items|) == b.items;
  }

  /** Bill.UpdateName */
  function UpdateName(b: Bill, name: Option<string>): (r: Outcome<Bill>)
    ensures r.Succeeded() <==> !IsNullOrWhiteSpace(name)
    ensures !r.Succeeded() ==> r == Throw(b, ArgumentError(NameRequired))
    ensures r.Succeeded() ==> r.after == b.(name := name.value)
  {
    if IsNullOrWhiteSpace(name) then Throw(b, ArgumentError(NameRequired))
    else Done(b.(name := name.value))
  }

  /** Bill.UpdateDescription: never fails; null becomes "". */
  function UpdateDescription(b: Bill, description: Option<string>): (r: Outcome<Bill>)
    ensures r.Succeeded()
    ensures r.after == b.(description := if description.Some? then description.value else "")
  {
    Done(b.(description := description.GetOr("")))
  }

  /** Bill.Update: UpdateName, then UpdateDescription. */
  function Update(b: Bill, name: Option<string>, description: Option<string>): (r: Outcome<Bill>)
    ensures r.Succeeded() <==> !IsNullOrWhiteSpace(name)
    ensures !r.Succeeded() ==> r == Throw(b, ArgumentError(NameRequired))
    ensures r.Succeeded() ==> r.after == b.(name := name.value, description := description.GetOr(""))
    ensures r.after.items == b.items
  {
    var renamed := UpdateName(b, name);
    if !renamed.Succeeded() then renamed
    else UpdateDescription(renamed.after, description)
  }

  /** What one item contributes to the total: price times quantity. */
  function LineTotal(x: BillItem): (r: real)
    ensures r >= 0.0
    ensures r >= x.price.amount
    ensures r == 0.0 <==> x.price.amount == 0.0
  {
    ScaleByCount(x.price.amount, x.quantity.value);
    Scaled(x.price.amount, x.quantity.value)
  }

  /** An amount times a count. */
  function Scaled(a: real, q: int): real {
    a * (q as real)
  }

  /** A non-negative amount times a positive count is at least the amount,
      and zero only for a zero amount. */
  lemma ScaleByCount(a: real, q: int)
    requires a >= 0.0 && q >= 1
    ensures Scaled(a, q) >= a
    ensures Scaled(a, q) == 0.0 <==> a == 0.0
  {
    var rest := a * ((q - 1) as real);
    assert rest >= 0.0;
    assert a * (q as real) == a + rest;
  }

  /** The sum of the line totals, left to right. */
  function ItemsTotal(items: seq<BillItem>): (r: real)
    ensures r >= 0.0
    ensures forall i :: 0 <= i < |items| ==> LineTotal(items[i]) <= r
    ensures r == 0.0 <==> forall i :: 0 <= i < |items| ==> items[i].price.amount == 0.0
  {
    if items == [] then 0.0 else LineTotal(items[0]) + ItemsTotal(items[1..])
  }

  /** Bill.TotalPrice: Money(0, "") for an empty bill, otherwise the sum of the
      line totals in the first item's currency. */
  function TotalPrice(b: Bill): (r: Money)
    ensures b.items == [] ==> r == ZeroMoney
    ensures b.items != [] ==> r.currency == b.items[0].price.currency
    ensures CurrencyLocked(b.items) ==> forall i :: 0 <= i < |b.items| ==> b.items[i].price.currency == r.currency
  {
    if b.items == [] then ZeroMoney
    else MoneyData(ItemsTotal(b.items), b.items[0].price.currency)
  }

  /** The total is what the Money constructor builds from the sum and the first
      item's currency, so computing it never throws. */
  lemma TotalPriceIsConstructed(b: Bill)
    requires b.items != []
    ensures NewMoney(ItemsTotal(b.items), Some(b.items[0].price.currency)) == Ok(TotalPrice(b))
  {
    NewMoneyRoundTrip(TotalPrice(b));
  }

  lemma {:induction false} ItemsTotalAppend(items: seq<BillItem>, x: BillItem)
    ensures ItemsTotal(items + [x]) == ItemsTotal(items) + LineTotal(x)
  {
    if items != [] {
      assert (items + [x])[1..] == items[1..] + [x];
      ItemsTotalAppend(items[1..], x);
    }
  }

  lemma {:induction false} ItemsTotalRemoveAt(items: seq<BillItem>, k: nat)
    requires k < |items|
    ensures ItemsTotal(RemoveAt(items, k)) == ItemsTotal(items) - LineTotal(items[k])
  {
    if k > 0 {
      assert RemoveAt(items, k)[1..] == RemoveAt(items[1..], k - 1);
      ItemsTotalRemoveAt(items[1..], k - 1);
    } else {
      assert RemoveAt(items, 0) == items[1..];
    }
  }

  /** Adding an item raises the total by its line total; removing one lowers it
      by the line total of the item removed. */
  lemma TotalPriceTracksAddAndRemove(b: Bill, item: Option<BillItem>)
    ensures AddBillItem(b, item).Succeeded() ==>
              TotalPrice(AddBillItem(b, item).after).amount == TotalPrice(b).amount + LineTotal(item.value)
    ensures RemoveItem(b, item).Succeeded() ==>
              var k := IndexOf(b.items, KeyOf, item.value.Key()).value;
              TotalPrice(RemoveItem(b, item).after).amount == TotalPrice(b).amount - LineTotal(b.items[k])
  {
    if AddBillItem(b, item).Succeeded() {
      ItemsTotalAppend(b.items, item.value);
    }
    if RemoveItem(b, item).Succeeded() {
      var k := IndexOf(b.items, KeyOf, item.value.Key()).value;
      ItemsTotalRemoveAt(b.items, k);
    }
  }
}
