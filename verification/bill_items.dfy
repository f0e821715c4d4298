/**
 BillItem: a named, priced, quantified and categorised line of a bill.  Fields
 omitted at construction take defaults (description "", category Other, price
 Money(0, ""), quantity 1).  `Update` changes the fields one after the other,
 so a failure part-way leaves the earlier fields changed.
 */
module BillItems {
  import opened Common
  import opened ValueObjects
  import Entities
  import opened Categories
  import DefaultCategories

  datatype BillItem = BillItem(
    id: Guid,
    name: string,
    description: string,
    category: Category,
    price: Money,
    quantity: Quantity,
    userId: Guid)
  {
    function Key(): Entities.EntityKey { Entities.EntityKey(Entities.BillItemType, id) }
  }

  /** The Key of an item, as a function value for the list helpers. */
  function KeyOf(i: BillItem): Entities.EntityKey { i.Key() }

  // The item's name check reuses the bill's message.
  const NameRequired := "Bill name cannot be null or empty."
  const InvalidUser := "Invalid user identifier."

  /** new BillItem(name, description, category, price, quantity, userId), with
      `id` the freshly drawn Guid. */
  function NewBillItem(
    id: Guid,
    name: Option<string>,
    description: Option<string>,
    category: Option<Category>,
    price: Option<Money>,
    quantity: Option<Quantity>,
    userId: Guid): (r: Result<BillItem>)
    ensures r.Err? <==> IsNullOrWhiteSpace(name) || userId == EmptyGuid
    ensures IsNullOrWhiteSpace(name) ==> r == Err(ArgumentError(NameRequired))
    ensures !IsNullOrWhiteSpace(name) && userId == EmptyGuid ==> r == Err(ArgumentError(InvalidUser))
    ensures r.Ok? ==> r.value.id == id && r.value.name == name.value && r.value.userId == userId
    ensures r.Ok? && description.Some? ==> r.value.description == description.value
    ensures r.Ok? && category.Some? ==> r.value.category == category.value
    ensures r.Ok? && price.Some? ==> r.value.price == price.value
    ensures r.Ok? && quantity.Some? ==> r.value.quantity == quantity.value
    ensures r.Ok? && description.None? ==> r.value.description == ""
    ensures r.Ok? && category.None? ==> r.value.category == DefaultCategories.Other
    ensures r.Ok? && price.None? ==> r.value.price == ZeroMoney
    ensures r.Ok? && quantity.None? ==> r.value.quantity == QuantityData(1)
  {
    if IsNullOrWhiteSpace(name) then Err(ArgumentError(NameRequired))
    else if userId == EmptyGuid then Err(ArgumentError(InvalidUser))
    else Ok(BillItem(
      id,
      name.value,
      description.GetOr(""),
      category.GetOr(DefaultCategories.Other),
      price.GetOr(ZeroMoney),
      quantity.GetOr(QuantityData(1)),
      userId))
  }

  /** Each omitted field takes its default on its own, whatever the other
      fields are: description "", the Other category, the Money that
      new Money(0, "") builds and the Quantity that new Quantity(1) builds. */
  lemma DefaultsForOmittedFields(
    id: Guid,
    name: string,
    description: Option<string>,
    category: Option<Category>,
    price: Option<Money>,
    quantity: Option<Quantity>,
    userId: Guid)
    requires !IsNullOrWhiteSpace(Some(name)) && userId != EmptyGuid
    ensures NewBillItem(id, Some(name), description, category, price, quantity, userId).Ok?
    ensures var item := NewBillItem(id, Some(name), description, category, price, quantity, userId).value;
            && (description.None? ==> item.description == "")
            && (category.None? ==> item.category == DefaultCategories.Other)
            && (price.None? ==> Ok(item.price) == NewMoney(0.0, Some("")))
            && (quantity.None? ==> Ok(item.quantity) == NewQuantity(1))
  {
  }

  /** BillItem.UpdateName */
  function UpdateName(item: BillItem, name: Option<string>): (r: Outcome<BillItem>)
    ensures r.Succeeded() <==> !IsNullOrWhiteSpace(name)
    ensures !r.Succeeded() ==> r.thrown == Some(ArgumentError(NameRequired)) && r.after == item
    ensures r.Succeeded() ==> r.after == item.(name := name.value)
  {
    if IsNullOrWhiteSpace(name) then Throw(item, ArgumentError(NameRequired))
    else Done(item.(name := name.value))
  }

  /** BillItem.UpdateDescription: never fails; the text is stored verbatim
      (white space included) and null becomes "". */
  function UpdateDescription(item: BillItem, description: Option<string>): (r: Outcome<BillItem>)
    ensures r.Succeeded()
    ensures description.Some? ==> r.after == item.(description := description.value)
    ensures description.None? ==> r.after == item.(description := "")
  {
    Done(item.(description := description.GetOr("")))
  }

  /** BillItem.UpdatePrice */
  function UpdatePrice(item: BillItem, price: Option<Money>): (r: Outcome<BillItem>)
    ensures r.Succeeded() <==> price.Some?
    ensures price.None? ==> r == Throw(item, ArgumentNullError("newPrice"))
    ensures price.Some? ==> r.after == item.(price := price.value)
  {
    match price
    case None => Throw(item, ArgumentNullError("newPrice"))
    case Some(p) => Done(item.(price := p))
  }

  /** BillItem.UpdateQuantity */
  function UpdateQuantity(item: BillItem, quantity: Option<Quantity>): (r: Outcome<BillItem>)
    ensures r.Succeeded() <==> quantity.Some?
    ensures quantity.None? ==> r == Throw(item, ArgumentNullError("newQuantity"))
    ensures quantity.Some? ==> r.after == item.(quantity := quantity.value)
  {
    match quantity
    case None => Throw(item, ArgumentNullError("newQuantity"))
    case Some(q) => Done(item.(quantity := q))
  }

  /** BillItem.UpdateCategory: never fails; null becomes the Other category. */
  function UpdateCategory(item: BillItem, category: Option<Category>): (r: Outcome<BillItem>)
    ensures r.Succeeded()
    ensures category.Some? ==> r.after == item.(category := category.value)
    ensures category.None? ==> r.after == item.(category := DefaultCategories.Other)
  {
    Done(item.(category := category.GetOr(DefaultCategories.Other)))
  }

  /** BillItem.Update: name, description, category, price, quantity, in that
      order, stopping at the first exception. */
  function Update(
    item: BillItem,
    name: Option<string>,
    description: Option<string>,
    category: Option<Category>,
    price: Option<Money>,
    quantity: Option<Quantity>): (r: Outcome<BillItem>)
    ensures r.after.id == item.id && r.after.userId == item.userId
  {
    var o1 := UpdateName(item, name);
    if !o1.Succeeded() then o1 else
    var o2 := UpdateDescription(o1.after, description);
    var o3 := UpdateCategory(o2.after, category);
    var o4 := UpdatePrice(o3.after, price);
    if !o4.Succeeded() then o4 else
    UpdateQuantity(o4.after, quantity)
  }

  /** Update is not atomic.  It fails exactly when the name is invalid, the
      price is null, or the quantity is null; a bad name changes nothing, but a
      null price throws after name, description and category were replaced, and
      a null quantity after the price was replaced too. */
  lemma UpdateExposesPartialEffects(
    item: BillItem,
    name: Option<string>,
    description: Option<string>,
    category: Option<Category>,
    price: Option<Money>,
    quantity: Option<Quantity>)
    ensures var r := Update(item, name, description, category, price, quantity);
            r.Succeeded() <==> !IsNullOrWhiteSpace(name) && price.Some? && quantity.Some?
    ensures var r := Update(item, name, description, category, price, quantity);
            IsNullOrWhiteSpace(name) ==> r == Throw(item, ArgumentError(NameRequired))
    ensures var r := Update(item, name, description, category, price, quantity);
            !IsNullOrWhiteSpace(name) && price.None? ==>
              var partial := item.(name := name.value, description := description.GetOr(""),
                                   category := category.GetOr(DefaultCategories.Other));
              r == Throw(partial, ArgumentNullError("newPrice"))
    ensures var r := Update(item, name, description, category, price, quantity);
            !IsNullOrWhiteSpace(name) && price.Some? && quantity.None? ==>
              var partial := item.(name := name.value, description := description.GetOr(""),
                                   category := category.GetOr(DefaultCategories.Other));
              r == Throw(partial.(price := price.value), ArgumentNullError("newQuantity"))
    ensures var r := Update(item, name, description, category, price, quantity);
            r.Succeeded() ==>
              r.after == item.(name := name.value, description := description.GetOr(""),
                               category := category.GetOr(DefaultCategories.Other),
                               price := price.value, quantity := quantity.value)
  {
  }
}
