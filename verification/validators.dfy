/**
 The FluentValidation rule sets that guard the commands and queries before a
 handler touches an entity.  A validator yields the failures of its rules in
 rule order, each as a (property, message) pair; a command is accepted when
 there are none.  FluentValidation runs every rule of a chain even after one of
 them failed, and:
   - NotEmpty on a string fails for null, "" and white space only;
   - MaximumLength passes null;
   - NotEqual(Guid.Empty) and GreaterThan compare the value as given.

 The bridge lemmas relate acceptance by a validator to success of the entity
 operation the handler then calls, and show where the two disagree.
 */
module Validators {
  import opened Common
  import ValueObjects
  import Categories
  import BillItems
  import Bills
  import Periods
  import Paging

  type Money = ValueObjects.Money
  type Int32 = Paging.Int32

  /** The command or query property a rule is attached to. */
  datatype Property =
    | Id | Name | Description | Category | Price | Quantity | UserId
    | StartDate | EndDate | Page | PageSize | SortOrder

  datatype Failure = Failure(property: Property, message: string)

  const MaxNameLength: nat := 100
  const MaxDescriptionLength: nat := 500
  const MaxPageSize: int := 100

  const DescriptionTooLong := "Description must not exceed 500 characters."
  const UserIdRequired := "UserId is required."

  /** NotEmpty() on a string property. */
  predicate NotEmpty(s: Option<string>) {
    !IsNullOrWhiteSpace(s)
  }

  /** MaximumLength(n) on a string property. */
  predicate MaximumLength(s: Option<string>, n: nat) {
    s.None? || |s.value| <= n
  }

  /** One rule: no failure when it holds, its failure otherwise. */
  function Rule(holds: bool, property: Property, message: string): (r: seq<Failure>)
    ensures holds <==> r == []
    ensures Failure(property, message) in r <==> !holds
  {
    if holds then [] else [Failure(property, message)]
  }

  /** RuleFor(Name).NotEmpty().MaximumLength(100), with the entity's own two
      messages. */
  function NameRules(name: Option<string>, required: string, tooLong: string): (r: seq<Failure>)
    ensures r == [] <==> NotEmpty(name) && MaximumLength(name, MaxNameLength)
    ensures required != tooLong ==> (Failure(Name, required) in r <==> !NotEmpty(name))
    ensures required != tooLong ==> (Failure(Name, tooLong) in r <==> !MaximumLength(name, MaxNameLength))
  {
    Rule(NotEmpty(name), Name, required) + Rule(MaximumLength(name, MaxNameLength), Name, tooLong)
  }

  function DescriptionRule(description: Option<string>): (r: seq<Failure>)
    ensures r == [] <==> MaximumLength(description, MaxDescriptionLength)
    ensures Failure(Description, DescriptionTooLong) in r <==> !MaximumLength(description, MaxDescriptionLength)
  {
    Rule(MaximumLength(description, MaxDescriptionLength), Description, DescriptionTooLong)
  }

  function GuidRule(property: Property, g: Guid, message: string): (r: seq<Failure>)
    ensures r == [] <==> g != EmptyGuid
    ensures Failure(property, message) in r <==> g == EmptyGuid
    ensures forall f | f in r :: f.property == property
  {
    Rule(g != EmptyGuid, property, message)
  }

  /** RuleFor(StartDate).GreaterThan(MinValue) and
      RuleFor(EndDate).GreaterThan(MinValue).GreaterThan(StartDate). */
  function DateRules(startDate: Ticks, endDate: Ticks): (r: seq<Failure>)
    ensures r == [] <==> MinDateTime < startDate < endDate
    ensures Failure(StartDate, "StartDate must be a valid date.") in r <==> startDate <= MinDateTime
    ensures Failure(EndDate, "EndDate must be a valid date.") in r <==> endDate <= MinDateTime
    ensures Failure(EndDate, "EndDate must be after StartDate.") in r <==> endDate <= startDate
  {
    Rule(startDate > MinDateTime, StartDate, "StartDate must be a valid date.")
    + Rule(endDate > MinDateTime, EndDate, "EndDate must be a valid date.")
    + Rule(endDate > startDate, EndDate, "EndDate must be after StartDate.")
  }

  // ---------------------------------------------------------------- bills

  datatype CreateBillCommand = CreateBillCommand(name: Option<string>, description: Option<string>, userId: Guid)

  /** CreateBillCommandValidator */
  function ValidateCreateBill(cmd: CreateBillCommand): (r: seq<Failure>)
    ensures r == [] <==>
              && NotEmpty(cmd.name) && MaximumLength(cmd.name, MaxNameLength)
              && MaximumLength(cmd.description, MaxDescriptionLength)
              && cmd.userId != EmptyGuid
    ensures Failure(Name, "Bill name is required.") in r <==> !NotEmpty(cmd.name)
    ensures Failure(UserId, UserIdRequired) in r <==> cmd.userId == EmptyGuid
  {
    NameRules(cmd.name, "Bill name is required.", "Bill name must not exceed 100 characters.")
    + DescriptionRule(cmd.description)
    + GuidRule(UserId, cmd.userId, UserIdRequired)
  }

  /** An accepted command passes every check of the Bill constructor; the
      converse fails for names over 100 characters, which the entity accepts. */
  lemma CreateBillAcceptedIsConstructible(cmd: CreateBillCommand, id: Guid)
    requires ValidateCreateBill(cmd) == []
    ensures Bills.NewBill(id, cmd.name, cmd.description, cmd.userId).Ok?
  {
  }

  datatype UpdateBillCommand = UpdateBillCommand(id: Guid, name: Option<string>, description: Option<string>, userId: Guid)

  /** UpdateBillCommandValidator */
  function ValidateUpdateBill(cmd: UpdateBillCommand): (r: seq<Failure>)
    ensures r == [] <==>
              && cmd.id != EmptyGuid
              && NotEmpty(cmd.name) && MaximumLength(cmd.name, MaxNameLength)
              && MaximumLength(cmd.description, MaxDescriptionLength)
              && cmd.userId != EmptyGuid
    ensures Failure(Id, "Bill Id is required.") in r <==> cmd.id == EmptyGuid
  {
    GuidRule(Id, cmd.id, "Bill Id is required.")
    + NameRules(cmd.name, "Bill name is required.", "Bill name must not exceed 100 characters.")
    + DescriptionRule(cmd.description)
    + GuidRule(UserId, cmd.userId, UserIdRequired)
  }

  /** The handler's Bill.Update cannot fail on an accepted command. */
  lemma UpdateBillAcceptedSucceeds(cmd: UpdateBillCommand, b: Bills.Bill)
    requires ValidateUpdateBill(cmd) == []
    ensures Bills.Update(b, cmd.name, cmd.description).Succeeded()
    ensures Bills.Update(b, cmd.name, cmd.description).after.items == b.items
  {
  }

  // ----------------------------------------------------------- categories

  datatype UpdateCategoryCommand = UpdateCategoryCommand(id: Guid, name: Option<string>, description: Option<string>, userId: Guid)

  /** UpdateCategoryCommandValidator */
  function ValidateUpdateCategory(cmd: UpdateCategoryCommand): (r: seq<Failure>)
    ensures r == [] <==>
              && cmd.id != EmptyGuid
              && NotEmpty(cmd.name) && MaximumLength(cmd.name, MaxNameLength)
              && MaximumLength(cmd.description, MaxDescriptionLength)
              && cmd.userId != EmptyGuid
    ensures Failure(Id, "Category Id is required.") in r <==> cmd.id == EmptyGuid
  {
    GuidRule(Id, cmd.id, "Category Id is required.")
    + NameRules(cmd.name, "Category name is required.", "Category name must not exceed 100 characters.")
    + DescriptionRule(cmd.description)
    + GuidRule(UserId, cmd.userId, UserIdRequired)
  }

  /** On an accepted command, Category.Update succeeds exactly when the
      category is user-owned: the validator cannot see the predefined flag. */
  lemma UpdateCategoryAcceptedSucceedsIfOwned(cmd: UpdateCategoryCommand, c: Categories.Category)
    requires ValidateUpdateCategory(cmd) == []
    ensures Categories.Update(c, cmd.name, cmd.description).Succeeded() <==> !c.IsPredefined()
  {
  }

  // ------------------------------------------------------------- periods

  datatype CreatePeriodCommand = CreatePeriodCommand(
    name: Option<string>, description: Option<string>, startDate: Ticks, endDate: Ticks, userId: Guid)

  /** CreatePeriodCommandValidator */
  function ValidateCreatePeriod(cmd: CreatePeriodCommand): (r: seq<Failure>)
    ensures r == [] <==>
              && NotEmpty(cmd.name) && MaximumLength(cmd.name, MaxNameLength)
              && MaximumLength(cmd.description, MaxDescriptionLength)
              && MinDateTime < cmd.startDate < cmd.endDate
              && cmd.userId != EmptyGuid
    ensures Failure(Name, "Period name is required.") in r <==> !NotEmpty(cmd.name)
    ensures Failure(EndDate, "EndDate must be after StartDate.") in r <==> cmd.endDate <= cmd.startDate
  {
    NameRules(cmd.name, "Period name is required.", "Period name must not exceed 100 characters.")
    + DescriptionRule(cmd.description)
    + DateRules(cmd.startDate, cmd.endDate)
    + GuidRule(UserId, cmd.userId, UserIdRequired)
  }

  /** An accepted command passes every check of the Period constructor, and the
      period it builds starts strictly before it ends. */
  lemma CreatePeriodAcceptedIsConstructible(cmd: CreatePeriodCommand, id: Guid)
    requires ValidateCreatePeriod(cmd) == []
    ensures Periods.NewPeriod(id, cmd.name, cmd.description, cmd.startDate, cmd.endDate, cmd.userId).Ok?
    ensures var p := Periods.NewPeriod(id, cmd.name, cmd.description, cmd.startDate, cmd.endDate, cmd.userId).value;
            p.startDate < p.endDate
  {
  }

  /** A one-instant period (start = end) is rejected by the validator although
      the Period constructor accepts it. */
  lemma CreatePeriodRejectsEqualDates(name: string, t: Ticks, userId: Guid, id: Guid)
    requires NotEmpty(Some(name)) && userId != EmptyGuid
    ensures Failure(EndDate, "EndDate must be after StartDate.")
              in ValidateCreatePeriod(CreatePeriodCommand(Some(name), None, t, t, userId))
    ensures Periods.NewPeriod(id, Some(name), None, t, t, userId).Ok?
  {
  }

  datatype UpdatePeriodCommand = UpdatePeriodCommand(
    id: Guid, name: Option<string>, description: Option<string>, startDate: Ticks, endDate: Ticks, userId: Guid)

  /** UpdatePeriodCommandValidator */
  function ValidateUpdatePeriod(cmd: UpdatePeriodCommand): (r: seq<Failure>)
    ensures r == [] <==>
              && cmd.id != EmptyGuid
              && NotEmpty(cmd.name) && MaximumLength(cmd.name, MaxNameLength)
              && MaximumLength(cmd.description, MaxDescriptionLength)
              && MinDateTime < cmd.startDate < cmd.endDate
              && cmd.userId != EmptyGuid
    ensures Failure(Id, "Period Id is required.") in r <==> cmd.id == EmptyGuid
    ensures Failure(EndDate, "EndDate must be after StartDate.") in r <==> cmd.endDate <= cmd.startDate
  {
    GuidRule(Id, cmd.id, "Period Id is required.")
    + NameRules(cmd.name, "Period name is required.", "Period name must not exceed 100 characters.")
    + DescriptionRule(cmd.description)
    + DateRules(cmd.startDate, cmd.endDate)
    + GuidRule(UserId, cmd.userId, UserIdRequired)
  }

  /** Acceptance does not make Period.Update succeed: on an accepted command it
      succeeds exactly when the new start is not after the period's old end,
      and otherwise throws after the name and description were replaced. */
  lemma UpdatePeriodAcceptedMayStillFail(cmd: UpdatePeriodCommand, p: Periods.Period)
    requires ValidateUpdatePeriod(cmd) == []
    ensures var r := Periods.Update(p, cmd.name, cmd.description, cmd.startDate, cmd.endDate);
            r.Succeeded() <==> cmd.startDate <= p.endDate
    ensures cmd.startDate > p.endDate ==>
              Periods.Update(p, cmd.name, cmd.description, cmd.startDate, cmd.endDate)
                == Throw(p.(name := cmd.name.value, description := cmd.description.GetOr("")),
                         ArgumentError(Periods.StartAfterEnd))
  {
    Periods.UpdateExposesPartialEffects(p, cmd.name, cmd.description, cmd.startDate, cmd.endDate);
  }

  // ----------------------------------------------------------- bill items

  datatype UpdateBillItemCommand = UpdateBillItemCommand(
    id: Guid,
    name: Option<string>,
    description: Option<string>,
    category: Option<Categories.Category>,
    price: Option<Money>,
    quantity: Option<ValueObjects.Quantity>,
    userId: Guid)

  const ItemIdRequired := "Bill item Id is required."
  const ItemNameRequired := "Bill item name is required."
  const ItemNameTooLong := "Bill item name must not exceed 100 characters."
  const CategoryRequired := "Category must be provided."
  const PriceRequired := "Price must be provided."
  const PriceNotPositive := "Price must be greater than zero."
  const CurrencyRequired := "Currency must be provided."
  const QuantityRequired := "Quantity must be provided."
  const QuantityNotPositive := "Quantity must be greater than zero."

  /** What running a validator produces: its failures, or the
      NullReferenceException a rule threw. */
  datatype Validation = Failures(failures: seq<Failure>) | NullReference

  /** The rules before and after the Price and Quantity chains. */
  function BillItemFieldRules(cmd: UpdateBillItemCommand): (r: seq<Failure>)
    ensures r == [] <==>
              && cmd.id != EmptyGuid
              && NotEmpty(cmd.name) && MaximumLength(cmd.name, MaxNameLength)
              && MaximumLength(cmd.description, MaxDescriptionLength)
              && cmd.category.Some?
    ensures Failure(Id, ItemIdRequired) in r <==> cmd.id == EmptyGuid
    ensures Failure(Name, ItemNameRequired) in r <==> !NotEmpty(cmd.name)
    ensures Failure(Name, ItemNameTooLong) in r <==> !MaximumLength(cmd.name, MaxNameLength)
    ensures Failure(Description, DescriptionTooLong) in r <==> !MaximumLength(cmd.description, MaxDescriptionLength)
    ensures Failure(Category, CategoryRequired) in r <==> cmd.category.None?
    ensures forall f | f in r :: f.property != Price && f.property != Quantity && f.property != UserId
  {
    GuidRule(Id, cmd.id, ItemIdRequired)
    + TextRules(cmd.name, cmd.description)
    + Rule(cmd.category.Some?, Category, CategoryRequired)
  }

  /** The Name and Description rules of a bill item. */
  function TextRules(name: Option<string>, description: Option<string>): (r: seq<Failure>)
    ensures r == [] <==>
              NotEmpty(name) && MaximumLength(name, MaxNameLength) && MaximumLength(description, MaxDescriptionLength)
    ensures Failure(Name, ItemNameRequired) in r <==> !NotEmpty(name)
    ensures Failure(Name, ItemNameTooLong) in r <==> !MaximumLength(name, MaxNameLength)
    ensures Failure(Description, DescriptionTooLong) in r <==> !MaximumLength(description, MaxDescriptionLength)
    ensures forall f | f in r :: f.property == Name || f.property == Description
  {
    NameRules(name, ItemNameRequired, ItemNameTooLong) + DescriptionRule(description)
  }

  /** The Must rules on a present price and quantity. */
  function PriceRules(price: Money): (r: seq<Failure>)
    ensures r == [] <==> price.amount > 0.0 && !IsNullOrWhiteSpace(Some(price.currency))
    ensures Failure(Price, PriceNotPositive) in r <==> price.amount <= 0.0
    ensures Failure(Price, CurrencyRequired) in r <==> IsNullOrWhiteSpace(Some(price.currency))
    ensures Failure(Price, PriceRequired) !in r
    ensures forall f | f in r :: f.property == Price
  {
    Rule(price.amount > 0.0, Price, PriceNotPositive)
    + Rule(!IsNullOrWhiteSpace(Some(price.currency)), Price, CurrencyRequired)
  }

  function QuantityRules(quantity: ValueObjects.Quantity): (r: seq<Failure>)
    ensures r == []
  {
    Rule(quantity.value > 0, Quantity, QuantityNotPositive)
  }

  /** RuleFor(Price).NotNull().Must(..).Must(..), with the Must rules applied
      only to a present price. */
  function PriceChain(price: Option<Money>): (r: seq<Failure>)
    ensures r == [] <==> price.Some? && price.value.amount > 0.0 && !IsNullOrWhiteSpace(Some(price.value.currency))
    ensures Failure(Price, PriceRequired) in r <==> price.None?
    ensures Failure(Price, PriceNotPositive) in r <==> price.Some? && price.value.amount <= 0.0
    ensures Failure(Price, CurrencyRequired) in r <==> price.Some? && IsNullOrWhiteSpace(Some(price.value.currency))
    ensures forall f | f in r :: f.property == Price
  {
    match price
    case None => [Failure(Price, PriceRequired)]
    case Some(p) => PriceRules(p)
  }

  /** RuleFor(Quantity).NotNull().Must(..), with the Must rule applied only to
      a present quantity. */
  function QuantityChain(quantity: Option<ValueObjects.Quantity>): (r: seq<Failure>)
    ensures r == [] <==> quantity.Some?
    ensures r == [] || r == [Failure(Quantity, QuantityRequired)]
  {
    match quantity
    case None => [Failure(Quantity, QuantityRequired)]
    case Some(q) => QuantityRules(q)
  }

  /** UpdateBillItemCommandValidator as written: after NotNull on Price or
      Quantity fails, the Must predicates still run and dereference null. */
  function ValidateUpdateBillItemAsWritten(cmd: UpdateBillItemCommand): (r: Validation)
    ensures r.NullReference? <==> cmd.price.None? || cmd.quantity.None?
    ensures r.Failures? ==> r.failures == ValidateUpdateBillItem(cmd)
  {
    if cmd.price.None? || cmd.quantity.None? then NullReference
    else Failures(BillItemFieldRules(cmd)
                  + (PriceRules(cmd.price.value) + QuantityRules(cmd.quantity.value)
                     + GuidRule(UserId, cmd.userId, UserIdRequired)))
  }

  /** The Price and Quantity chains and the UserId rule, in that order. */
  function ValueRules(cmd: UpdateBillItemCommand): (r: seq<Failure>)
    ensures r == [] <==>
              && cmd.price.Some? && cmd.price.value.amount > 0.0
              && !IsNullOrWhiteSpace(Some(cmd.price.value.currency))
              && cmd.quantity.Some?
              && cmd.userId != EmptyGuid
    ensures Failure(Price, PriceRequired) in r <==> cmd.price.None?
    ensures Failure(Price, PriceNotPositive) in r <==> cmd.price.Some? && cmd.price.value.amount <= 0.0
    ensures Failure(Price, CurrencyRequired) in r <==> cmd.price.Some? && IsNullOrWhiteSpace(Some(cmd.price.value.currency))
    ensures Failure(Quantity, QuantityRequired) in r <==> cmd.quantity.None?
    ensures Failure(UserId, UserIdRequired) in r <==> cmd.userId == EmptyGuid
    ensures forall f | f in r :: f.property == Price || f.property == Quantity || f.property == UserId
  {
    PriceChain(cmd.price)
    + QuantityChain(cmd.quantity)
    + GuidRule(UserId, cmd.userId, UserIdRequired)
  }

  /** UpdateBillItemCommandValidator with the Must predicates guarded by the
      NotNull before them, so a missing price or quantity is reported as such. */
  function ValidateUpdateBillItem(cmd: UpdateBillItemCommand): (r: seq<Failure>)
    ensures r == [] <==>
              && cmd.id != EmptyGuid
              && NotEmpty(cmd.name) && MaximumLength(cmd.name, MaxNameLength)
              && MaximumLength(cmd.description, MaxDescriptionLength)
              && cmd.category.Some?
              && cmd.price.Some? && cmd.price.value.amount > 0.0
              && !IsNullOrWhiteSpace(Some(cmd.price.value.currency))
              && cmd.quantity.Some?
              && cmd.userId != EmptyGuid
    ensures Failure(Id, ItemIdRequired) in r <==> cmd.id == EmptyGuid
    ensures Failure(Name, ItemNameRequired) in r <==> !NotEmpty(cmd.name)
    ensures Failure(Name, ItemNameTooLong) in r <==> !MaximumLength(cmd.name, MaxNameLength)
    ensures Failure(Description, DescriptionTooLong) in r <==> !MaximumLength(cmd.description, MaxDescriptionLength)
    ensures Failure(Category, CategoryRequired) in r <==> cmd.category.None?
    ensures Failure(Price, PriceRequired) in r <==> cmd.price.None?
    ensures Failure(Price, PriceNotPositive) in r <==> cmd.price.Some? && cmd.price.value.amount <= 0.0
    ensures Failure(Price, CurrencyRequired) in r <==> cmd.price.Some? && IsNullOrWhiteSpace(Some(cmd.price.value.currency))
    ensures Failure(Quantity, QuantityRequired) in r <==> cmd.quantity.None?
    ensures Failure(UserId, UserIdRequired) in r <==> cmd.userId == EmptyGuid
  {
    BillItemFieldRules(cmd) + ValueRules(cmd)
  }

  /** A command without a price does not produce "Price must be provided."
      as written: the validator throws instead.  With the guard it is
      reported as a failure. */
  lemma MissingPriceCrashesValidator(cmd: UpdateBillItemCommand)
    requires cmd.price.None?
    ensures ValidateUpdateBillItemAsWritten(cmd) == NullReference
    ensures Failure(Price, PriceRequired) in ValidateUpdateBillItem(cmd)
  {
  }

  /** On an accepted command, BillItem.Update succeeds and sets every field
      from the command. */
  lemma UpdateBillItemAcceptedSucceeds(cmd: UpdateBillItemCommand, item: BillItems.BillItem)
    requires ValidateUpdateBillItem(cmd) == []
    ensures var r := BillItems.Update(item, cmd.name, cmd.description, cmd.category, cmd.price, cmd.quantity);
            r.Succeeded() &&
            r.after == item.(name := cmd.name.value, description := cmd.description.GetOr(""),
                             category := cmd.category.value, price := cmd.price.value,
                             quantity := cmd.quantity.value)
  {
    BillItems.UpdateExposesPartialEffects(item, cmd.name, cmd.description, cmd.category, cmd.price, cmd.quantity);
  }

  /** A free item, Money(0, c), is a valid Money and a valid item price, but
      the validator rejects it. */
  lemma ZeroPriceIsRejected(cmd: UpdateBillItemCommand)
    requires cmd.price.Some? && cmd.price.value.amount == 0.0
    ensures Failure(Price, PriceNotPositive) in ValidateUpdateBillItem(cmd)
    ensures ValueObjects.NewMoney(0.0, Some(cmd.price.value.currency)) == Ok(cmd.price.value)
  {
    ValueObjects.NewMoneyRoundTrip(cmd.price.value);
  }

  // -------------------------------------------------------------- queries

  /** GetBillItemsQuery and GetPeriodsQuery: the same paging parameters. */
  datatype PagedQuery = PagedQuery(
    userId: Guid,
    searchTerm: Option<string>,
    sortColumn: Option<string>,
    sortOrder: Option<string>,
    page: Int32,
    pageSize: Int32)

  predicate SortOrderAllowed(order: Option<string>) {
    order.None? || EqualsIgnoreCase(order.value, "asc") || EqualsIgnoreCase(order.value, "desc")
  }

  /** GetBillItemsQueryValidator and GetPeriodsQueryValidator, which hold the
      same rules. */
  function ValidatePagedQuery(q: PagedQuery): (r: seq<Failure>)
    ensures r == [] <==>
              q.userId != EmptyGuid && q.page >= 1 && 1 <= q.pageSize <= MaxPageSize && SortOrderAllowed(q.sortOrder)
    ensures Failure(Page, "Page number must be greater than zero.") in r <==> q.page <= 0
    ensures Failure(PageSize, "Page size must be greater than zero.") in r <==> q.pageSize <= 0
    ensures Failure(PageSize, "Page size must not exceed 100.") in r <==> q.pageSize > MaxPageSize
  {
    GuidRule(UserId, q.userId, UserIdRequired)
    + Rule(q.page > 0, Page, "Page number must be greater than zero.")
    + Rule(q.pageSize > 0, PageSize, "Page size must be greater than zero.")
    + Rule(q.pageSize <= MaxPageSize, PageSize, "Page size must not exceed 100.")
    + Rule(SortOrderAllowed(q.sortOrder), SortOrder, "SortOrder must be either 'asc' or 'desc'.")
  }

  /** The sort order is compared ignoring case, and "" is not a sort order. */
  lemma {:induction false} SortOrderSpellings()
    ensures SortOrderAllowed(None)
    ensures SortOrderAllowed(Some("ASC")) && SortOrderAllowed(Some("Desc"))
    ensures !SortOrderAllowed(Some(""))
    ensures !SortOrderAllowed(Some("ascending"))
  {
    assert ToUpper("ASC") == "ASC" == ToUpper("asc");
    assert ToUpper("Desc") == "DESC" == ToUpper("desc");
    assert |ToUpper("ascending")| == 9;
  }

  /** An accepted query gives a defined page count, pages of at most 100
      items, and, while the page number is at most 21474837, the same page as
      the 32-bit offset computation. */
  lemma AcceptedQueryPages<T>(q: PagedQuery, items: seq<T>)
    requires ValidatePagedQuery(q) == []
    ensures Paging.TotalPages(Paging.ToPageList(items, q.page, q.pageSize)).Some?
    ensures |Paging.ToPageList(items, q.page, q.pageSize).items| <= MaxPageSize
    ensures q.page <= 21474837 ==>
              Paging.ToPageListAsWritten(items, q.page, q.pageSize) == Paging.ToPageList(items, q.page, q.pageSize)
  {
    if q.page <= 21474837 {
      Paging.MulMonotone(q.page - 1, 21474836, q.pageSize);
      Paging.MulMonotone(q.pageSize, MaxPageSize, 21474836);
      Paging.MulNonNegative(q.page - 1, q.pageSize);
      Paging.AsWrittenAgreesWhenOffsetFits(items, q.page, q.pageSize);
    }
  }

  /** The validator accepts page 21474838 of size 100, whose offset overflows:
      the as-written paging then answers with the first page. */
  lemma AcceptedQueryCanOverflow(userId: Guid)
    requires userId != EmptyGuid
    ensures ValidatePagedQuery(PagedQuery(userId, None, None, None, 21474838, 100)) == []
    ensures Paging.ToPageListAsWritten([7], 21474838, 100).items == [7]
    ensures Paging.ToPageList([7], 21474838, 100).items == []
  {
    Paging.OffsetOverflowReturnsFirstPage();
  }
}
