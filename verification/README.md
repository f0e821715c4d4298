# FinanceApp domain core in Dafny

A model of the domain layer of the FinanceApp personal-finance backend, with
proofs about it:

- the value objects `Money` (a non-negative amount with an upper-cased currency)
  and `Quantity` (a positive count);
- identity equality of entities (`BaseEntity`: same concrete type, same Id);
- `Category` and the four predefined `DefaultCategories`;
- `BillItem`;
- `Bill`: a single-currency list of items whose total is Σ price × quantity;
- `Period`: a date range of bills whose `TotalSpent` groups the bill totals by
  currency;
- the pagination helper `PageList` and `ToPageListAsync`;
- the FluentValidation validators that guard the commands that create and
  update bills, periods, bill items and categories, and the paged queries for
  bill items and periods.

Every mutating C# method becomes a pure function from the old object to an
`Outcome`: the object after the call, plus the exception thrown, if any. So a
method that throws half-way shows exactly which fields it had already changed.
Constructors return `Ok(object)` or `Err(exception)`. Further modelling choices:

- `null` is `None`.
- A `Guid` is a natural number below 2^128, with 0 for `Guid.Empty`.
- A `DateTime` is its tick count, with 0 for `DateTime.MinValue`.
- A `decimal` is a `real`.
- A fresh `Guid.NewGuid()` is passed in as a parameter.
- Entity equality is represented by an `EntityKey`: the concrete type and the
  Id. `List.Contains`, `List.IndexOf` and `List.Remove` search for the first
  element with an equal key.

A validator is a function that returns its failures in rule order, as
(property, message) pairs with the source's messages. A command is accepted
when the list is empty. Bridge lemmas connect acceptance by a validator to
success of the entity method that the handler calls next.

Compound updates are not atomic. `BillItem.Update`, `Period.Update` and
`Bill.AddBillItems` change fields one after the other, so when a later step
throws, the earlier changes stay. The model exposes the partial state each of
them leaves behind.

## Model

| member | source | states |
|---|---|---|
| `ValueObjects.NormalizeCurrency` | src/FinanceApp.Domain/ValueObjects/Money.cs:13 | the stored currency is upper case and as long as the input; null becomes "" |
| `ValueObjects.NewMoney` | src/FinanceApp.Domain/ValueObjects/Money.cs:8-14 | construction fails exactly when the amount is negative, with "Amount cannot be negative."; otherwise the amount is kept and every currency character is upper-cased, white space included |
| `ValueObjects.NewMoneyRoundTrip` | src/FinanceApp.Domain/ValueObjects/Money.cs:13 | rebuilding a Money from its own amount and currency yields the same Money: normalisation is idempotent |
| `ValueObjects.MoneyEquality` | src/FinanceApp.Domain/ValueObjects/Money.cs:3-14 | two constructed Money values are equal exactly when the amounts are equal and the normalised currencies are equal |
| `ValueObjects.CurrencyCaseInsensitive` | src/FinanceApp.Domain/ValueObjects/Money.cs:13 | Money(a, "usd") equals Money(a, "USD"); " " is kept rather than trimmed; null and "" both give "" |
| `ValueObjects.NewQuantity` | src/FinanceApp.Domain/ValueObjects/Quantity.cs:7-11 | construction fails exactly when the value is ≤ 0; otherwise the value is kept, so it is at least 1 |
| `ValueObjects.QuantityEquality` | src/FinanceApp.Domain/ValueObjects/Quantity.cs:3-11 | two constructed Quantities are equal exactly when their values are |
| `Entities.Equals` | src/FinanceApp.Domain/Entities/BaseEntity.cs:19-23 | two entities are equal exactly when the other is not null and has the same key, that is the same runtime type and Id |
| `Entities.HashCode` | src/FinanceApp.Domain/Entities/BaseEntity.cs:34 | every entity equal to this one has the same hash code, since the hash depends on the Id alone |
| `Entities.EqualsIsKeyIdentity` | src/FinanceApp.Domain/Entities/BaseEntity.cs:19-34 | equality holds exactly for the same type and Id; it is reflexive and symmetric, false against null, and equal entities have equal hash codes |
| `Entities.IndexOf` | src/FinanceApp.Domain/Entities/Bill.cs:44 | the result is the first position holding an element equal to the key, and None when there is none |
| `Entities.Contains` | src/FinanceApp.Domain/Entities/Bill.cs:44 | a list contains an entity exactly when some element is equal to it under BaseEntity equality |
| `Entities.ContainsIsSameId` | src/FinanceApp.Domain/Entities/BaseEntity.cs:19-23 | within a list of one entity type, Contains holds exactly when some element has the same Id |
| `Entities.RemoveAt` | src/FinanceApp.Domain/Entities/Bill.cs:55 | removing position i keeps every other element, in order |
| `Entities.UniqueKeysAppend` | src/FinanceApp.Domain/Entities/Bill.cs:44-48 | appending an element whose key is absent keeps the keys pairwise distinct |
| `Entities.UniqueKeysRemoveAt` | src/FinanceApp.Domain/Entities/Bill.cs:55 | removing an element keeps the keys pairwise distinct |
| `Entities.IndexOfAppendAbsent` | src/FinanceApp.Domain/Entities/Bill.cs:44-48 | an element appended to a list that did not contain it is found at the end |
| `Categories.NewCategory` | src/FinanceApp.Domain/Entities/Category.cs:13-30 | both constructors fail exactly for a null or white-space name; a null description becomes "" and the owner is kept |
| `Categories.Rename` | src/FinanceApp.Domain/Entities/Category.cs:39-45 | the name is checked before the predefined flag; on failure nothing changes; on success only Name changes |
| `Categories.UpdateDescription` | src/FinanceApp.Domain/Entities/Category.cs:47-52 | fails exactly for a predefined category, changing nothing; otherwise stores the description, with null as "" |
| `Categories.Update` | src/FinanceApp.Domain/Entities/Category.cs:32-37 | succeeds exactly when Rename would and throws what Rename throws; on success both name and description are set, and on failure nothing changes, so the update is atomic |
| `Categories.OwnershipIsPermanent` | src/FinanceApp.Domain/Entities/Category.cs:7 | no operation changes the owner or the Id, and a predefined category is never changed |
| `DefaultCategories.List` | src/FinanceApp.Domain/Entities/DefaultCategories.cs:29-35 | the seeds Groceries, Utilities, Entertainment and Other, in that order: four predefined categories with pairwise distinct Ids |
| `DefaultCategories.ListIsConstructed` | src/FinanceApp.Domain/Entities/DefaultCategories.cs:5-35 | every listed category is what the constructor builds from its own Id, name and description with no owner |
| `DefaultCategories.SeedsAreConstructed` | src/FinanceApp.Domain/Entities/DefaultCategories.cs:5-27 | each seed is what the seed constructor builds from its fixed Id, name and description, with no owner |
| `DefaultCategories.SeedsAreImmutable` | src/FinanceApp.Domain/Entities/DefaultCategories.cs:9-27 | every seed rejects Rename and UpdateDescription and stays unchanged |
| `BillItems.NewBillItem` | src/FinanceApp.Domain/Entities/BillItem.cs:18-30 | fails exactly for a null or white-space name or an empty user, the name checked first; each given field is stored, and each omitted one takes its own default: description "", category Other, price Money(0, ""), quantity 1 |
| `BillItems.DefaultsForOmittedFields` | src/FinanceApp.Domain/Entities/BillItem.cs:25-28 | whatever the other fields are, an omitted description is "", an omitted category is Other, an omitted price is what new Money(0, "") builds and an omitted quantity is what new Quantity(1) builds |
| `BillItems.UpdateName` | src/FinanceApp.Domain/Entities/BillItem.cs:47-52 | rejects a null or white-space name and keeps the old one; otherwise replaces only the name |
| `BillItems.UpdateDescription` | src/FinanceApp.Domain/Entities/BillItem.cs:54-58 | never fails; stores the text verbatim, with null as "" |
| `BillItems.UpdatePrice` | src/FinanceApp.Domain/Entities/BillItem.cs:60-66 | rejects null with an ArgumentNullException for newPrice; otherwise replaces only the price |
| `BillItems.UpdateQuantity` | src/FinanceApp.Domain/Entities/BillItem.cs:68-74 | rejects null with an ArgumentNullException for newQuantity; otherwise replaces only the quantity |
| `BillItems.UpdateCategory` | src/FinanceApp.Domain/Entities/BillItem.cs:76-80 | never fails; null becomes the Other category |
| `BillItems.Update` | src/FinanceApp.Domain/Entities/BillItem.cs:12 | whatever happens, the Id and the owner are unchanged |
| `BillItems.UpdateExposesPartialEffects` | src/FinanceApp.Domain/Entities/BillItem.cs:32-45 | Update fails exactly for a bad name, a null price or a null quantity; a null price throws after name, description and category were replaced, and a null quantity after the price was replaced too |
| `Bills.NewBill` | src/FinanceApp.Domain/Entities/Bill.cs:19-27 | fails exactly for a null or white-space name or an empty user; otherwise an empty, valid bill with the description defaulted to "" |
| `Bills.AddBillItem` | src/FinanceApp.Domain/Entities/Bill.cs:41-50 | checks null, then a duplicate Id, then a currency different from the first item's; on failure nothing changes; on success the item is appended at the end |
| `Bills.AddBillItemPreservesValid` | src/FinanceApp.Domain/Entities/Bill.cs:44-48 | adding keeps one currency across all items and keeps the Ids distinct |
| `Bills.EmptyBillAcceptsAnyCurrency` | src/FinanceApp.Domain/Entities/Bill.cs:45 | once a bill is empty, an item in any currency is accepted |
| `Bills.LockedBillRejectsOtherCurrency` | src/FinanceApp.Domain/Entities/Bill.cs:45-46 | a non-empty bill rejects an item in a different currency, changing nothing |
| `Bills.AddEach` | src/FinanceApp.Domain/Entities/Bill.cs:34-37 | items are added left to right; the bill ends with the old items followed by a prefix of the new ones, and on failure the next item is the one AddBillItem rejects |
| `Bills.AddBillItems` | src/FinanceApp.Domain/Entities/Bill.cs:29-39 | a null list throws an ArgumentNullException and changes nothing; otherwise it is AddEach |
| `Bills.AddEachPreservesValid` | src/FinanceApp.Domain/Entities/Bill.cs:29-39 | the partial result of adding several items is still a valid bill |
| `Bills.RemoveItem` | src/FinanceApp.Domain/Entities/Bill.cs:52-58 | rejects null and an absent item, changing nothing; otherwise removes the first item with that Id, keeping the others in order |
| `Bills.RemoveItemPreservesValid` | src/FinanceApp.Domain/Entities/Bill.cs:52-58 | removing keeps the bill valid, and no item with that Id remains |
| `Bills.RemoveUndoesAdd` | src/FinanceApp.Domain/Entities/Bill.cs:41-58 | removing an item that was just added restores the bill |
| `Bills.UpdateName` | src/FinanceApp.Domain/Entities/Bill.cs:67-72 | rejects a null or white-space name and changes nothing; otherwise replaces only the name |
| `Bills.UpdateDescription` | src/FinanceApp.Domain/Entities/Bill.cs:74-78 | never fails; stores the description, with null as "" |
| `Bills.Update` | src/FinanceApp.Domain/Entities/Bill.cs:60-65 | succeeds exactly for a valid name, then sets name and description; it never touches the items |
| `Bills.LineTotal` | src/FinanceApp.Domain/Entities/Bill.cs:84 | an item's price × quantity is never below its price, and is zero exactly when the price is zero |
| `Bills.ItemsTotal` | src/FinanceApp.Domain/Entities/Bill.cs:84 | the sum of the line totals is at least each single line total, and is zero exactly when every item is free |
| `Bills.TotalPrice` | src/FinanceApp.Domain/Entities/Bill.cs:80-88 | Money(0, "") for an empty bill, otherwise in the first item's currency, which every item of a valid bill shares |
| `Bills.TotalPriceIsConstructed` | src/FinanceApp.Domain/Entities/Bill.cs:84-87 | the total is what the Money constructor builds from Σ amount × quantity and the first currency, so it never throws |
| `Bills.ItemsTotalAppend` | src/FinanceApp.Domain/Entities/Bill.cs:84 | appending an item adds its price × quantity to the sum |
| `Bills.ItemsTotalRemoveAt` | src/FinanceApp.Domain/Entities/Bill.cs:84 | removing an item subtracts its price × quantity from the sum |
| `Bills.TotalPriceTracksAddAndRemove` | src/FinanceApp.Domain/Entities/Bill.cs:41-58 | AddBillItem raises the total amount by the item's line total, and RemoveItem lowers it by the removed item's |
| `CurrencyGroups.Currencies` | src/FinanceApp.Domain/Entities/Period.cs:96 | the distinct currencies, without repetition, are exactly those occurring in the input |
| `CurrencyGroups.GroupByCurrency` | src/FinanceApp.Domain/Entities/Period.cs:95-98 | one entry per distinct currency, in order of first appearance, each holding the sum of that currency's amounts |
| `CurrencyGroups.GroupsAreTheCurrencies` | src/FinanceApp.Domain/Entities/Period.cs:96 | the groups' currencies are pairwise distinct and are exactly the input's currencies; there are no groups exactly when there is no input |
| `CurrencyGroups.GroupingConservesTotal` | src/FinanceApp.Domain/Entities/Period.cs:97 | the group amounts add up to the sum of all input amounts |
| `Periods.NewPeriod` | src/FinanceApp.Domain/Entities/Period.cs:21-33 | checks dates, then name, then user; start = end is allowed; a built period has ordered dates and no bills |
| `Periods.AddBill` | src/FinanceApp.Domain/Entities/Period.cs:35-42 | rejects null and a duplicate Id, with no currency check; on success the bill is appended |
| `Periods.RemoveBill` | src/FinanceApp.Domain/Entities/Period.cs:44-50 | rejects null and an absent bill; otherwise removes the first bill with that Id |
| `Periods.AddBillRemoveBill` | src/FinanceApp.Domain/Entities/Period.cs:35-50 | a bill just added is found again as a duplicate, and removing it restores the period |
| `Periods.AddRemoveBillKeepUniqueIds` | src/FinanceApp.Domain/Entities/Period.cs:38-47 | adding and removing keep the bill Ids distinct |
| `Periods.UpdateName` | src/FinanceApp.Domain/Entities/Period.cs:61-66 | rejects a null or white-space name and changes nothing; otherwise replaces only the name |
| `Periods.UpdateDescription` | src/FinanceApp.Domain/Entities/Period.cs:68-72 | never fails; null becomes "" |
| `Periods.UpdateStartDate` | src/FinanceApp.Domain/Entities/Period.cs:74-80 | fails exactly when the new start is after the current end, leaving both dates unchanged; keeps start ≤ end |
| `Periods.UpdateEndDate` | src/FinanceApp.Domain/Entities/Period.cs:82-88 | fails exactly when the new end is before the current start, leaving both dates unchanged; keeps start ≤ end |
| `Periods.Update` | src/FinanceApp.Domain/Entities/Period.cs:52-58 | keeps start ≤ end and never touches the bills, the Id or the owner |
| `Periods.UpdateExposesPartialEffects` | src/FinanceApp.Domain/Entities/Period.cs:52-88 | Update succeeds exactly for a valid name, a new start not after the old end, and a new end not before the new start; each failure's partial state is given |
| `Periods.MovingPastOldEndFails` | src/FinanceApp.Domain/Entities/Period.cs:56 | moving a period wholly past its old end fails on the start date, after name and description have changed |
| `Periods.BillTotals` | src/FinanceApp.Domain/Entities/Period.cs:96-97 | one total per bill, in bill order: an empty bill contributes Money(0, ""), and any other bill the sum of its line totals in its first item's currency |
| `Periods.TotalSpent` | src/FinanceApp.Domain/Entities/Period.cs:90-99 | one entry per distinct bill-total currency, each holding the sum of those bill totals |
| `Periods.TotalSpentShape` | src/FinanceApp.Domain/Entities/Period.cs:92-98 | TotalSpent is empty exactly when there are no bills, and its currencies are distinct and are exactly the bill totals' currencies |
| `Periods.TotalSpentConservesTotal` | src/FinanceApp.Domain/Entities/Period.cs:95-98 | the TotalSpent amounts add up to the sum of all bill totals |
| `Periods.OnlyEmptyBillsSpendZero` | src/FinanceApp.Domain/Entities/Period.cs:92-98 | a period holding only empty bills spends exactly [Money(0, "")] |
| `Periods.MultiCurrencyExample` | src/FinanceApp.Domain/Entities/Period.cs:95-98 | bills totalling 6 USD and 300 EUR give two entries, 6 USD then 300 EUR |
| `Periods.SameCurrencyExample` | src/FinanceApp.Domain/Entities/Period.cs:97 | bills totalling 8 EUR and 3 EUR give the single entry 11 EUR |
| `Paging.Wrap32` | src/FinanceApp.Infrastructure/Extensions/IQueryableExtensions.cs:16 | unchecked int arithmetic: the result is an int congruent to the exact value modulo 2^32, and equal to it when that fits |
| `Paging.CeilDiv` | src/FinanceApp.Application/Helpers/PageList.cs:8 | the result is the ceiling of the rational quotient, for either sign of the divisor |
| `Paging.TotalPages` | src/FinanceApp.Application/Helpers/PageList.cs:8 | defined exactly for a non-zero page size; for a positive size, (pages − 1) × size < count ≤ pages × size; 0 items give 0 pages |
| `Paging.HasNextPage` | src/FinanceApp.Application/Helpers/PageList.cs:9 | defined exactly when TotalPages is, and true exactly when the page is below the page count |
| `Paging.HasPreviousPage` | src/FinanceApp.Application/Helpers/PageList.cs:10 | for a positive page size, true exactly when the page starts at a positive offset, that is when items come before it |
| `Paging.PageFlagsMeanItemsElsewhere` | src/FinanceApp.Application/Helpers/PageList.cs:9-10 | for a positive size, there is a next page exactly when items follow this page, and a previous page exactly when this page starts after the first item |
| `Paging.SkipTakeIsSlice` | src/FinanceApp.Infrastructure/Extensions/IQueryableExtensions.cs:15-17 | Skip then Take is the slice from the offset, of at most the page size, cut off at the end |
| `Paging.ToPageList` | src/FinanceApp.Infrastructure/Extensions/IQueryableExtensions.cs:8-20 | the count is the whole query's length; page and size are echoed; the items are the slice from (page − 1) × size, at most size of them |
| `Paging.ToPageListAsWritten` | src/FinanceApp.Infrastructure/Extensions/IQueryableExtensions.cs:14-19 | with the 32-bit offset, the count, page and size are still right and the page holds at most size items |
| `Paging.AsWrittenAgreesWhenOffsetFits` | src/FinanceApp.Infrastructure/Extensions/IQueryableExtensions.cs:16 | while (page − 1) × size fits in an int, the 32-bit computation gives the exact page |
| `Paging.OffsetOverflowReturnsFirstPage` | src/FinanceApp.Infrastructure/Extensions/IQueryableExtensions.cs:16 | page 21474838 of size 100 over a one-element query returns that element as written, under `Enumerable` Skip/Take semantics, where the exact page is empty |
| `Paging.PastTheEndIsEmpty` | src/FinanceApp.Infrastructure/Extensions/IQueryableExtensions.cs:14-18 | a page starting at or beyond the end is empty, and the count is still the whole query's |
| `Paging.PagesUpToIsPrefix` | src/FinanceApp.Infrastructure/Extensions/IQueryableExtensions.cs:15-18 | pages 1 to n, concatenated, are the first n × size items of the query |
| `Paging.PagesConcatenateToQuery` | src/FinanceApp.Application/Helpers/PageList.cs:8 | reading pages 1 to TotalPages in turn yields the whole query, each item once and in order |
| `Validators.NameRules` | src/FinanceApp.Application/Bills/Commands/UpdateBillCommandValidator.cs:12-14 | the name fails NotEmpty exactly when it is null or white space, and MaximumLength exactly when it exceeds 100 characters |
| `Validators.DateRules` | src/FinanceApp.Application/Periods/Commands/UpdatePeriodCommandValidator.cs:19-27 | accepted exactly when MinValue < start < end; "StartDate must be a valid date." exactly when start ≤ MinValue, "EndDate must be a valid date." exactly when end ≤ MinValue, and "EndDate must be after StartDate." exactly when end ≤ start |
| `Validators.ValidateCreateBill` | src/FinanceApp.Application/Bills/Commands/CreateBillCommandValidator.cs:9-17 | accepts exactly a non-blank name of at most 100 characters, a description of at most 500 and a non-empty user |
| `Validators.CreateBillAcceptedIsConstructible` | src/FinanceApp.Application/Bills/Commands/CreateBillCommandValidator.cs:9-17 | an accepted command passes every check of the Bill constructor |
| `Validators.ValidateUpdateBill` | src/FinanceApp.Application/Bills/Commands/UpdateBillCommandValidator.cs:9-20 | additionally requires a non-empty bill Id, reported as "Bill Id is required." |
| `Validators.UpdateBillAcceptedSucceeds` | src/FinanceApp.Application/Bills/Commands/UpdateBillCommandValidator.cs:12-14 | on an accepted command, Bill.Update succeeds and leaves the items alone |
| `Validators.ValidateUpdateCategory` | src/FinanceApp.Application/Categories/Commands/UpdateCategoryCommandValidator.cs:9-20 | accepts exactly a non-empty Id and user, a non-blank name of at most 100 characters and a description of at most 500 |
| `Validators.UpdateCategoryAcceptedSucceedsIfOwned` | src/FinanceApp.Application/Categories/Commands/UpdateCategoryCommandValidator.cs:12-14 | on an accepted command, Category.Update succeeds exactly for a user-owned category |
| `Validators.ValidateCreatePeriod` | src/FinanceApp.Application/Periods/Commands/CreatePeriodCommandValidator.cs:9-27 | accepts exactly a valid name and description, MinValue < start < end, and a non-empty user |
| `Validators.CreatePeriodAcceptedIsConstructible` | src/FinanceApp.Application/Periods/Commands/CreatePeriodCommandValidator.cs:20-24 | an accepted command passes the Period constructor, which builds a period starting strictly before its end |
| `Validators.CreatePeriodRejectsEqualDates` | src/FinanceApp.Domain/Entities/Period.cs:107-111 | start = end is rejected by the validator but accepted by the Period constructor |
| `Validators.ValidateUpdatePeriod` | src/FinanceApp.Application/Periods/Commands/UpdatePeriodCommandValidator.cs:9-30 | additionally requires a non-empty period Id, reported as "Period Id is required." |
| `Validators.UpdatePeriodAcceptedMayStillFail` | src/FinanceApp.Application/Periods/Commands/UpdatePeriodCommandValidator.cs:26-27 | on an accepted command, Period.Update succeeds exactly when the new start is not after the old end; otherwise it throws after changing name and description |
| `Validators.BillItemFieldRules` | src/FinanceApp.Application/BillItems/Commands/UpdateBillItemCommandValidator.cs:9-20 | the Id, name, description and category rules accept exactly a non-empty Id, a valid name and description, and a category; each of their messages is reported exactly when its own condition fails |
| `Validators.PriceRules` | src/FinanceApp.Application/BillItems/Commands/UpdateBillItemCommandValidator.cs:24-27 | a present price passes exactly when its amount is positive and its currency is not blank; "Price must be greater than zero." is reported exactly for an amount ≤ 0, and "Currency must be provided." exactly for a blank currency |
| `Validators.QuantityRules` | src/FinanceApp.Application/BillItems/Commands/UpdateBillItemCommandValidator.cs:31-32 | the quantity > 0 rule never fails for a present Quantity |
| `Validators.ValidateUpdateBillItemAsWritten` | src/FinanceApp.Application/BillItems/Commands/UpdateBillItemCommandValidator.cs:22-32 | throws a NullReferenceException exactly when the price or the quantity is null; otherwise yields the same failures as the guarded rules |
| `Validators.ValidateUpdateBillItem` | src/FinanceApp.Application/BillItems/Commands/UpdateBillItemCommandValidator.cs:9-35 | accepts exactly a full command with a positive price in a non-blank currency; each of the validator's messages (Id, name required, name too long, description too long, category, price missing, price not positive, currency blank, quantity missing, user) is reported exactly when its condition fails |
| `Validators.MissingPriceCrashesValidator` | src/FinanceApp.Application/BillItems/Commands/UpdateBillItemCommandValidator.cs:22-25 | without a price the validator throws, where the guarded rules report "Price must be provided." |
| `Validators.UpdateBillItemAcceptedSucceeds` | src/FinanceApp.Domain/Entities/BillItem.cs:32-45 | on an accepted command, BillItem.Update succeeds and sets every field from the command |
| `Validators.ZeroPriceIsRejected` | src/FinanceApp.Application/BillItems/Commands/UpdateBillItemCommandValidator.cs:24-25 | Money(0, c) is a valid Money, yet the validator rejects it as a price |
| `Validators.ValidatePagedQuery` | src/FinanceApp.Application/BillItems/Queries/GetBillItemsQueryValidator.cs:9-23 | accepts exactly a non-empty user, page ≥ 1, 1 ≤ page size ≤ 100, and a null, "asc" or "desc" sort order in any case; each bound has its own message |
| `Validators.SortOrderSpellings` | src/FinanceApp.Application/Periods/Queries/GetPeriodsQueryValidator.cs:19-23 | null, "ASC" and "Desc" are accepted; "" and "ascending" are not |
| `Validators.AcceptedQueryPages` | src/FinanceApp.Application/Periods/Queries/GetPeriodsQueryValidator.cs:12-17 | an accepted query has a defined page count and at most 100 items per page, and up to page 21474837 it matches the 32-bit computation |
| `Validators.AcceptedQueryCanOverflow` | src/FinanceApp.Application/BillItems/Queries/GetBillItemsQueryValidator.cs:12-17 | the validators accept page 21474838 of size 100, whose 32-bit offset wraps around |

## Left out

- Timestamps are not modelled. `CreatedAt` and `UpdatedAt` are set from the system clock.
- `Money.ToString` is not modelled. It uses culture-dependent decimal formatting.
- Casing is ASCII only. `string.ToUpper` uses the current culture and full Unicode case mapping, while the model upper-cases a–z and leaves every other character as it is. `OrdinalIgnoreCase` is modelled the same way.
- String lengths count characters, not UTF-16 code units, so a name with characters outside the Basic Multilingual Plane is measured differently by `MaximumLength`.
- `decimal` overflow and rounding are not modelled. Amounts are exact reals, so `Σ amount × quantity` never overflows.
- Each exception keeps its type and message. The paramName is kept only for the ArgumentNullExceptions.
- Aliasing is not modelled. An item is a value, so the model cannot express the hazard of calling `UpdatePrice` on an item object already held by a bill, which changes that bill's currency without its check. The bill invariant is stated over the item values the bill holds.
- Paging.TotalPages: the conversion of the double ceiling to int is not modelled. It only matters for a count of int.MinValue over a page size of −1. A zero page size, whose conversion is platform-defined, is reported as undefined.
- The query is an in-memory sequence with the semantics of `Enumerable.Skip` and `Enumerable.Take`. How a database provider translates a negative OFFSET is not part of this model. `CountAsync` overflowing past int.MaxValue is also not modelled.
- Repositories, command and query handlers, controllers, authentication and dependency wiring are not modelled. Handlers only load an entity, call the modelled method and save.
- The Delete and single-entity Get validators only require non-empty Guids. That is the `GuidRule` used by the modelled validators.
- The CreateBillItem and CreateCategory validators are not part of this model, because their source is not available.
- The search term and sort column of the paged queries carry no validation rules.
- `Quantity.Value` is a 32-bit int in the source and an unbounded integer in the model. This only adds values the program cannot produce, so no behaviour of the source is lost.
- Validators.QuantityRules states that the rule never fails, which holds because every modelled `Quantity` was built by its constructor. A Quantity materialised from the database without its constructor is not modelled.

## Findings

| source | as written | input that shows it | evidently intended | confidence | as-written member | corrected member |
|---|---|---|---|---|---|---|
| src/FinanceApp.Infrastructure/Extensions/IQueryableExtensions.cs:16 | `(page - 1) * pageSize` is computed in unchecked 32-bit int arithmetic | page 21474838 and page size 100, both accepted by the query validators: the offset 2147483700 wraps to −2147483596. Under `Enumerable.Skip` semantics nothing is skipped, so a one-element query returns its element. The configured provider is Npgsql (src/FinanceApp.Infrastructure/InfrastructureServiceRegistration.cs:16), and PostgreSQL rejects a negative OFFSET, so there the request fails with an error instead | a page past the end is empty, which needs the offset computed without wrap-around or the page number bounded | not executed | `Paging.OffsetOverflowReturnsFirstPage` | `Paging.ToPageList` |
| src/FinanceApp.Application/BillItems/Commands/UpdateBillItemCommandValidator.cs:22-32 | the Must predicates after `NotNull()` on Price and Quantity still run on a null value, because the default cascade continues after a failure | a command with Price = null: the lambda on `price.Amount` dereferences null and throws a NullReferenceException instead of reporting "Price must be provided." | a missing price or quantity is reported as a validation failure, for instance with `Cascade(CascadeMode.Stop)` | not executed | `Validators.MissingPriceCrashesValidator` | `Validators.ValidateUpdateBillItem` |
