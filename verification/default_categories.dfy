/**
 DefaultCategories: the four predefined categories seeded with fixed Ids.
 */
module DefaultCategories {
  import opened Common
  import opened Categories

  const GroceriesId: Guid := 0x1111_1111_1111_1111_1111_1111_1111_1111
  const UtilitiesId: Guid := 0x2222_2222_2222_2222_2222_2222_2222_2222
  const EntertainmentId: Guid := 0x3333_3333_3333_3333_3333_3333_3333_3333
  const OtherId: Guid := 0x4444_4444_4444_4444_4444_4444_4444_4444

  const Groceries := Category(GroceriesId, "Groceries", "Essential food and daily consumables", None)
  const Utilities := Category(UtilitiesId, "Utilities", "Electricity, water, gas, and related services", None)
  const Entertainment := Category(EntertainmentId, "Entertainment", "Movies, go outs, and leisure activities", None)
  const Other := Category(OtherId, "Other", "", None)

  /** DefaultCategories.List(): the seeds, in seeding order. */
  function List(): (r: seq<Category>)
    ensures r == [Groceries, Utilities, Entertainment, Other]
    ensures |r| == 4
    ensures forall i :: 0 <= i < |r| ==> r[i].IsPredefined()
    ensures forall i, j :: 0 <= i < j < |r| ==> r[i].id != r[j].id
  {
    [Groceries, Utilities, Entertainment, Other]
  }

  /** Each seed is what the seed constructor builds from its fixed Id, name and
      description with no owner; none of the four constructions throws. */
  lemma SeedsAreConstructed()
    ensures NewCategory(GroceriesId, Some("Groceries"), Some("Essential food and daily consumables"), None)
            == Ok(Groceries)
    ensures NewCategory(UtilitiesId, Some("Utilities"), Some("Electricity, water, gas, and related services"), None)
            == Ok(Utilities)
    ensures NewCategory(EntertainmentId, Some("Entertainment"), Some("Movies, go outs, and leisure activities"), None)
            == Ok(Entertainment)
    ensures NewCategory(OtherId, Some("Other"), Some(""), None) == Ok(Other)
  {
    assert !IsWhiteSpace("Groceries"[0]);
    assert !IsWhiteSpace("Utilities"[0]);
    assert !IsWhiteSpace("Entertainment"[0]);
    assert !IsWhiteSpace("Other"[0]);
  }

  /** Every category of the list is one the constructor builds from its own
      Id, name and description, with no owner. */
  lemma ListIsConstructed()
    ensures forall c | c in List() :: NewCategory(c.id, Some(c.name), Some(c.description), None) == Ok(c)
  {
    SeedsAreConstructed();
  }

  /** Every seed rejects Rename and UpdateDescription and stays as it was; a
      valid name is rejected for being predefined, an invalid one for the name. */
  lemma SeedsAreImmutable(c: Category, name: Option<string>, description: Option<string>)
    requires c in List()
    ensures !Rename(c, name).Succeeded() && Rename(c, name).after == c
    ensures !IsNullOrWhiteSpace(name) ==> Rename(c, name).thrown == Some(InvalidOperation(PredefinedImmutable))
    ensures UpdateDescription(c, description).thrown == Some(InvalidOperation(PredefinedImmutable))
    ensures UpdateDescription(c, description).after == c
  {
  }
}
