/**
 Category: a label for bill items, either owned by a user (UserId set) or
 predefined (UserId null).  Predefined categories reject every change.
 */
module Categories {
  import opened Common
  import Entities

  datatype Category = Category(id: Guid, name: string, description: string, userId: Option<Guid>) {
    function Key(): Entities.EntityKey { Entities.EntityKey(Entities.CategoryType, id) }

    /** `UserId == null`; note that an owner of Guid.Empty still counts as a
        user, not as predefined. */
    predicate IsPredefined() { userId.None? }
  }

  const NameRequired := "Category name is required."
  const PredefinedImmutable := "Predefined categories cannot be modified."

  /** Both constructors: `new Category(name, description, userId)` draws a fresh
      Id and the seed constructor is given one; in both the Id is `id`. */
  function NewCategory(id: Guid, name: Option<string>, description: Option<string>, userId: Option<Guid>)
    : (r: Result<Category>)
    ensures r.Err? <==> IsNullOrWhiteSpace(name)
    ensures r.Err? ==> r.error == ArgumentError(NameRequired)
    ensures r.Ok? ==> r.value.id == id && r.value.name == name.value && r.value.userId == userId
    ensures r.Ok? ==> r.value.description == (if description.Some? then description.value else "")
  {
    if IsNullOrWhiteSpace(name) then Err(ArgumentError(NameRequired))
    else Ok(Category(id, name.value, description.GetOr(""), userId))
  }

  /** Category.Rename: the name is validated before the predefined flag. */
  function Rename(c: Category, newName: Option<string>): (r: Outcome<Category>)
    ensures r.Succeeded() <==> !IsNullOrWhiteSpace(newName) && !c.IsPredefined()
    ensures IsNullOrWhiteSpace(newName) ==> r.thrown == Some(ArgumentError(NameRequired))
    ensures !IsNullOrWhiteSpace(newName) && c.IsPredefined() ==>
              r.thrown == Some(InvalidOperation(PredefinedImmutable))
    ensures !r.Succeeded() ==> r.after == c
    ensures r.Succeeded() ==> r.after == c.(name := newName.value)
  {
    if IsNullOrWhiteSpace(newName) then Throw(c, ArgumentError(NameRequired))
    else if c.IsPredefined() then Throw(c, InvalidOperation(PredefinedImmutable))
    else Done(c.(name := newName.value))
  }

  /** Category.UpdateDescription */
  function UpdateDescription(c: Category, newDescription: Option<string>): (r: Outcome<Category>)
    ensures r.Succeeded() <==> !c.IsPredefined()
    ensures !r.Succeeded() ==> r.thrown == Some(InvalidOperation(PredefinedImmutable)) && r.after == c
    ensures r.Succeeded() ==> r.after == c.(description := if newDescription.Some? then newDescription.value else "")
  {
    if c.IsPredefined() then Throw(c, InvalidOperation(PredefinedImmutable))
    else Done(c.(description := newDescription.GetOr("")))
  }

  /** Category.Update: Rename, then UpdateDescription.  It succeeds exactly
      when Rename alone would; then both fields are set, and on failure nothing
      changed (the description step cannot fail once the rename passed the
      predefined check). */
  function Update(c: Category, name: Option<string>, description: Option<string>): (r: Outcome<Category>)
    ensures r.Succeeded() <==> Rename(c, name).Succeeded()
    ensures r.thrown == Rename(c, name).thrown
    ensures !r.Succeeded() ==> r.after == c
    ensures r.Succeeded() ==> r.after == c.(name := name.value, description := description.GetOr(""))
  {
    var renamed := Rename(c, name);
    if !renamed.Succeeded() then renamed
    else UpdateDescription(renamed.after, description)
  }

  /** UserId is init-only: no operation turns a predefined category into a
      user-owned one or back, and the Id never changes. */
  lemma OwnershipIsPermanent(c: Category, name: Option<string>, description: Option<string>)
    ensures Rename(c, name).after.userId == c.userId && Rename(c, name).after.id == c.id
    ensures UpdateDescription(c, description).after.userId == c.userId
    ensures UpdateDescription(c, description).after.id == c.id
    ensures Update(c, name, description).after.userId == c.userId
    ensures Update(c, name, description).after.id == c.id
    ensures c.IsPredefined() ==> Update(c, name, description).after == c
  {
  }
}
