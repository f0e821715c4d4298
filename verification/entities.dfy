/**
 BaseEntity: identity of the domain's entities.  Two entities are equal when they
 have the same concrete type and the same Id, whatever their other fields hold.
 `List.Contains` and `List.Remove` in Bill and Period go through this equality, so
 membership of an entity in a collection is membership of its Id.
 */
module Entities {
  import opened Common

  /** The concrete classes deriving from BaseEntity. */
  datatype EntityType = CategoryType | BillItemType | BillType | PeriodType

  /** What BaseEntity.Equals looks at: the runtime type and the Id. */
  datatype EntityKey = EntityKey(entityType: EntityType, id: Guid)

  /** BaseEntity.Equals(BaseEntity? other), called on a non-null `self`: the
      other entity is present and has the same type and Id, which is to say the
      same key. */
  predicate Equals(self: EntityKey, other: Option<EntityKey>)
    ensures Equals(self, other) <==> other == Some(self)
  {
    other.Some? && self.entityType == other.value.entityType && self.id == other.value.id
  }

  /** BaseEntity.GetHashCode: the hash of the Id alone.  Guid's own hash
      function is not part of this model and is supplied by the caller. */
  function HashCode(self: EntityKey, guidHash: Guid -> int): (r: int)
    ensures forall other :: Equals(self, Some(other)) ==> r == guidHash(other.id)
  {
    guidHash(self.id)
  }

  /** Equality is the identity of the key: reflexive, symmetric, never true of
      null, and compatible with the hash code. */
  lemma EqualsIsKeyIdentity(a: EntityKey, b: EntityKey, guidHash: Guid -> int)
    ensures Equals(a, Some(b)) <==> a == b
    ensures Equals(a, Some(a))
    ensures Equals(a, Some(b)) <==> Equals(b, Some(a))
    ensures !Equals(a, None)
    ensures Equals(a, Some(b)) ==> HashCode(a, guidHash) == HashCode(b, guidHash)
  {
  }

  /** List<T>.IndexOf with the default comparer: the first element that is
      Equal to `x`. */
  function IndexOf<T>(s: seq<T>, key: T -> EntityKey, x: EntityKey): (r: Option<nat>)
    ensures r.Some? ==> r.value < |s| && Equals(key(s[r.value]), Some(x))
    ensures r.Some? ==> forall j :: 0 <= j < r.value ==> !Equals(key(s[j]), Some(x))
    ensures r.None? ==> forall j :: 0 <= j < |s| ==> !Equals(key(s[j]), Some(x))
  {
    if |s| == 0 then None
    else if Equals(key(s[0]), Some(x)) then Some(0)
    else match IndexOf(s[1..], key, x)
      case None => None
      case Some(i) => Some(i + 1)
  }

  /** List<T>.Contains: some element is Equal to `x`. */
  predicate Contains<T>(s: seq<T>, key: T -> EntityKey, x: EntityKey)
    ensures Contains(s, key, x) <==> exists j :: 0 <= j < |s| && Equals(key(s[j]), Some(x))
  {
    IndexOf(s, key, x).Some?
  }

  /** List<T>.Contains holds exactly when some element has the same Id as `x`
      (all elements of one list have the same concrete type). */
  lemma ContainsIsSameId<T>(s: seq<T>, key: T -> EntityKey, x: EntityKey)
    requires forall j :: 0 <= j < |s| ==> key(s[j]).entityType == x.entityType
    ensures Contains(s, key, x) <==> exists j :: 0 <= j < |s| && key(s[j]).id == x.id
  {
    if Contains(s, key, x) {
      var j := IndexOf(s, key, x).value;
      assert key(s[j]).id == x.id;
    }
  }

  /** All elements have pairwise different keys: what `Contains` before `Add`
      maintains. */
  predicate UniqueKeys<T>(s: seq<T>, key: T -> EntityKey) {
    forall i, j :: 0 <= i < j < |s| ==> key(s[i]) != key(s[j])
  }

  /** Removing the element at index i keeps the others in order. */
  function RemoveAt<T>(s: seq<T>, i: nat): (r: seq<T>)
    requires i < |s|
    ensures |r| == |s| - 1
    ensures forall j :: 0 <= j < i ==> r[j] == s[j]
    ensures forall j :: i <= j < |r| ==> r[j] == s[j + 1]
  {
    s[..i] + s[i + 1..]
  }

  lemma UniqueKeysAppend<T>(s: seq<T>, key: T -> EntityKey, x: T)
    requires UniqueKeys(s, key)
    requires !Contains(s, key, key(x))
    ensures UniqueKeys(s + [x], key)
  {
    var t := s + [x];
    forall i, j | 0 <= i < j < |t|
      ensures key(t[i]) != key(t[j])
    {
      if j == |s| {
        assert !Equals(key(s[i]), Some(key(x)));
      }
    }
  }

  lemma UniqueKeysRemoveAt<T>(s: seq<T>, key: T -> EntityKey, i: nat)
    requires i < |s|
    requires UniqueKeys(s, key)
    ensures UniqueKeys(RemoveAt(s, i), key)
  {
    var r := RemoveAt(s, i);
    forall a, b | 0 <= a < b < |r|
      ensures key(r[a]) != key(r[b])
    {
      var a' := if a < i then a else a + 1;
      var b' := if b < i then b else b + 1;
      assert r[a] == s[a'] && r[b] == s[b'];
    }
  }

  /** Looking up an element that was just appended to a list not containing it
      finds it at the end. */
  lemma {:induction false} IndexOfAppendAbsent<T>(s: seq<T>, key: T -> EntityKey, x: T)
    requires !Contains(s, key, key(x))
    ensures IndexOf(s + [x], key, key(x)) == Some(|s|)
  {
    if |s| > 0 {
      assert (s + [x])[1..] == s[1..] + [x];
      IndexOfAppendAbsent(s[1..], key, x);
    }
  }
}
