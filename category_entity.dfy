/** The category operations of the platform manager: create, rename and
    delete a category, list all categories and search them by name.
    SQL `ILIKE` with a pattern free of wildcards is equality under case
    folding (EqualsIgnoreCase), and `ILIKE '%term%'` is containment under
    case folding. */
module CategoryEntity {
  import opened Common
  import opened Seqs
  import opened Models

  /** Some category other than `except` has this name up to case. */
  predicate NameTaken(t: Tables, name: string, except: int) {
    exists k | k in t.categories :: k != except && EqualsIgnoreCase(t.categories[k].name, name)
  }

  /** A name free up to case is in particular free as written, so the
      unique constraint on the name column holds after the write. */
  lemma NotTakenIsFree(t: Tables, name: string, except: int)
    requires !NameTaken(t, name, except)
    ensures NameFree(t, name, except)
  {
  }

  /** `category_info.get("name", "")`: an absent key reads as "", and a JSON
      null stays None, on which `.strip()` raises. */
  function NameOrEmpty(name: JsonField<string>): Option<string> {
    match name
    case Missing => Some("")
    case Null => None
    case Present(s) => Some(s)
  }

  // ---------------------------------------------------------------------
  // create_category
  // ---------------------------------------------------------------------

  function CreateCategory(t: Tables, name: JsonField<string>, now: int): (o: Outcome)
    requires Consistent(t)
    ensures Consistent(o.tables)
    ensures o.reply != Ok ==> o.tables == t
    ensures name.Null? ==> o.reply == Fail("Failed to create category: ")
    ensures name.Missing? || (name.Present? && IsBlank(name.value)) ==>
              o.reply == Err("Category name cannot be empty")
    ensures name.Present? && !IsBlank(name.value) && NameTaken(t, Strip(name.value), 0) ==>
              o.reply == Err("Category already exists")
    ensures o.reply == Ok <==>
              name.Present? && !IsBlank(name.value) && !NameTaken(t, Strip(name.value), 0)
    ensures o.reply == Ok ==>
              var id := t.nextCategoryId;
              && id !in t.categories
              && o.tables.categories == t.categories[id := Category(Strip(name.value), now, now)]
              && |o.tables.categories| == |t.categories| + 1
              && o.tables == t.(categories := o.tables.categories, nextCategoryId := id + 1)
  {
    match NameOrEmpty(name)
    case None => Outcome(Fail("Failed to create category: "), t)
    case Some(raw) =>
      var n := Strip(raw);
      if n == [] then Outcome(Err("Category name cannot be empty"), t)
      else if NameTaken(t, n, 0) then Outcome(Err("Category already exists"), t)
      else
        NotTakenIsFree(t, n, t.nextCategoryId);
        Outcome(Ok, InsertCategory(t, Category(n, now, now)))
  }

  method ApplyCreateCategory(db: Db, name: JsonField<string>, now: int) returns (r: Reply)
    requires db.Valid()
    modifies db
    ensures Outcome(r, db.State()) == CreateCategory(old(db.State()), name, now)
    ensures db.Valid()
  {
    var t := db.State();
    var raw := NameOrEmpty(name);
    if raw.None? {
      return Fail("Failed to create category: ");
    }
    var n := Strip(raw.value);
    if n == [] {
      return Err("Category name cannot be empty");
    }
    if NameTaken(db.State(), n, 0) {
      return Err("Category already exists");
    }
    NotTakenIsFree(t, n, t.nextCategoryId);
    db.Store(InsertCategory(t, Category(n, now, now)));
    r := Ok;
  }

  // ---------------------------------------------------------------------
  // update_category
  // ---------------------------------------------------------------------

  function UpdateCategory(t: Tables, categoryId: int, name: JsonField<string>): (o: Outcome)
    requires Consistent(t)
    ensures Consistent(o.tables)
    ensures o.reply != Ok ==> o.tables == t
    ensures categoryId !in t.categories ==> o.reply == Err("Category not found")
    ensures categoryId in t.categories && name.Null? ==> o.reply == Fail("Failed to update category: ")
    ensures categoryId in t.categories && (name.Missing? || (name.Present? && IsBlank(name.value))) ==>
              o.reply == Err("Category name cannot be empty")
    ensures categoryId in t.categories && name.Present? && !IsBlank(name.value)
            && NameTaken(t, Strip(name.value), categoryId) ==>
              o.reply == Err("Another category with this name already exists")
    ensures o.reply == Ok <==>
              categoryId in t.categories && name.Present? && !IsBlank(name.value)
              && !NameTaken(t, Strip(name.value), categoryId)
    ensures o.reply == Ok ==>
              categoryId in t.categories &&
              o.tables == t.(categories := t.categories[categoryId :=
                                t.categories[categoryId].(name := Strip(name.value))])
  {
    if categoryId !in t.categories then Outcome(Err("Category not found"), t)
    else match NameOrEmpty(name)
      case None => Outcome(Fail("Failed to update category: "), t)
      case Some(raw) =>
        var n := Strip(raw);
        if n == [] then Outcome(Err("Category name cannot be empty"), t)
        else if NameTaken(t, n, categoryId) then
          Outcome(Err("Another category with this name already exists"), t)
        else
          NotTakenIsFree(t, n, categoryId);
          Outcome(Ok, PutCategory(t, categoryId, t.categories[categoryId].(name := n)))
  }

  method ApplyUpdateCategory(db: Db, categoryId: int, name: JsonField<string>) returns (r: Reply)
    requires db.Valid()
    modifies db
    ensures Outcome(r, db.State()) == UpdateCategory(old(db.State()), categoryId, name)
    ensures db.Valid()
  {
    if categoryId !in db.categories {
      return Err("Category not found");
    }
    var raw := NameOrEmpty(name);
    if raw.None? {
      return Fail("Failed to update category: ");
    }
    var n := Strip(raw.value);
    if n == [] {
      return Err("Category name cannot be empty");
    }
    if NameTaken(db.State(), n, categoryId) {
      return Err("Another category with this name already exists");
    }
    var t := db.State();
    NotTakenIsFree(t, n, categoryId);
    db.Store(PutCategory(t, categoryId, t.categories[categoryId].(name := n)));
    r := Ok;
  }

  /** Renaming a category to its own name in another case is accepted,
      because the duplicate check leaves its own row out, while creating a
      category under that name is refused. */
  lemma RenameToOwnNameInOtherCase(t: Tables, categoryId: int, name: string)
    requires Consistent(t) && categoryId in t.categories
    requires !IsBlank(name) && EqualsIgnoreCase(Strip(name), t.categories[categoryId].name)
    requires forall k | k in t.categories && k != categoryId ::
               !EqualsIgnoreCase(t.categories[k].name, t.categories[categoryId].name)
    ensures UpdateCategory(t, categoryId, Present(name)).reply == Ok
    ensures CreateCategory(t, Present(name), 0).reply == Err("Category already exists")
  {
    var n := Strip(name);
    assert categoryId != 0 && categoryId in t.categories
           && EqualsIgnoreCase(t.categories[categoryId].name, n);
  }

  // ---------------------------------------------------------------------
  // delete_category
  // ---------------------------------------------------------------------

  function DeleteCategory(t: Tables, categoryId: int): (o: Outcome)
    requires Consistent(t)
    ensures Consistent(o.tables)
    ensures o.reply == Ok <==> categoryId in t.categories
    ensures categoryId !in t.categories ==> o == Outcome(Err("Category not found"), t)
    ensures o.reply == Ok ==>
              && o.tables.categories == t.categories - {categoryId}
              && o.tables.requests.Keys == t.requests.Keys
              && (forall k | k in t.requests && t.requests[k].categoryId == Some(categoryId) ::
                    o.tables.requests[k] == t.requests[k].(categoryId := None))
              && (forall k | k in t.requests && t.requests[k].categoryId != Some(categoryId) ::
                    o.tables.requests[k] == t.requests[k])
              && o.tables == t.(categories := o.tables.categories, requests := o.tables.requests)
  {
    if categoryId !in t.categories then Outcome(Err("Category not found"), t)
    else Outcome(Ok, DeleteCategoryRow(t, categoryId))
  }

  /** The ids of the requests that use a category, in id order. */
  function RequestsInUse(t: Tables, categoryId: int): (ids: seq<int>)
    requires Consistent(t)
    ensures forall k :: k in ids <==> k in t.requests && t.requests[k].categoryId == Some(categoryId)
  {
    Filter(IdsUpTo(t.requests.Keys, t.nextRequestId),
           k => k in t.requests && t.requests[k].categoryId == Some(categoryId))
  }

  /** The loop of `delete_category`: each request in use loses its category. */
  method ClearCategory(requests: map<int, Request>, inUse: seq<int>, categoryId: int)
    returns (rs: map<int, Request>)
    requires forall k :: k in inUse <==> k in requests && requests[k].categoryId == Some(categoryId)
    ensures rs.Keys == requests.Keys
    ensures forall k | k in requests ::
              rs[k] == if requests[k].categoryId == Some(categoryId)
                       then requests[k].(categoryId := None) else requests[k]
  {
    rs := requests;
    for i := 0 to |inUse|
      invariant rs.Keys == requests.Keys
      invariant forall k | k in requests ::
                  rs[k] == if k in inUse[..i] then requests[k].(categoryId := None) else requests[k]
    {
      var k := inUse[i];
      assert inUse[..i + 1] == inUse[..i] + [k];
      rs := rs[k := rs[k].(categoryId := None)];
    }
    assert inUse[..|inUse|] == inUse;
  }

  method ApplyDeleteCategory(db: Db, categoryId: int) returns (r: Reply)
    requires db.Valid()
    modifies db
    ensures Outcome(r, db.State()) == DeleteCategory(old(db.State()), categoryId)
    ensures db.Valid()
  {
    if categoryId !in db.categories {
      return Err("Category not found");
    }
    ghost var t := db.State();
    var inUse := RequestsInUse(db.State(), categoryId);
    var requests := ClearCategory(db.requests, inUse, categoryId);
    db.requests := requests;
    db.categories := db.categories - {categoryId};
    CategoryDeleted(t, categoryId, db.State());
    r := Ok;
  }

  /** A database with the category row gone and its requests cleared is
      the one DeleteCategory describes. */
  lemma CategoryDeleted(t: Tables, categoryId: int, u: Tables)
    requires Consistent(t) && categoryId in t.categories
    requires u.requests.Keys == t.requests.Keys
    requires forall k | k in t.requests ::
               u.requests[k] == if t.requests[k].categoryId == Some(categoryId)
                                then t.requests[k].(categoryId := None) else t.requests[k]
    requires u == t.(categories := t.categories - {categoryId}, requests := u.requests)
    ensures DeleteCategory(t, categoryId) == Outcome(Ok, u)
    ensures Consistent(u)
  {
    var d := DeleteCategoryRow(t, categoryId);
    assert u.requests.Keys == d.requests.Keys;
    assert forall k | k in u.requests :: u.requests[k] == d.requests[k];
    assert u.requests == d.requests;
  }

  // ---------------------------------------------------------------------
  // get_category and search_category
  // ---------------------------------------------------------------------

  datatype CategoryRow = CategoryRow(id: int, name: string, createdAt: int, updatedAt: int)

  function RowId(c: CategoryRow): int { c.id }

  /** The row of category `k` as the listing serialises it. */
  predicate IsRowIn(cats: map<int, Category>, c: CategoryRow) {
    c.id in cats &&
    c == CategoryRow(c.id, cats[c.id].name, cats[c.id].createdAt, cats[c.id].updatedAt)
  }

  predicate IsRowOf(t: Tables, c: CategoryRow) {
    IsRowIn(t.categories, c)
  }

  /** The rows of a category table whose keys lie below `next`, in id order. */
  function Listing(cats: map<int, Category>, next: int): (rows: seq<CategoryRow>)
    requires forall k | k in cats :: 0 < k < next
    ensures IncreasingBy(rows, RowId)
    ensures forall c | c in rows :: IsRowIn(cats, c)
    ensures forall k | k in cats :: exists c | c in rows :: c.id == k
    ensures |rows| == |cats|
  {
    var ids := IdsUpTo(cats.Keys, next);
    IdsListKeys(cats.Keys, next);
    var rows := RowsOf(cats, ids);
    RowsListKeys(cats, ids, rows);
    rows
  }

  lemma RowsListKeys(cats: map<int, Category>, ids: seq<int>, rows: seq<CategoryRow>)
    requires StrictlyIncreasing(ids)
    requires forall i | 0 <= i < |ids| :: ids[i] in cats
    requires forall k | k in cats :: k in ids
    requires |rows| == |ids|
    requires forall i | 0 <= i < |ids| :: rows[i] == CategoryRow(ids[i], cats[ids[i]].name, cats[ids[i]].createdAt, cats[ids[i]].updatedAt)
    ensures IncreasingBy(rows, RowId)
    ensures forall c | c in rows :: IsRowIn(cats, c)
    ensures forall k | k in cats :: exists c | c in rows :: c.id == k
  {
    forall k | k in cats ensures exists c | c in rows :: c.id == k {
      var i :| 0 <= i < |ids| && ids[i] == k;
      assert rows[i].id == k;
    }
  }

  function RowsOf(cats: map<int, Category>, ids: seq<int>): (rows: seq<CategoryRow>)
    requires forall i | 0 <= i < |ids| :: ids[i] in cats
    ensures |rows| == |ids|
    ensures forall i | 0 <= i < |ids| :: rows[i] == CategoryRow(ids[i], cats[ids[i]].name, cats[ids[i]].createdAt, cats[ids[i]].updatedAt)
  {
    seq(|ids|, i requires 0 <= i < |ids| =>
      var c := cats[ids[i]];
      CategoryRow(ids[i], c.name, c.createdAt, c.updatedAt))
  }

  function GetCategory(t: Tables): (rows: seq<CategoryRow>)
    requires Consistent(t)
    ensures IncreasingBy(rows, RowId)
    ensures forall c | c in rows :: IsRowOf(t, c)
    ensures forall k | k in t.categories :: exists c | c in rows :: c.id == k
    ensures |rows| == |t.categories|
  {
    Listing(t.categories, t.nextCategoryId)
  }

  /** The ascending listing of the keys below the next id holds every key
      once. */
  lemma IdsListKeys(keys: set<int>, n: int)
    requires forall k | k in keys :: 0 < k < n
    ensures forall k | k in keys :: k in IdsUpTo(keys, n)
    ensures |IdsUpTo(keys, n)| == |keys|
  {
    IdsCoverKeys(IdsUpTo(keys, n), keys);
  }

  /** A strictly increasing listing of exactly the keys of a finite set has
      as many entries as the set. */
  lemma IdsCoverKeys(ids: seq<int>, keys: set<int>)
    requires StrictlyIncreasing(ids)
    requires forall i | 0 <= i < |ids| :: ids[i] in keys
    requires forall k | k in keys :: k in ids
    ensures |ids| == |keys|
  {
    var image := set i | 0 <= i < |ids| :: ids[i];
    forall k | k in keys ensures k in image {
      var i :| 0 <= i < |ids| && ids[i] == k;
    }
    assert keys == image;
    DistinctImage(ids);
  }

  lemma {:induction false} DistinctImage(ids: seq<int>)
    requires StrictlyIncreasing(ids)
    ensures |set i | 0 <= i < |ids| :: ids[i]| == |ids|
    decreases |ids|
  {
    if ids != [] {
      var init := ids[..|ids| - 1];
      DistinctImage(init);
      var s := set i | 0 <= i < |ids| :: ids[i];
      var s0 := set i | 0 <= i < |init| :: init[i];
      assert s == s0 + {ids[|ids| - 1]};
      assert ids[|ids| - 1] !in s0;
    }
  }

  /** `ILIKE '%term%'`: the lower-cased name contains the lower-cased term. */
  predicate NameMatches(c: CategoryRow, term: string) {
    Contains(Lower(c.name), Lower(term))
  }

  /** Categories whose name contains the stripped input up to case, ordered
      by id; nothing for a missing or blank input. */
  function SearchCategory(t: Tables, input: Option<string>): (rows: seq<CategoryRow>)
    requires Consistent(t)
    ensures input.None? || IsBlank(input.value) ==> rows == []
    ensures IncreasingBy(rows, RowId)
    ensures forall c | c in rows :: IsRowOf(t, c) && NameMatches(c, Strip(input.value))
    ensures input.Some? && !IsBlank(input.value) ==>
              forall c | c in GetCategory(t) && NameMatches(c, Strip(input.value)) :: c in rows
  {
    if input.None? || Strip(input.value) == [] then []
    else
      var term := Strip(input.value);
      var all := GetCategory(t);
      FilterIncreasing(all, c => NameMatches(c, term), RowId);
      Filter(all, c => NameMatches(c, term))
  }

  /** A search result is a listing entry, so searching never invents a
      category. */
  lemma SearchWithinListing(t: Tables, input: Option<string>)
    requires Consistent(t)
    ensures forall c | c in SearchCategory(t, input) :: c in GetCategory(t)
  {
  }
}
