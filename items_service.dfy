/**
 * `ItemsService` (src/services/items_service.py): the record business rules in front of the
 * repository. Reads are passed through; `create_item` guards the name first.
 */
module Service {
  import opened Strings
  import opened Results
  import opened Clock
  import opened Errors
  import opened Items
  import opened Repository

  const EmptyNameMessage := "Name cannot be empty"
  const LongNameMessage := "Name must be 100 characters or less"
  const MaxNameLength := 100

  /**
   * The two name rules of `create_item`, in their order: blank first (`not name` or only
   * whitespace), then more than 100 characters counted on the untrimmed name.
   */
  function CheckName(name: string): (r: Result<(), AppError>)
    ensures r.Ok? <==> !AllSpace(name) && |name| <= MaxNameLength
    ensures AllSpace(name) ==> r == Err(ValueError(EmptyNameMessage))
    ensures !AllSpace(name) && |name| > MaxNameLength ==> r == Err(ValueError(LongNameMessage))
  {
    BlankIff(name);
    if IsBlank(name) then Err(ValueError(EmptyNameMessage))
    else if |name| > MaxNameLength then Err(ValueError(LongNameMessage))
    else Ok(())
  }

  /** The blank rule wins: 101 spaces report an empty name, not a long one. */
  lemma BlankBeforeLength(name: string)
    requires |name| > MaxNameLength && forall k :: 0 <= k < |name| ==> name[k] == ' '
    ensures CheckName(name) == Err(ValueError(EmptyNameMessage))
  {
    assert AllSpace(name);
  }

  /** A name that passes the rules fits the `name` column. */
  lemma CheckedNameFitsColumn(name: string)
    requires CheckName(name).Ok?
    ensures |name| <= NameWidth
  {
  }

  /** `f"Item {item_id} not found for tenant {tenant_id}"`. */
  function NotFoundMessage(id: int, t: string): string
  {
    "Item " + IntToString(id) + " not found for tenant " + t
  }

  /** `get_item_by_id` without the store: the found row, or not-found. */
  function FoundOrNotFound(found: Option<Item>, t: string, id: int): (r: Result<Item, AppError>)
    ensures found.Some? ==> r == Ok(found.value)
    ensures found.None? ==> r.Err? && r.error.ItemNotFound? && Contains(r.error.message, t)
  {
    ContainsSuffix("Item " + IntToString(id) + " not found for tenant ", t);
    if found.None? then Err(ItemNotFound(NotFoundMessage(id, t))) else Ok(found.value)
  }

  class ItemsService {
    const repository: ItemsRepository

    /** `ItemsService(db)` builds its own repository over the session. */
    constructor (db: Table)
      ensures repository.db == db
    {
      repository := new ItemsRepository(db);
    }

    /** `get_items`: the repository's listing as it is. */
    method GetItems(t: string) returns (items: seq<Item>)
      modifies repository.db`issued
      ensures NewestFirst(items) && multiset(items) == multiset(OfTenant(repository.db.rows, t))
      ensures repository.db.issued == old(repository.db.issued) + [SelectByTenant(t)]
    {
      items := repository.FindByTenant(t);
    }

    /** `get_item_by_id`: the tenant's row with that id, or ItemNotFound naming the tenant. */
    method GetItemById(t: string, id: int) returns (r: Result<Item, AppError>)
      modifies repository.db`issued
      ensures r == FoundOrNotFound(Lookup(repository.db.rows, t, id), t, id)
      ensures repository.db.issued == old(repository.db.issued) + [SelectById(t, id)]
    {
      var found := repository.FindById(t, id);
      if found.None? {
        return Err(ItemNotFound(NotFoundMessage(id, t)));
      }
      return Ok(found.value);
    }

    /**
     * `create_item`: a name that breaks a rule is refused before the store is touched;
     * otherwise the untrimmed name, the tenant and the description go to `create` unchanged.
     */
    method CreateItem(t: string, name: string, description: Option<string>, created: DateTime, updated: DateTime)
      returns (r: Result<Item, AppError>)
      requires repository.db.Valid()
      modifies repository.db
      ensures repository.db.Valid()
      ensures CheckName(name).Err? ==>
                && r == Err(CheckName(name).error)
                && unchanged(repository.db)
      ensures CheckName(name).Ok? ==>
                && repository.db.issued == old(repository.db.issued) + [InsertRow(t)]
                && (StoreValues(t, name, description).Ok? ==>
                      var stored := StoreValues(t, name, description).value;
                      && r == Ok(Item(old(repository.db.nextId), stored.0, stored.1, description, Some(created), Some(updated)))
                      && repository.db.rows == old(repository.db.rows) + [r.value]
                      && repository.db.nextId == old(repository.db.nextId) + 1)
                && (StoreValues(t, name, description).Err? ==>
                      && r == Err(StoreValues(t, name, description).error)
                      && repository.db.rows == old(repository.db.rows)
                      && repository.db.nextId == old(repository.db.nextId))
    {
      var check := CheckName(name);
      if check.Err? {
        return Err(check.error);
      }
      r := repository.Create(t, name, description, created, updated);
    }

    /** `delete_item`: the repository's answer as it is. */
    method DeleteItem(t: string, id: int) returns (deleted: bool)
      requires repository.db.Valid()
      modifies repository.db
      ensures repository.db.Valid()
      ensures deleted <==> Lookup(old(repository.db.rows), t, id).Some?
      ensures repository.db.rows == if deleted then WithoutId(old(repository.db.rows), id)
                                   else old(repository.db.rows)
      ensures repository.db.nextId == old(repository.db.nextId)
      ensures repository.db.issued == old(repository.db.issued) + [SelectById(t, id)]
                                      + (if deleted then [DeleteRow(t, id)] else [])
    {
      deleted := repository.Delete(t, id);
    }

    /** `count_items`: the repository's count as it is. */
    method CountItems(t: string) returns (n: int)
      modifies repository.db`issued
      ensures n == |OfTenant(repository.db.rows, t)|
      ensures repository.db.issued == old(repository.db.issued) + [CountRows(t)]
    {
      n := repository.CountByTenant(t);
    }
  }
}
