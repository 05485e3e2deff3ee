/**
 * The tenant-partitioned `items` table and `ItemsRepository`
 * (src/repositories/items_repository.py). The database is an in-memory table object; the
 * queries are the pure functions below, and every statement the repository issues is
 * recorded in a ghost log so that "which tenant reached the store" can be stated.
 */
module Repository {
  import opened Results
  import opened Clock
  import opened Errors
  import opened Items

  /** A statement sent to the database, named by the tenant it filters or writes. */
  datatype Statement =
    | SelectByTenant(tenantId: string)
    | SelectById(tenantId: string, id: int)
    | InsertRow(tenantId: string)
    | DeleteRow(tenantId: string, id: int)
    | CountRows(tenantId: string)

  /** The `created_at` ordering key; stored rows always have one. */
  function CreatedKey(x: Item): nat
  {
    match x.createdAt
    case Some(d) => Instant(d)
    case None => 0
  }

  /** `WHERE tenant_id = :t`, keeping table order. */
  function OfTenant(rows: seq<Item>, t: string): (r: seq<Item>)
    ensures forall x :: x in r <==> x in rows && x.tenantId == t
    ensures |r| <= |rows|
  {
    if rows == [] then []
    else if rows[0].tenantId == t then [rows[0]] + OfTenant(rows[1..], t)
    else OfTenant(rows[1..], t)
  }

  /** `ORDER BY created_at DESC`: no row is newer than one listed before it. */
  predicate NewestFirst(xs: seq<Item>)
  {
    forall i, j :: 0 <= i < j < |xs| ==> CreatedKey(xs[i]) >= CreatedKey(xs[j])
  }

  function InsertByAge(x: Item, xs: seq<Item>): (r: seq<Item>)
    requires NewestFirst(xs)
    ensures NewestFirst(r)
    ensures multiset(r) == multiset(xs) + multiset{x}
    ensures |r| == |xs| + 1
  {
    if xs == [] || CreatedKey(x) >= CreatedKey(xs[0]) then
      HeadIsNewest(xs);
      PrependNewest(x, xs);
      [x] + xs
    else
      var rest := InsertByAge(x, xs[1..]);
      assert xs == [xs[0]] + xs[1..];
      HeadIsNewest(xs);
      forall y | y in rest
        ensures CreatedKey(y) <= CreatedKey(xs[0])
      {
        assert y in multiset(rest);
      }
      PrependNewest(xs[0], rest);
      [xs[0]] + rest
  }

  lemma HeadIsNewest(xs: seq<Item>)
    requires NewestFirst(xs)
    ensures forall y :: y in xs ==> CreatedKey(y) <= CreatedKey(xs[0])
  {
  }

  lemma PrependNewest(h: Item, xs: seq<Item>)
    requires NewestFirst(xs)
    requires forall y :: y in xs ==> CreatedKey(y) <= CreatedKey(h)
    ensures NewestFirst([h] + xs)
  {
    var r := [h] + xs;
    forall i, j | 0 <= i < j < |r|
      ensures CreatedKey(r[i]) >= CreatedKey(r[j])
    {
      if i == 0 {
        assert r[j] in xs;
      } else {
        assert r[i] == xs[i - 1] && r[j] == xs[j - 1];
      }
    }
  }

  /** One ordering the database may return: newest first, ties in table order. */
  function SortNewestFirst(xs: seq<Item>): (r: seq<Item>)
    ensures NewestFirst(r)
    ensures multiset(r) == multiset(xs)
    ensures |r| == |xs|
  {
    if xs == [] then []
    else
      assert xs == [xs[0]] + xs[1..];
      InsertByAge(xs[0], SortNewestFirst(xs[1..]))
  }

  /** `filter(tenant_id == t, id == i).first()`. */
  function Lookup(rows: seq<Item>, t: string, id: int): (r: Option<Item>)
    ensures r.Some? ==> r.value in rows && r.value.tenantId == t && r.value.id == id
    ensures r.None? <==> forall x :: x in rows ==> !(x.tenantId == t && x.id == id)
  {
    if rows == [] then None
    else if rows[0].tenantId == t && rows[0].id == id then Some(rows[0])
    else Lookup(rows[1..], t, id)
  }

  /** The table after `DELETE ... WHERE id = :id`. */
  function WithoutId(rows: seq<Item>, id: int): (r: seq<Item>)
    ensures forall x :: x in r <==> x in rows && x.id != id
  {
    if rows == [] then []
    else if rows[0].id == id then WithoutId(rows[1..], id)
    else [rows[0]] + WithoutId(rows[1..], id)
  }

  /** The primary key: no two rows share an id. */
  predicate UniqueIds(rows: seq<Item>)
  {
    forall i, j :: 0 <= i < j < |rows| ==> rows[i].id != rows[j].id
  }

  /** The in-memory table: its rows, the id sequence, and the log of statements received. */
  class Table {
    var rows: seq<Item>
    var nextId: int
    ghost var issued: seq<Statement>

    ghost predicate Valid()
      reads this
    {
      && 1 <= nextId
      && UniqueIds(rows)
      && forall x :: x in rows ==> 1 <= x.id < nextId && StoredRow(x)
    }

    constructor ()
      ensures Valid() && rows == [] && nextId == 1 && issued == []
    {
      rows := [];
      nextId := 1;
      issued := [];
    }
  }

  class ItemsRepository {
    const db: Table

    constructor (db: Table)
      ensures this.db == db
    {
      this.db := db;
    }

    /** `find_by_tenant`: exactly the tenant's rows, newest first. */
    method FindByTenant(t: string) returns (items: seq<Item>)
      modifies db`issued
      ensures NewestFirst(items) && multiset(items) == multiset(OfTenant(db.rows, t))
      ensures db.issued == old(db.issued) + [SelectByTenant(t)]
    {
      items := SortNewestFirst(OfTenant(db.rows, t));
      db.issued := db.issued + [SelectByTenant(t)];
    }

    /** `find_by_id`: the row with this id, only if it belongs to this tenant. */
    method FindById(t: string, id: int) returns (item: Option<Item>)
      modifies db`issued
      ensures item == Lookup(db.rows, t, id)
      ensures db.issued == old(db.issued) + [SelectById(t, id)]
    {
      item := Lookup(db.rows, t, id);
      db.issued := db.issued + [SelectById(t, id)];
    }

    /**
     * `create`: inserts one row with the next id and the two timestamp defaults (the column
     * defaults read the clock once each, so `created` and `updated` are two readings). The
     * row holds the values as the columns store them; a value the driver or a column refuses
     * fails the insert and leaves the table as it was.
     */
    method Create(t: string, name: string, description: Option<string>, created: DateTime, updated: DateTime)
      returns (r: Result<Item, AppError>)
      requires db.Valid()
      modifies db
      ensures db.Valid()
      ensures db.issued == old(db.issued) + [InsertRow(t)]
      ensures StoreValues(t, name, description).Ok? ==>
                var stored := StoreValues(t, name, description).value;
                && r == Ok(Item(old(db.nextId), stored.0, stored.1, description, Some(created), Some(updated)))
                && db.rows == old(db.rows) + [r.value]
                && db.nextId == old(db.nextId) + 1
      ensures StoreValues(t, name, description).Err? ==>
                && r == Err(StoreValues(t, name, description).error)
                && db.rows == old(db.rows) && db.nextId == old(db.nextId)
      ensures r.Ok? ==> forall x :: x in old(db.rows) ==> x.id != r.value.id
    {
      db.issued := db.issued + [InsertRow(t)];
      var stored := StoreValues(t, name, description);
      if stored.Err? {
        r := Err(stored.error);
        return;
      }
      var item := Item(db.nextId, stored.value.0, stored.value.1, description, Some(created), Some(updated));
      db.rows := db.rows + [item];
      db.nextId := db.nextId + 1;
      r := Ok(item);
    }

    /** `delete`: find the tenant's row, then remove it; false when there is none. */
    method Delete(t: string, id: int) returns (deleted: bool)
      requires db.Valid()
      modifies db
      ensures db.Valid() && db.nextId == old(db.nextId)
      ensures deleted <==> Lookup(old(db.rows), t, id).Some?
      ensures !deleted ==> db.rows == old(db.rows) && db.issued == old(db.issued) + [SelectById(t, id)]
      ensures deleted ==>
                && db.rows == WithoutId(old(db.rows), id)
                && db.issued == old(db.issued) + [SelectById(t, id), DeleteRow(t, id)]
    {
      var item := FindById(t, id);
      if item.None? {
        return false;
      }
      WithoutIdKeepsUnique(db.rows, id);
      db.rows := WithoutId(db.rows, id);
      db.issued := db.issued + [DeleteRow(t, id)];
      return true;
    }

    /** `count_by_tenant`. */
    method CountByTenant(t: string) returns (n: int)
      modifies db`issued
      ensures n == |OfTenant(db.rows, t)|
      ensures db.issued == old(db.issued) + [CountRows(t)]
    {
      n := |OfTenant(db.rows, t)|;
      db.issued := db.issued + [CountRows(t)];
    }
  }

  lemma {:induction false} WithoutIdKeepsUnique(rows: seq<Item>, id: int)
    requires UniqueIds(rows)
    ensures UniqueIds(WithoutId(rows, id))
  {
    if rows != [] {
      WithoutIdKeepsUnique(rows[1..], id);
      var rest := WithoutId(rows[1..], id);
      if rows[0].id != id {
        var r := [rows[0]] + rest;
        forall i, j | 0 <= i < j < |r|
          ensures r[i].id != r[j].id
        {
          if i == 0 {
            assert r[j] in rows[1..];
          }
        }
      }
    }
  }

  /** A row of another tenant is never listed and never found by id. */
  lemma OtherTenantInvisible(rows: seq<Item>, t: string, x: Item)
    requires x.tenantId != t
    ensures x !in SortNewestFirst(OfTenant(rows, t))
    ensures Lookup(rows, t, x.id) != Some(x)
  {
    var sorted := SortNewestFirst(OfTenant(rows, t));
    assert x in sorted <==> x in multiset(sorted);
  }

  /** The listing holds every row of the tenant and nothing else, each as often as stored. */
  lemma ListingIsTenantRows(rows: seq<Item>, t: string, x: Item)
    ensures x in SortNewestFirst(OfTenant(rows, t)) <==> x in rows && x.tenantId == t
    ensures |SortNewestFirst(OfTenant(rows, t))| == |OfTenant(rows, t)|
  {
    var sorted := SortNewestFirst(OfTenant(rows, t));
    assert x in sorted <==> x in multiset(sorted);
    assert x in OfTenant(rows, t) <==> x in multiset(OfTenant(rows, t));
  }

  /** `OfTenant` distributes over appending rows. */
  lemma {:induction false} OfTenantAppend(rows: seq<Item>, more: seq<Item>, t: string)
    ensures OfTenant(rows + more, t) == OfTenant(rows, t) + OfTenant(more, t)
  {
    if rows == [] {
      assert rows + more == more;
    } else {
      assert (rows + more)[0] == rows[0];
      assert (rows + more)[1..] == rows[1..] + more;
      OfTenantAppend(rows[1..], more, t);
    }
  }

  /**
   * Inserting a row for one tenant leaves every other tenant's rows exactly as they were,
   * and appends the row to its own tenant's rows.
   */
  lemma InsertIsolation(rows: seq<Item>, x: Item, t: string)
    ensures t != x.tenantId ==> OfTenant(rows + [x], t) == OfTenant(rows, t)
    ensures OfTenant(rows + [x], x.tenantId) == OfTenant(rows, x.tenantId) + [x]
  {
    OfTenantAppend(rows, [x], t);
    OfTenantAppend(rows, [x], x.tenantId);
  }

  /**
   * After a create returns row x (with an id no stored row has), looking x up by its own
   * tenant finds it, and looking it up under any other tenant finds nothing.
   */
  lemma {:induction false} CreateThenFind(rows: seq<Item>, x: Item, t2: string)
    requires forall y :: y in rows ==> y.id != x.id
    ensures Lookup(rows + [x], x.tenantId, x.id) == Some(x)
    ensures t2 != x.tenantId ==> Lookup(rows + [x], t2, x.id) == None
  {
    if rows != [] {
      assert (rows + [x])[1..] == rows[1..] + [x];
      CreateThenFind(rows[1..], x, t2);
    }
  }

  /** With unique ids, deleting a found row removes that one row and keeps all the others. */
  lemma {:induction false} DeleteRemovesExactlyOne(rows: seq<Item>, x: Item)
    requires UniqueIds(rows) && x in rows
    ensures multiset(rows) == multiset(WithoutId(rows, x.id)) + multiset{x}
    ensures |WithoutId(rows, x.id)| == |rows| - 1
  {
    assert rows == [rows[0]] + rows[1..];
    if rows[0] == x {
      assert forall y :: y in rows[1..] ==> y.id != x.id;
      WithoutIdAbsent(rows[1..], x.id);
    } else {
      assert x in rows[1..];
      DeleteRemovesExactlyOne(rows[1..], x);
      assert rows[0].id != x.id;
    }
  }

  lemma {:induction false} WithoutIdAbsent(rows: seq<Item>, id: int)
    requires forall y :: y in rows ==> y.id != id
    ensures WithoutId(rows, id) == rows
  {
    if rows != [] {
      WithoutIdAbsent(rows[1..], id);
      assert rows == [rows[0]] + rows[1..];
    }
  }

  /** Deleting one tenant's row leaves every other tenant's rows exactly as they were. */
  lemma {:induction false} DeleteIsolation(rows: seq<Item>, x: Item, t: string)
    requires UniqueIds(rows) && x in rows && t != x.tenantId
    ensures OfTenant(WithoutId(rows, x.id), t) == OfTenant(rows, t)
  {
    if rows[0] == x {
      assert forall y :: y in rows[1..] ==> y.id != x.id;
      WithoutIdAbsent(rows[1..], x.id);
    } else {
      assert x in rows[1..];
      DeleteIsolation(rows[1..], x, t);
    }
  }
}
