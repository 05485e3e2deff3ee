/**
 * The items endpoints (src/api/controllers/items_controller.py):
 * `GET /{tenant_id}/items`, `POST /{tenant_id}/items` and `GET /{tenant_id}/items/{item_id}`.
 * Each one validates the tenant, then builds a service over the table, delegates and shapes
 * the answer with `to_dict`. The framework validates the JSON body against
 * `ItemCreateRequest` before the endpoint body runs.
 */
module ItemsApi {
  import opened Strings
  import opened Results
  import opened Clock
  import opened Config
  import opened Errors
  import opened Json
  import opened Tenants
  import opened Items
  import opened Repository
  import opened Service

  /** A successful answer and its status code. */
  datatype Response<T> = Response(statusCode: int, content: T)

  /** `ItemCreateRequest`: `name` of 1 to 100 characters, `description` optional (None). */
  datatype ItemCreateRequest = ItemCreateRequest(name: string, description: Option<string>)

  /** The JSON object sent to the create endpoint. */
  datatype CreateBody = CreateBody(name: JsonField<string>, description: JsonField<string>)

  const MinRequestName := 1
  const MaxRequestName := 100

  /** Schema validation of the create body; `None` is a request without a body. */
  function ParseCreateRequest(body: Option<CreateBody>): (r: Result<ItemCreateRequest, AppError>)
    ensures r.Ok? <==> body.Some? && body.value.name.Given?
                       && MinRequestName <= |body.value.name.value| <= MaxRequestName
    ensures r.Ok? ==> r.value.name == body.value.name.value
    ensures r.Ok? ==> (r.value.description.Some? <==> body.value.description.Given?)
    ensures r.Ok? && body.value.description.Given? ==> r.value.description == Some(body.value.description.value)
    ensures r.Err? ==> r.error.RequestValidation?
  {
    if body.None? then Err(RequestValidation("body: Field required"))
    else match body.value.name
      case Absent => Err(RequestValidation("name: Field required"))
      case Null => Err(RequestValidation("name: Input should be a valid string"))
      case Given(n) =>
        if |n| < MinRequestName then Err(RequestValidation("name: String should have at least 1 character"))
        else if |n| > MaxRequestName then Err(RequestValidation("name: String should have at most 100 characters"))
        else
          var description := match body.value.description
                             case Given(d) => Some(d)
                             case _ => None;
          Ok(ItemCreateRequest(n, description))
  }

  /** The service's "more than 100 characters" rule cannot fire behind the request schema. */
  lemma LongNameRuleUnreachable(body: Option<CreateBody>)
    requires ParseCreateRequest(body).Ok?
    ensures CheckName(ParseCreateRequest(body).value.name) != Err(ValueError(LongNameMessage))
    ensures CheckName(ParseCreateRequest(body).value.name).Ok? <==> !AllSpace(ParseCreateRequest(body).value.name)
  {
  }

  /** `[item.to_dict() for item in items]`. */
  function Views(items: seq<Item>): (vs: seq<ItemView>)
    ensures |vs| == |items|
    ensures forall k :: 0 <= k < |items| ==> vs[k] == ToDict(items[k])
  {
    if items == [] then [] else [ToDict(items[0])] + Views(items[1..])
  }

  /** Every statement sent during a request names a tenant the allowlist admits. */
  ghost predicate OnlyAdmitted(cfg: Settings, sent: seq<Statement>)
  {
    forall s :: s in sent ==> ValidateTenant(cfg, s.tenantId).Ok?
  }

  lemma OneAdmitted(cfg: Settings, s: Statement)
    requires ValidateTenant(cfg, s.tenantId).Ok?
    ensures OnlyAdmitted(cfg, [s])
  {
  }

  lemma NoneSent(cfg: Settings)
    ensures OnlyAdmitted(cfg, [])
  {
  }

  /**
   * `get_items`: an unknown tenant is refused before anything reaches the table; otherwise
   * the tenant's rows, newest first, each shaped by `to_dict` (`listed` is the order the
   * table returned them in).
   */
  method GetItems(cfg: Settings, t: string, db: Table) returns (r: Result<Response<seq<ItemView>>, AppError>, ghost listed: seq<Item>)
    modifies db`issued
    ensures ValidateTenant(cfg, t).Err? ==> r == Err(ValidateTenant(cfg, t).error) && db.issued == old(db.issued)
    ensures ValidateTenant(cfg, t).Ok? ==>
              && r == Ok(Response(200, Views(listed)))
              && NewestFirst(listed) && multiset(listed) == multiset(OfTenant(db.rows, t))
              && db.issued == old(db.issued) + [SelectByTenant(t)]
    ensures OnlyAdmitted(cfg, db.issued[|old(db.issued)|..])
  {
    var admitted := ValidateTenant(cfg, t);
    if admitted.Err? {
      assert db.issued[|old(db.issued)|..] == [];
      NoneSent(cfg);
      return Err(admitted.error), [];
    }
    var service := new ItemsService(db);
    var items := service.GetItems(t);
    assert db.issued[|old(db.issued)|..] == [SelectByTenant(t)];
    OneAdmitted(cfg, SelectByTenant(t));
    return Ok(Response(200, Views(items))), items;
  }

  /**
   * `create_item`: the body must fit the schema, then the tenant must be admitted, then the
   * service's name rules apply; only then is one row inserted, and the answer is 201 with its
   * `to_dict`. Every refusal leaves the table as it was.
   */
  method CreateItem(cfg: Settings, t: string, body: Option<CreateBody>, db: Table, created: DateTime, updated: DateTime)
    returns (r: Result<Response<ItemView>, AppError>)
    requires db.Valid()
    modifies db
    ensures db.Valid()
    ensures ParseCreateRequest(body).Err? ==> r == Err(ParseCreateRequest(body).error) && unchanged(db)
    ensures ParseCreateRequest(body).Ok? && ValidateTenant(cfg, t).Err? ==>
              r == Err(ValidateTenant(cfg, t).error) && unchanged(db)
    ensures ParseCreateRequest(body).Ok? && ValidateTenant(cfg, t).Ok? ==>
              var request := ParseCreateRequest(body).value;
              && (CheckName(request.name).Err? ==> r == Err(ValueError(EmptyNameMessage)) && unchanged(db))
              && (CheckName(request.name).Ok? ==>
                    Inserted(t, request, old(db.rows), old(db.nextId), old(db.issued), db.rows, db.nextId, db.issued, created, updated, r))
    ensures OnlyAdmitted(cfg, db.issued[|old(db.issued)|..])
  {
    NoneSent(cfg);
    var parsed := ParseCreateRequest(body);
    if parsed.Err? {
      assert db.issued[|old(db.issued)|..] == [];
      return Err(parsed.error);
    }
    var admitted := ValidateTenant(cfg, t);
    if admitted.Err? {
      assert db.issued[|old(db.issued)|..] == [];
      return Err(admitted.error);
    }
    LongNameRuleUnreachable(body);
    r := CreateForTenant(t, parsed.value, db, created, updated);
    OneAdmitted(cfg, InsertRow(t));
    assert db.issued[|old(db.issued)|..] == [] || db.issued[|old(db.issued)|..] == [InsertRow(t)];
  }

  /**
   * What a create that passed the name rules did: one statement, an insert for the tenant;
   * values the columns store give a new row with the next id, answered with 201; otherwise
   * the driver's or the database's error comes back and the table stays.
   */
  ghost predicate Inserted(t: string, request: ItemCreateRequest, rows0: seq<Item>, nextId0: int,
                           issued0: seq<Statement>, rows1: seq<Item>, nextId1: int, issued1: seq<Statement>,
                           created: DateTime, updated: DateTime, r: Result<Response<ItemView>, AppError>)
  {
    var stored := StoreValues(t, request.name, request.description);
    && issued1 == issued0 + [InsertRow(t)]
    && (stored.Ok? ==>
          var row := Item(nextId0, stored.value.0, stored.value.1, request.description, Some(created), Some(updated));
          && r == Ok(Response(201, ToDict(row)))
          && rows1 == rows0 + [row]
          && nextId1 == nextId0 + 1)
    && (stored.Err? ==> r == Err(stored.error) && rows1 == rows0 && nextId1 == nextId0)
  }

  /** The part of `create_item` after the tenant check: the service call and `to_dict`. */
  method CreateForTenant(t: string, request: ItemCreateRequest, db: Table, created: DateTime, updated: DateTime)
    returns (r: Result<Response<ItemView>, AppError>)
    requires db.Valid()
    modifies db
    ensures db.Valid()
    ensures CheckName(request.name).Err? ==> r == Err(CheckName(request.name).error) && unchanged(db)
    ensures CheckName(request.name).Ok? ==>
              Inserted(t, request, old(db.rows), old(db.nextId), old(db.issued), db.rows, db.nextId, db.issued, created, updated, r)
  {
    var service := new ItemsService(db);
    var inserted := service.CreateItem(t, request.name, request.description, created, updated);
    if inserted.Err? {
      return Err(inserted.error);
    }
    return Ok(Response(201, ToDict(inserted.value)));
  }

  /**
   * `get_item`: the tenant's row with that id, shaped by `to_dict`; a missing row, or one
   * that belongs to another tenant, is not-found.
   */
  method GetItem(cfg: Settings, t: string, id: int, db: Table) returns (r: Result<Response<ItemView>, AppError>)
    modifies db`issued
    ensures ValidateTenant(cfg, t).Err? ==> r == Err(ValidateTenant(cfg, t).error) && db.issued == old(db.issued)
    ensures ValidateTenant(cfg, t).Ok? ==>
              && db.issued == old(db.issued) + [SelectById(t, id)]
              && (Lookup(db.rows, t, id).Some? ==> r == Ok(Response(200, ToDict(Lookup(db.rows, t, id).value))))
              && (Lookup(db.rows, t, id).None? ==> r.Err? && r.error.ItemNotFound?)
    ensures r.Ok? ==> r.value.content.tenantId == t && r.value.content.id == id
    ensures OnlyAdmitted(cfg, db.issued[|old(db.issued)|..])
  {
    var admitted := ValidateTenant(cfg, t);
    if admitted.Err? {
      assert db.issued[|old(db.issued)|..] == [];
      NoneSent(cfg);
      return Err(admitted.error);
    }
    var service := new ItemsService(db);
    var found := service.GetItemById(t, id);
    assert db.issued[|old(db.issued)|..] == [SelectById(t, id)];
    OneAdmitted(cfg, SelectById(t, id));
    if found.Err? {
      return Err(found.error);
    }
    return Ok(Response(200, ToDict(found.value)));
  }
}
