/**
 * The `items` table row (src/models/item.py): its columns, their widths and defaults,
 * and `to_dict`, the shape every items endpoint answers with.
 */
module Items {
  import opened Strings
  import opened Results
  import opened Clock
  import opened Errors

  /** `String(50)` and `String(100)`: the widest values the two `varchar` columns accept. */
  const TenantIdWidth := 50
  const NameWidth := 100

  /**
   * One row. `createdAt` and `updatedAt` are `None` only on an object that has not been
   * inserted yet; the columns are NOT NULL, so every stored row has both.
   */
  datatype Item = Item(id: int, tenantId: string, name: string, description: Option<string>,
                       createdAt: Option<DateTime>, updatedAt: Option<DateTime>)

  /** The values the database accepts for the two width-limited columns. */
  predicate FitsColumns(tenantId: string, name: string)
  {
    |tenantId| <= TenantIdWidth && |name| <= NameWidth
  }

  /**
   * How a `varchar(width)` column stores `s`: as it is when it fits; cut to the width when
   * everything beyond the width is spaces (U+0020); refused otherwise.
   */
  function StoreVarchar(s: string, width: nat): (r: Option<string>)
    ensures r.Some? <==> |s| <= width || forall k :: width <= k < |s| ==> s[k] == ' '
    ensures r.Some? ==> |r.value| <= width && |r.value| <= |s| && r.value == s[..|r.value|]
                        && forall k :: |r.value| <= k < |s| ==> s[k] == ' '
    ensures |s| <= width ==> r == Some(s)
  {
    if |s| <= width then Some(s)
    else if forall k :: width <= k < |s| ==> s[k] == ' ' then Some(s[..width])
    else None
  }

  /** The database driver refuses any text parameter that holds a NUL character. */
  predicate HasNul(tenantId: string, name: string, description: Option<string>)
  {
    '\0' in tenantId || '\0' in name || (description.Some? && '\0' in description.value)
  }

  const NulMessage := "A string literal cannot contain NUL (0x00) characters."
  const TooLongMessage := "value too long for type character varying"

  /**
   * What the insert does with the values it is given: a NUL anywhere raises the driver's
   * ValueError before anything is sent; otherwise each width-limited column stores its value
   * as `StoreVarchar` says, and a refused value is a database error.
   */
  function StoreValues(tenantId: string, name: string, description: Option<string>): (r: Result<(string, string), AppError>)
    ensures r.Ok? <==> && !HasNul(tenantId, name, description)
                       && StoreVarchar(tenantId, TenantIdWidth).Some?
                       && StoreVarchar(name, NameWidth).Some?
    ensures r.Ok? ==> && r.value == (StoreVarchar(tenantId, TenantIdWidth).value, StoreVarchar(name, NameWidth).value)
                      && FitsColumns(r.value.0, r.value.1)
    ensures HasNul(tenantId, name, description) ==> r == Err(ValueError(NulMessage))
    ensures !HasNul(tenantId, name, description) && r.Err? ==> r == Err(Unexpected(TooLongMessage))
  {
    if HasNul(tenantId, name, description) then Err(ValueError(NulMessage))
    else
      match (StoreVarchar(tenantId, TenantIdWidth), StoreVarchar(name, NameWidth))
      case (Some(t), Some(n)) => Ok((t, n))
      case _ => Err(Unexpected(TooLongMessage))
  }

  /** Values without NUL that fit their columns are stored exactly as given. */
  lemma FittingValuesStoredAsGiven(tenantId: string, name: string, description: Option<string>)
    requires !HasNul(tenantId, name, description) && FitsColumns(tenantId, name)
    ensures StoreValues(tenantId, name, description) == Ok((tenantId, name))
  {
  }

  /** A full-width name followed by a space is stored without the space, not refused. */
  lemma PaddedNameTruncated(tenantId: string, name: string, description: Option<string>)
    requires !HasNul(tenantId, name, description) && |tenantId| <= TenantIdWidth && |name| == NameWidth
    ensures StoreValues(tenantId, name + " ", description) == Ok((tenantId, name))
  {
    assert (name + " ")[..NameWidth] == name;
    assert !HasNul(tenantId, name + " ", description) by {
      assert forall c :: c in name + " " ==> c in name || c == ' ';
    }
  }

  /** A value longer than its column with anything but spaces beyond the width is refused. */
  lemma OverlongNameRefused(tenantId: string, name: string, description: Option<string>)
    requires !HasNul(tenantId, name, description) && |name| > NameWidth && name[NameWidth] != ' '
    ensures StoreValues(tenantId, name, description) == Err(Unexpected(TooLongMessage))
  {
  }

  /** A row as the table holds it: widths respected, both timestamps filled. */
  predicate StoredRow(x: Item)
  {
    FitsColumns(x.tenantId, x.name) && x.createdAt.Some? && x.updatedAt.Some?
  }

  /** The response dictionary; the timestamps are text. */
  datatype ItemView = ItemView(id: int, tenantId: string, name: string, description: Option<string>,
                               createdAt: Option<string>, updatedAt: Option<string>)

  /** `t.isoformat() + "Z" if t else None`. */
  function RenderStamp(t: Option<DateTime>): (s: Option<string>)
    ensures s.Some? <==> t.Some?
    ensures s.Some? ==> EndsWith(s.value, "Z") && StartsWith(s.value, IsoFormat(t.value))
  {
    match t
    case None => None
    case Some(d) =>
      assert (IsoFormat(d) + "Z")[..|IsoFormat(d)|] == IsoFormat(d);
      Some(UtcStamp(d))
  }

  /** `to_dict`: id, tenant, name and description as they are; timestamps rendered. */
  function ToDict(x: Item): (v: ItemView)
    ensures v.id == x.id && v.tenantId == x.tenantId && v.name == x.name
    ensures v.description == x.description
    ensures v.createdAt == RenderStamp(x.createdAt) && v.updatedAt == RenderStamp(x.updatedAt)
  {
    ItemView(x.id, x.tenantId, x.name, x.description, RenderStamp(x.createdAt), RenderStamp(x.updatedAt))
  }

  /**
   * Reads a rendered timestamp back: `Some(None)` for a missing one, `None` for text that
   * `RenderStamp` never writes.
   */
  function ReadStamp(s: Option<string>): Option<Option<DateTime>>
  {
    match s
    case None => Some(None)
    case Some(text) =>
      if |text| == 0 || text[|text| - 1] != 'Z' then None
      else
        match ParseIso(text[..|text| - 1])
        case None => None
        case Some(f) => if ValidFields(f) then Some(Some(f)) else None
  }

  /** Reads a response dictionary back into the row it came from. */
  function FromDict(v: ItemView): Option<Item>
  {
    match (ReadStamp(v.createdAt), ReadStamp(v.updatedAt))
    case (Some(c), Some(u)) => Some(Item(v.id, v.tenantId, v.name, v.description, c, u))
    case _ => None
  }

  lemma RenderStampRoundTrip(t: Option<DateTime>)
    ensures ReadStamp(RenderStamp(t)) == Some(t)
  {
    if t.Some? {
      var d := t.value;
      assert (IsoFormat(d) + "Z")[..|IsoFormat(d)|] == IsoFormat(d);
      IsoFormatRoundTrip(d);
    }
  }

  /** `to_dict` loses nothing: the dictionary determines the row, timestamps included. */
  lemma ToDictRoundTrip(x: Item)
    ensures FromDict(ToDict(x)) == Some(x)
  {
    RenderStampRoundTrip(x.createdAt);
    RenderStampRoundTrip(x.updatedAt);
  }

  lemma ToDictInjective(x: Item, y: Item)
    ensures ToDict(x) == ToDict(y) ==> x == y
  {
    ToDictRoundTrip(x);
    ToDictRoundTrip(y);
  }
}
