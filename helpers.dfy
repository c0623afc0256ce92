/**
 * Small helpers of backend/server.py: `serialize_doc`, the `list_orders` query builder, the
 * `update_item` field filter and the `get_orders_by_hour` buckets.
 */
module Helpers {
  import opened Wrappers
  import Lookup
  import opened Models
  import Text

  // ==================== serialize_doc ====================

  /** A document read from the database: field name to value. */
  type Doc = map<string, Value>

  /** One top-level value after `serialize_doc`: datetimes become their ISO text. */
  function Serialized(v: Value, iso: int -> string): Value
  {
    if v.Time? then Str(iso(v.t)) else v
  }

  /** What `serialize_doc` leaves: no `_id`, and every other field with its datetime converted. */
  ghost predicate IsSerializedOf(r: Doc, doc: Doc, iso: int -> string)
  {
    && r.Keys == doc.Keys - {"_id"}
    && forall k :: k in r ==> r[k] == Serialized(doc[k], iso)
  }

  /**
   * `serialize_doc`: `None` stays `None`; otherwise `_id` is dropped and each datetime field,
   * visited one key at a time, is replaced by its ISO text.
   */
  method SerializeDoc(doc: Option<Doc>, iso: int -> string) returns (r: Option<Doc>)
    ensures r.None? <==> doc.None?
    ensures r.Some? ==> IsSerializedOf(r.value, doc.value, iso)
    ensures r.Some? ==> forall k :: k in r.value ==> !r.value[k].Time?
  {
    if doc.None? {
      return None;
    }
    var d := doc.value - {"_id"};
    var pending := d.Keys;
    while pending != {}
      invariant pending <= d.Keys
      invariant d.Keys == doc.value.Keys - {"_id"}
      invariant forall k :: k in d && k in pending ==> d[k] == doc.value[k]
      invariant forall k :: k in d && k !in pending ==> d[k] == Serialized(doc.value[k], iso)
      decreases |pending|
    {
      var key :| key in pending;
      if d[key].Time? {
        d := d[key := Str(iso(d[key].t))];
      }
      pending := pending - {key};
    }
    return Some(d);
  }

  /** Serializing a serialized document changes nothing. */
  lemma SerializedIdempotent(r: Doc, doc: Doc, r2: Doc, iso: int -> string)
    requires IsSerializedOf(r, doc, iso) && IsSerializedOf(r2, r, iso)
    ensures r2 == r
  {
    assert r2.Keys == r.Keys;
    forall k | k in r ensures r2[k] == r[k] {
      assert !r[k].Time?;
    }
  }

  // ==================== list_orders QUERY ====================

  /** The condition a query key holds: an equality, or a `$gte`/`$lte` range on `created_at`. */
  datatype Cond = Equals(value: string) | Range(gte: Option<string>, lte: Option<string>)

  /** The MongoDB filter document `list_orders` builds. */
  type Query = map<string, Cond>

  /** Python truthiness of an optional query string. */
  predicate Given(s: Option<string>)
  {
    s.Some? && s.value != ""
  }

  /** The query dict, filled in the order of the source: status, type, category, then the date range. */
  method BuildOrdersQuery(status: Option<OrderStatus>, orderType: Option<OrderType>, category: Option<OrderCategory>,
                          dateFrom: Option<string>, dateTo: Option<string>) returns (q: Query)
    ensures q.Keys <= {"status", "order_type", "category", "created_at"}
    ensures ("status" in q <==> status.Some?) && (status.Some? ==> q["status"] == Equals(StatusWire(status.value)))
    ensures ("order_type" in q <==> orderType.Some?) &&
            (orderType.Some? ==> q["order_type"] == Equals(OrderTypeWire(orderType.value)))
    ensures ("category" in q <==> category.Some?) &&
            (category.Some? ==> q["category"] == Equals(CategoryWire(category.value)))
    ensures ("created_at" in q <==> Given(dateFrom) || Given(dateTo))
    ensures "created_at" in q ==>
              q["created_at"] == Range(if Given(dateFrom) then dateFrom else None, if Given(dateTo) then dateTo else None)
  {
    q := map[];
    if status.Some? {
      q := q["status" := Equals(StatusWire(status.value))];
    }
    if orderType.Some? {
      q := q["order_type" := Equals(OrderTypeWire(orderType.value))];
    }
    if category.Some? {
      q := q["category" := Equals(CategoryWire(category.value))];
    }
    if Given(dateFrom) {
      q := q["created_at" := Range(dateFrom, None)];
    }
    if Given(dateTo) {
      if "created_at" in q {
        q := q["created_at" := q["created_at"].(lte := dateTo)];
      } else {
        q := q["created_at" := Range(None, dateTo)];
      }
    }
  }

  /** Binary order of strings, as the database compares stored ISO timestamps. */
  predicate LexLe(a: string, b: string)
    decreases |a|
  {
    |a| == 0 || (|b| > 0 && (a[0] < b[0] || (a[0] == b[0] && LexLe(a[1..], b[1..]))))
  }

  /** Whether a stored order satisfies one query key; an unknown key names a missing field. */
  predicate FieldMatches(o: Order, key: string, c: Cond, iso: int -> string)
  {
    match c
    case Equals(v) =>
      (key == "status" && StatusWire(o.status) == v) ||
      (key == "order_type" && o.orderType == Some(v)) ||
      (key == "category" && o.category == Some(v))
    case Range(gte, lte) =>
      key == "created_at" &&
      (gte.Some? ==> LexLe(gte.value, iso(o.createdAt))) && (lte.Some? ==> LexLe(iso(o.createdAt), lte.value))
  }

  /** A filter document matches when every one of its keys does. */
  predicate Matches(o: Order, q: Query, iso: int -> string)
  {
    forall k :: k in q ==> FieldMatches(o, k, q[k], iso)
  }

  /** The orders the endpoint's filters select, stated directly on the arguments. */
  predicate Selected(o: Order, status: Option<OrderStatus>, orderType: Option<OrderType>, category: Option<OrderCategory>,
                     dateFrom: Option<string>, dateTo: Option<string>, iso: int -> string)
  {
    && (status.Some? ==> o.status == status.value)
    && (orderType.Some? ==> o.orderType == Some(OrderTypeWire(orderType.value)))
    && (category.Some? ==> o.category == Some(CategoryWire(category.value)))
    && (Given(dateFrom) ==> LexLe(dateFrom.value, iso(o.createdAt)))
    && (Given(dateTo) ==> LexLe(iso(o.createdAt), dateTo.value))
  }

  /** The query built from the filters matches exactly the orders the filters select. */
  lemma QuerySelectsFiltered(q: Query, o: Order, status: Option<OrderStatus>, orderType: Option<OrderType>,
                             category: Option<OrderCategory>, dateFrom: Option<string>, dateTo: Option<string>,
                             iso: int -> string)
    requires q.Keys <= {"status", "order_type", "category", "created_at"}
    requires ("status" in q <==> status.Some?) && (status.Some? ==> q["status"] == Equals(StatusWire(status.value)))
    requires ("order_type" in q <==> orderType.Some?) &&
             (orderType.Some? ==> q["order_type"] == Equals(OrderTypeWire(orderType.value)))
    requires ("category" in q <==> category.Some?) &&
             (category.Some? ==> q["category"] == Equals(CategoryWire(category.value)))
    requires ("created_at" in q <==> Given(dateFrom) || Given(dateTo))
    requires "created_at" in q ==>
               q["created_at"] == Range(if Given(dateFrom) then dateFrom else None, if Given(dateTo) then dateTo else None)
    ensures Matches(o, q, iso) <==> Selected(o, status, orderType, category, dateFrom, dateTo, iso)
  {
    if status.Some? {
      StatusWireRoundTrip(o.status);
      StatusWireRoundTrip(status.value);
      assert FieldMatches(o, "status", q["status"], iso) <==> o.status == status.value;
    }
    if Matches(o, q, iso) {
      if Given(dateFrom) || Given(dateTo) {
        assert FieldMatches(o, "created_at", q["created_at"], iso);
      }
      if orderType.Some? {
        assert FieldMatches(o, "order_type", q["order_type"], iso);
      }
      if category.Some? {
        assert FieldMatches(o, "category", q["category"], iso);
      }
    }
  }

  // ==================== update_item FILTER ====================

  /** `{k: v for k, v in updates.model_dump().items() if v is not None}` */
  function DropNulls(fields: Doc): (r: Doc)
    ensures r.Keys == set k | k in fields && fields[k] != Null
    ensures forall k :: k in r ==> r[k] == fields[k]
  {
    map k | k in fields && fields[k] != Null :: fields[k]
  }

  /** A stored catalog item. */
  datatype ItemDoc = ItemDoc(id: string, fields: Doc)

  /** The outcome of `update_item`. */
  datatype UpdateResult = UpdateRefused(status: int, detail: string) | ItemUpdated(message: string)

  /** The index of the first stored item with that id. */
  function FindItem(items: seq<ItemDoc>, id: string): (r: Option<nat>)
    ensures r.Some? ==> r.value < |items| && items[r.value].id == id
    ensures r.Some? ==> forall j :: 0 <= j < r.value ==> items[j].id != id
    ensures r.None? ==> forall j :: 0 <= j < |items| ==> items[j].id != id
  {
    Lookup.FirstIndex(items, ItemId, id)
  }

  /** The key a lookup on the collection compares. */
  function ItemId(x: ItemDoc): string
  {
    x.id
  }

  /** The filtered update is empty exactly when every submitted field is null. */
  lemma DropNullsEmpty(fields: Doc)
    ensures DropNulls(fields) == map[] <==> forall k :: k in fields ==> fields[k] == Null
  {
    if DropNulls(fields) == map[] {
      forall k | k in fields ensures fields[k] == Null {
        assert k !in DropNulls(fields);
      }
    }
  }

  /**
   * `update_item`: the non-null fields plus `updated_at` are `$set` on the first item with the
   * id; an empty filtered update is a 400 that touches nothing, and no such item is a 404.
   */
  function UpdateItem(items: seq<ItemDoc>, itemId: string, updates: Doc, now: int, iso: int -> string)
    : (r: (UpdateResult, seq<ItemDoc>))
    ensures DropNulls(updates) == map[] ==> r == (UpdateRefused(400, "Nenhum campo para atualizar"), items)
    ensures DropNulls(updates) != map[] && FindItem(items, itemId).None? ==>
              r == (UpdateRefused(404, "Item não encontrado"), items)
    ensures DropNulls(updates) != map[] && FindItem(items, itemId).Some? ==>
              var i := FindItem(items, itemId).value;
              && r.0 == ItemUpdated("Item atualizado")
              && r.1 == items[i := ItemDoc(itemId, items[i].fields + DropNulls(updates)["updated_at" := Str(iso(now))])]
  {
    var changes := DropNulls(updates);
    if changes == map[] then (UpdateRefused(400, "Nenhum campo para atualizar"), items)
    else
      match FindItem(items, itemId)
      case None => (UpdateRefused(404, "Item não encontrado"), items)
      case Some(i) =>
        (ItemUpdated("Item atualizado"), items[i := items[i].(fields := items[i].fields + changes["updated_at" := Str(iso(now))])])
  }

  /** An update stores every non-null submitted field, stamps `updated_at`, and keeps the item's other fields. */
  lemma UpdateStoresFields(items: seq<ItemDoc>, itemId: string, updates: Doc, now: int, iso: int -> string)
    requires UpdateItem(items, itemId, updates, now, iso).0.ItemUpdated?
    ensures FindItem(items, itemId).Some?
    ensures var i := FindItem(items, itemId).value;
            var f := UpdateItem(items, itemId, updates, now, iso).1[i].fields;
            && f["updated_at"] == Str(iso(now))
            && (forall k :: k in updates && updates[k] != Null && k != "updated_at" ==> f[k] == updates[k])
            && (forall k :: k in items[i].fields && (k !in updates || updates[k] == Null) && k != "updated_at" ==>
                  f[k] == items[i].fields[k])
  {
  }

  /** `available=False` is a value, not a missing field: it is stored. */
  lemma FalseIsNotDropped(items: seq<ItemDoc>, itemId: string, now: int, iso: int -> string)
    requires FindItem(items, itemId).Some?
    ensures var r := UpdateItem(items, itemId, map["available" := Bool(false)], now, iso);
            r.0 == ItemUpdated("Item atualizado") &&
            r.1[FindItem(items, itemId).value].fields["available"] == Bool(false)
  {
    assert map["available" := Bool(false)]["available"] != Null;
  }

  // ==================== get_orders_by_hour ====================

  type Hour = h: int | 0 <= h < 24

  /** `str(h).zfill(2)` */
  function HourKey(h: Hour): (k: string)
    ensures |k| == 2
    ensures k == [Text.DigitChar(h / 10), Text.DigitChar(h % 10)]
  {
    Text.TwoDigitKey(h);
    Text.ZFill(Text.DecimalString(h), 2)
  }

  /** How many of the orders' creation hours are `h`; `None` is a `created_at` that does not parse. */
  function Count(hours: seq<Option<Hour>>, h: Hour): nat
    decreases |hours|
  {
    if |hours| == 0 then 0
    else Count(hours[..|hours| - 1], h) + (if hours[|hours| - 1] == Some(h) then 1 else 0)
  }

  /** The 24 zero buckets, `"00"` to `"23"`. */
  function EmptyBuckets(): (m: map<string, nat>)
    ensures forall h: Hour :: HourKey(h) in m && m[HourKey(h)] == 0
    ensures forall k :: k in m ==> exists h: Hour :: k == HourKey(h)
  {
    map h: Hour | 0 <= h < 24 :: HourKey(h) := 0
  }

  /**
   * The `count` of each bucket of `get_orders_by_hour`: one increment per order whose
   * `created_at` parses, in the bucket of its hour; an order that fails to parse is skipped.
   */
  method OrdersByHour(hours: seq<Option<Hour>>) returns (counts: map<string, nat>)
    ensures forall h: Hour :: HourKey(h) in counts && counts[HourKey(h)] == Count(hours, h)
    ensures forall k :: k in counts ==> exists h: Hour :: k == HourKey(h)
  {
    counts := EmptyBuckets();
    ghost var keys := counts.Keys;
    var i := 0;
    while i < |hours|
      invariant 0 <= i <= |hours|
      invariant forall h: Hour :: HourKey(h) in counts && counts[HourKey(h)] == Count(hours[..i], h)
      invariant forall k :: k in counts ==> k in keys
    {
      ghost var before := counts;
      if hours[i].Some? {
        counts := Increment(counts, hours[i].value);
      }
      CountedOneMore(hours, i, before, counts);
      i := i + 1;
    }
    assert hours[..i] == hours;
  }

  /** Buckets that count `hours[..i]`, advanced by the order at `i`, count `hours[..i + 1]`. */
  lemma CountedOneMore(hours: seq<Option<Hour>>, i: nat, before: map<string, nat>, after: map<string, nat>)
    requires i < |hours|
    requires forall g: Hour :: HourKey(g) in before && before[HourKey(g)] == Count(hours[..i], g)
    requires forall g: Hour :: HourKey(g) in after && after[HourKey(g)] == before[HourKey(g)] + (if hours[i] == Some(g) then 1 else 0)
    ensures forall g: Hour :: HourKey(g) in after && after[HourKey(g)] == Count(hours[..i + 1], g)
  {
    assert hours[..i + 1][..i] == hours[..i];
  }

  /** `hours[hour]["count"] += 1`: the bucket of `h` goes up by one and no other bucket moves. */
  function Increment(counts: map<string, nat>, h: Hour): (r: map<string, nat>)
    requires forall g: Hour :: HourKey(g) in counts
    ensures forall g: Hour :: HourKey(g) in r && r[HourKey(g)] == counts[HourKey(g)] + (if g == h then 1 else 0)
    ensures forall k :: k in r ==> k in counts
  {
    var key := HourKey(h);
    assert forall g: Hour :: g != h ==> HourKey(g) != key by {
      forall g: Hour | g != h ensures HourKey(g) != key {
        Text.TwoDigitKeyInjective(g, h);
      }
    }
    counts[key := counts[key] + 1]
  }

  /** The number of orders in the first `n` buckets. */
  function BucketTotal(hours: seq<Option<Hour>>, n: nat): nat
    requires n <= 24
  {
    if n == 0 then 0 else BucketTotal(hours, n - 1) + Count(hours, n - 1)
  }

  /** The number of orders whose `created_at` parses. */
  function Parsed(hours: seq<Option<Hour>>): nat
    decreases |hours|
  {
    if |hours| == 0 then 0 else Parsed(hours[..|hours| - 1]) + (if hours[|hours| - 1].Some? then 1 else 0)
  }

  /** Every parsed order is counted in exactly one bucket: the 24 counts add up to the parsed orders. */
  lemma {:induction false} BucketsCountParsed(hours: seq<Option<Hour>>)
    ensures BucketTotal(hours, 24) == Parsed(hours)
    decreases |hours|
  {
    if |hours| > 0 {
      var init, last := hours[..|hours| - 1], hours[|hours| - 1];
      assert init + [last] == hours;
      BucketsCountParsed(init);
      BucketTotalStep(init, last, 24);
      assert Parsed(hours) == Parsed(init) + (if last.Some? then 1 else 0);
    } else {
      NoOrdersEmptyBuckets(hours, 24);
    }
  }

  /** Without orders every bucket is empty. */
  lemma {:induction false} NoOrdersEmptyBuckets(hours: seq<Option<Hour>>, n: nat)
    requires |hours| == 0 && n <= 24
    ensures BucketTotal(hours, n) == 0
  {
    if n > 0 {
      NoOrdersEmptyBuckets(hours, n - 1);
    }
  }

  /** Adding one order adds one to the total of the buckets up to its hour or leaves it as is. */
  lemma {:induction false} BucketTotalStep(init: seq<Option<Hour>>, last: Option<Hour>, n: nat)
    requires n <= 24
    ensures BucketTotal(init + [last], n) == BucketTotal(init, n) + (if last.Some? && last.value < n then 1 else 0)
  {
    var hours := init + [last];
    assert hours[..|hours| - 1] == init;
    if n > 0 {
      BucketTotalStep(init, last, n - 1);
    }
  }
}
