/**
 * The notifications repository (`push_notifications.js`, in `lambda/` and `opt/`): the
 * codec between a notification record and a DynamoDB item, `save` with its defaults,
 * `get`, the newest-first query by owner, the unread counter and `remove`.
 */
module Notifications {
  import opened Wrappers
  import opened Json
  import opened Dynamo

  /** The reading status (`Status`). */
  datatype Status = Unread | Read {
    function Text(): string {
      if Unread? then "new" else "read"
    }
  }

  /** The delivery status (`SystemStatus`). */
  datatype SystemStatus = Pending | Failed | Delivered {
    function Text(): string {
      match this
      case Pending => "new"
      case Failed => "error"
      case Delivered => "delivered"
    }
  }

  function ParseStatus(s: string): Option<Status> {
    if s == "new" then Some(Unread) else if s == "read" then Some(Read) else None
  }

  function ParseSystemStatus(s: string): Option<SystemStatus> {
    if s == "new" then Some(Pending)
    else if s == "error" then Some(Failed)
    else if s == "delivered" then Some(Delivered)
    else None
  }

  lemma StatusTexts(s: string)
    ensures ParseStatus(s).Some? <==> s in ["new", "read"]
    ensures forall st: Status :: ParseStatus(st.Text()) == Some(st)
  {
  }

  lemma SystemStatusTexts(s: string)
    ensures ParseSystemStatus(s).Some? <==> s in ["new", "error", "delivered"]
    ensures forall st: SystemStatus :: ParseSystemStatus(st.Text()) == Some(st)
  {
  }

  /**
   * A notification record. `owner` is `debtorNumber` in `lambda/` and `userId` in `opt/`;
   * `createdAt` is the creation time in seconds.
   */
  datatype Notification = Notification(
    id: Option<string>,
    createdAt: Option<int>,
    owner: Option<string>,
    status: Option<string>,
    systemStatus: Option<string>,
    details: Option<string>,
    payload: Option<Json>,
    texts: Option<Json>,
    notificationType: Option<string>)

  /** Adds `name: {S: JSON.stringify(v)}` when `v` is truthy. */
  function PutDoc(item: Item, name: string, v: Option<Json>): Item {
    if Present(v) then item[name := Doc(v.value)] else item
  }

  lemma PutDocOther(item: Item, name: string, v: Option<Json>, k: string)
    requires k != name
    ensures (k in PutDoc(item, name, v) <==> k in item) && (k in item ==> PutDoc(item, name, v)[k] == item[k])
  {
  }

  /** `JSON.parse(item[name].S)` when the attribute is there; anything but JSON text throws. */
  function DocAttr(item: Item, name: string): Result<Option<Json>, string> {
    if name !in item then Ok(None)
    else if item[name].Doc? then Ok(Some(item[name].doc))
    else Err("JSON.parse: " + name + " is not JSON text")
  }

  /** `objectToItem`: every truthy field under its attribute name. */
  function Encode(layer: Layer, n: Notification): Item {
    var i0 := PutS(map[], "id", n.id);
    var i1 := PutN(i0, "createdAt", n.createdAt);
    var i2 := PutS(i1, layer.OwnerAttr(), n.owner);
    var i3 := PutS(i2, "status", n.status);
    var i4 := PutS(i3, "systemStatus", n.systemStatus);
    var i5 := PutS(i4, "details", n.details);
    var i6 := PutDoc(i5, "notificationPayload", n.payload);
    var i7 := PutDoc(i6, "texts", n.texts);
    PutS(i7, "type", n.notificationType)
  }

  /** `itemToObject`: every attribute that is there, parsing the two JSON documents. */
  function Decode(layer: Layer, item: Item): Result<Notification, string> {
    var payload := DocAttr(item, "notificationPayload");
    var texts := DocAttr(item, "texts");
    if payload.Err? then Err(payload.error)
    else if texts.Err? then Err(texts.error)
    else Ok(Notification(
      SAttr(item, "id"), NAttr(item, "createdAt"), SAttr(item, layer.OwnerAttr()),
      SAttr(item, "status"), SAttr(item, "systemStatus"), SAttr(item, "details"),
      payload.value, texts.value, SAttr(item, "type")))
  }

  /** What survives a store round trip: falsy fields are dropped. */
  function Normalize(n: Notification): Notification {
    Notification(KeepFilled(n.id), n.createdAt, KeepFilled(n.owner), KeepFilled(n.status),
      KeepFilled(n.systemStatus), KeepFilled(n.details), KeepPresent(n.payload),
      KeepPresent(n.texts), KeepFilled(n.notificationType))
  }

  /** The attributes after `createdAt` leave `id` and `createdAt` as the first two steps wrote them. */
  lemma LaterStepsKeep(layer: Layer, n: Notification, k: string)
    requires k == "id" || k == "createdAt"
    ensures var i1 := PutN(PutS(map[], "id", n.id), "createdAt", n.createdAt);
      && (k in Encode(layer, n) <==> k in i1)
      && (k in i1 ==> Encode(layer, n)[k] == i1[k])
  {
    var i0 := PutS(map[], "id", n.id);
    var i1 := PutN(i0, "createdAt", n.createdAt);
    var i2 := PutS(i1, layer.OwnerAttr(), n.owner);
    var i3 := PutS(i2, "status", n.status);
    var i4 := PutS(i3, "systemStatus", n.systemStatus);
    var i5 := PutS(i4, "details", n.details);
    var i6 := PutDoc(i5, "notificationPayload", n.payload);
    var i7 := PutDoc(i6, "texts", n.texts);
    assert layer.OwnerAttr() != k;
    PutSOther(i1, layer.OwnerAttr(), n.owner, k);
    PutSOther(i2, "status", n.status, k);
    PutSOther(i3, "systemStatus", n.systemStatus, k);
    PutSOther(i4, "details", n.details, k);
    PutDocOther(i5, "notificationPayload", n.payload, k);
    PutDocOther(i6, "texts", n.texts, k);
    PutSOther(i7, "type", n.notificationType, k);
  }

  lemma EncodedId(layer: Layer, n: Notification)
    ensures SAttr(Encode(layer, n), "id") == KeepFilled(n.id)
  {
    LaterStepsKeep(layer, n, "id");
    PutNOther(PutS(map[], "id", n.id), "createdAt", n.createdAt, "id");
  }

  lemma EncodedCreatedAt(layer: Layer, n: Notification)
    ensures NAttr(Encode(layer, n), "createdAt") == n.createdAt
  {
    LaterStepsKeep(layer, n, "createdAt");
  }

  lemma EncodedOwner(layer: Layer, n: Notification)
    ensures SAttr(Encode(layer, n), layer.OwnerAttr()) == KeepFilled(n.owner)
  {
    var o := layer.OwnerAttr();
    assert o != "id" && o != "createdAt" && o != "status" && o != "systemStatus" && o != "details";
    assert o != "notificationPayload" && o != "texts" && o != "type";
  }

  lemma EncodedStatus(layer: Layer, n: Notification)
    ensures SAttr(Encode(layer, n), "status") == KeepFilled(n.status)
  {
  }

  lemma EncodedSystemStatus(layer: Layer, n: Notification)
    ensures SAttr(Encode(layer, n), "systemStatus") == KeepFilled(n.systemStatus)
  {
  }

  lemma EncodedDetails(layer: Layer, n: Notification)
    ensures SAttr(Encode(layer, n), "details") == KeepFilled(n.details)
  {
  }

  lemma EncodedPayload(layer: Layer, n: Notification)
    ensures DocAttr(Encode(layer, n), "notificationPayload") == Ok(KeepPresent(n.payload))
  {
  }

  lemma EncodedTexts(layer: Layer, n: Notification)
    ensures DocAttr(Encode(layer, n), "texts") == Ok(KeepPresent(n.texts))
  {
  }

  lemma EncodedType(layer: Layer, n: Notification)
    ensures SAttr(Encode(layer, n), "type") == KeepFilled(n.notificationType)
  {
  }

  /** Decoding an encoded record gives the record back, less its falsy fields. */
  lemma RoundTrip(layer: Layer, n: Notification)
    ensures Decode(layer, Encode(layer, n)) == Ok(Normalize(n))
  {
    EncodedId(layer, n);
    EncodedCreatedAt(layer, n);
    EncodedOwner(layer, n);
    EncodedStatus(layer, n);
    EncodedSystemStatus(layer, n);
    EncodedDetails(layer, n);
    EncodedPayload(layer, n);
    EncodedTexts(layer, n);
    EncodedType(layer, n);
  }

  /** The owner is stored under `debtorNumber` by the `lambda/` copy and never under `userId`. */
  lemma LambdaOwnerAttribute(n: Notification)
    ensures "debtorNumber" in Encode(Lambda, n) <==> Filled(n.owner)
    ensures "userId" !in Encode(Lambda, n)
  {
  }

  /** The owner is stored under `userId` by the `opt/` copy and never under `debtorNumber`. */
  lemma OptOwnerAttribute(n: Notification)
    ensures "userId" in Encode(Opt, n) <==> Filled(n.owner)
    ensures "debtorNumber" !in Encode(Opt, n)
  {
  }

  /**
   * `save`'s defaults: a fresh id, the current time, status `new` and system status
   * `new`, each only where the record has no truthy value of its own.
   */
  function WithDefaults(n: Notification, freshId: string, now: int): (r: Notification)
    requires freshId != ""
    ensures Filled(r.id) && r.createdAt.Some? && Filled(r.status) && Filled(r.systemStatus)
    ensures Filled(n.id) ==> r.id == n.id
    ensures n.createdAt.Some? ==> r.createdAt == n.createdAt
    ensures Filled(n.status) ==> r.status == n.status
    ensures Filled(n.systemStatus) ==> r.systemStatus == n.systemStatus
    ensures r.owner == n.owner && r.details == n.details && r.payload == n.payload
    ensures r.texts == n.texts && r.notificationType == n.notificationType
  {
    n.(id := if Filled(n.id) then n.id else Some(freshId),
       createdAt := if n.createdAt.Some? then n.createdAt else Some(now),
       status := if Filled(n.status) then n.status else Some(Status.Unread.Text()),
       systemStatus := if Filled(n.systemStatus) then n.systemStatus else Some(SystemStatus.Pending.Text()))
  }

  /** Saving a saved record again adds no default. */
  lemma DefaultsIdempotent(n: Notification, id1: string, now1: int, id2: string, now2: int)
    requires id1 != "" && id2 != ""
    ensures WithDefaults(WithDefaults(n, id1, now1), id2, now2) == WithDefaults(n, id1, now1)
  {
  }

  lemma EncodeKey(layer: Layer, n: Notification)
    requires Filled(n.id)
    ensures "id" in Encode(layer, n) && Encode(layer, n)["id"] == S(n.id.value)
  {
    LaterStepsKeep(layer, n, "id");
    PutNOther(PutS(map[], "id", n.id), "createdAt", n.createdAt, "id");
  }

  /** `save`: fills the defaults, writes the record under its id and returns it. */
  method Save(t: Table, layer: Layer, data: Notification, freshId: string, now: int) returns (saved: Notification)
    requires t.Valid() && t.keyAttr == "id" && freshId != ""
    modifies t
    ensures t.Valid()
    ensures saved == WithDefaults(data, freshId, now)
    ensures t.Snap() == AfterPut(old(t.Snap()), saved.id.value, Encode(layer, saved))
  {
    saved := WithDefaults(data, freshId, now);
    EncodeKey(layer, saved);
    t.Put(Encode(layer, saved));
  }

  /** `get`: the decoded record stored under `id`, or none. */
  function Get(s: Snapshot, layer: Layer, id: string): (r: Result<Option<Notification>, string>)
    ensures id !in s.rows ==> r == Ok(None)
    ensures id in s.rows ==> match Decode(layer, s.rows[id])
                             case Ok(n) => r == Ok(Some(n))
                             case Err(e) => r == Err(e)
  {
    if id !in s.rows then Ok(None)
    else match Decode(layer, s.rows[id])
      case Ok(n) => Ok(Some(n))
      case Err(e) => Err(e)
  }

  /** The half-open creation-time window `[minCreatedAt, maxCreatedAt)` of the query. */
  predicate InWindow(c: int, minCreatedAt: Option<int>, maxCreatedAt: Option<int>) {
    (minCreatedAt.None? || minCreatedAt.value <= c) && (maxCreatedAt.None? || c < maxCreatedAt.value)
  }

  /** An item on the owner/createdAt index in the window. */
  predicate InQuery(layer: Layer, owner: string, minCreatedAt: Option<int>, maxCreatedAt: Option<int>, it: Item) {
    SAttr(it, layer.OwnerAttr()) == Some(owner)
    && NAttr(it, "createdAt").Some?
    && InWindow(NAttr(it, "createdAt").value, minCreatedAt, maxCreatedAt)
  }

  function CreatedOf(it: Item): int {
    NAttr(it, "createdAt").GetOr(0)
  }

  predicate NewestFirst(s: seq<Item>) {
    forall i, j :: 0 <= i < j < |s| ==> CreatedOf(s[i]) >= CreatedOf(s[j])
  }

  /** Places `x` before the first element that is older than it. */
  function InsertByAge(x: Item, s: seq<Item>): (r: seq<Item>)
    ensures multiset(r) == multiset(s) + multiset{x}
  {
    if s == [] || CreatedOf(x) >= CreatedOf(s[0]) then [x] + s
    else
      assert s == [s[0]] + s[1..];
      [s[0]] + InsertByAge(x, s[1..])
  }

  lemma {:induction false} InsertByAgeSorted(x: Item, s: seq<Item>)
    requires NewestFirst(s)
    ensures NewestFirst(InsertByAge(x, s))
  {
    if s != [] && CreatedOf(x) < CreatedOf(s[0]) {
      InsertByAgeSorted(x, s[1..]);
      var r := InsertByAge(x, s[1..]);
      assert forall k :: 0 <= k < |r| ==> CreatedOf(r[k]) <= CreatedOf(s[0]) by {
        forall k | 0 <= k < |r| ensures CreatedOf(r[k]) <= CreatedOf(s[0]) {
          assert r[k] in multiset(s[1..]) + multiset{x};
          if r[k] in multiset(s[1..]) {
            var m :| 0 <= m < |s[1..]| && s[1..][m] == r[k];
            assert s[m + 1] == r[k];
          }
        }
      }
    }
  }

  /** The order in which a descending (`ScanIndexForward: false`) query returns items. */
  function SortNewestFirst(s: seq<Item>): (r: seq<Item>)
    ensures multiset(r) == multiset(s)
  {
    if s == [] then []
    else
      assert s == [s[0]] + s[1..];
      InsertByAge(s[0], SortNewestFirst(s[1..]))
  }

  lemma {:induction false} SortNewestFirstSorted(s: seq<Item>)
    ensures NewestFirst(SortNewestFirst(s))
  {
    if s != [] {
      SortNewestFirstSorted(s[1..]);
      InsertByAgeSorted(s[0], SortNewestFirst(s[1..]));
    }
  }

  /** The matching items of the table, newest first. */
  function QueryOrder(s: Snapshot, layer: Layer, owner: string, minCreatedAt: Option<int>, maxCreatedAt: Option<int>): seq<Item> {
    SortNewestFirst(Select(s.rows, s.order, it => InQuery(layer, owner, minCreatedAt, maxCreatedAt, it)))
  }

  /** `if (!limit) limit = 100`. */
  function EffectiveLimit(limit: nat): (l: nat)
    ensures l > 0
    ensures limit > 0 ==> l == limit
  {
    if limit == 0 then 100 else limit
  }

  /** The key attributes DynamoDB reports as `LastEvaluatedKey` for an item of the index. */
  function IndexKey(layer: Layer, it: Item): Item {
    map a | a in it && a in {"id", layer.OwnerAttr(), "createdAt"} :: it[a]
  }

  datatype QueryPage = QueryPage(items: seq<Notification>, lastKey: Option<Item>)

  /** Decodes every item, failing on the first item that does not decode. */
  function DecodeAll(layer: Layer, items: seq<Item>): Result<seq<Notification>, string> {
    if items == [] then Ok([])
    else match DecodeAll(layer, items[..|items| - 1])
      case Err(e) => Err(e)
      case Ok(ns) =>
        match Decode(layer, items[|items| - 1])
        case Err(e) => Err(e)
        case Ok(n) => Ok(ns + [n])
  }

  function PageOf(s: Snapshot, layer: Layer, owner: string, limit: nat, minCreatedAt: Option<int>, maxCreatedAt: Option<int>): seq<Item> {
    Page(QueryOrder(s, layer, owner, minCreatedAt, maxCreatedAt), EffectiveLimit(limit))
  }

  /** The loop of `findByDebtorNumber` that decodes the items of the page one by one. */
  method DecodeItems(layer: Layer, page: seq<Item>) returns (r: Result<seq<Notification>, string>)
    ensures r == DecodeAll(layer, page)
  {
    var items: seq<Notification> := [];
    var index := 0;
    while index < |page|
      invariant 0 <= index <= |page|
      invariant DecodeAll(layer, page[..index]) == Ok(items)
    {
      assert page[..index + 1][..index] == page[..index];
      var d := Decode(layer, page[index]);
      if d.Err? {
        FirstFailure(layer, page, index + 1, d.error);
        return Err(d.error);
      }
      items := items + [d.value];
      index := index + 1;
    }
    assert page[..index] == page;
    r := Ok(items);
  }

  /**
   * `findByDebtorNumber` / `findByUserId`: one page of the owner's records in the window,
   * newest first, with the key of the last one when the page is full.
   */
  method FindByOwner(t: Table, layer: Layer, owner: string, limit: nat, minCreatedAt: Option<int>, maxCreatedAt: Option<int>)
    returns (r: Result<QueryPage, string>)
    ensures var page := PageOf(t.Snap(), layer, owner, limit, minCreatedAt, maxCreatedAt);
      match DecodeAll(layer, page)
      case Err(e) => r == Err(e)
      case Ok(ns) =>
        && r.Ok? && r.value.items == ns
        && (r.value.lastKey.Some? <==> |page| == EffectiveLimit(limit))
        && (r.value.lastKey.Some? ==> r.value.lastKey.value == IndexKey(layer, page[|page| - 1]))
  {
    var page := PageOf(t.Snap(), layer, owner, limit, minCreatedAt, maxCreatedAt);
    var items := DecodeItems(layer, page);
    if items.Err? {
      return Err(items.error);
    }
    var lastKey := if |page| == EffectiveLimit(limit) then Some(IndexKey(layer, page[|page| - 1])) else None;
    r := Ok(QueryPage(items.value, lastKey));
  }

  lemma {:induction false} FirstFailure(layer: Layer, items: seq<Item>, k: nat, e: string)
    requires 0 < k <= |items|
    requires DecodeAll(layer, items[..k]) == Err(e)
    ensures DecodeAll(layer, items) == Err(e)
    decreases |items| - k
  {
    if k < |items| {
      assert items[..k + 1][..k] == items[..k];
      FirstFailure(layer, items, k + 1, e);
    } else {
      assert items[..k] == items;
    }
  }

  lemma {:induction false} DecodeAllFields(layer: Layer, items: seq<Item>, ns: seq<Notification>)
    requires DecodeAll(layer, items) == Ok(ns)
    ensures |ns| == |items|
    ensures forall i :: 0 <= i < |ns| ==> Decode(layer, items[i]) == Ok(ns[i])
  {
    if items != [] {
      var front := items[..|items| - 1];
      DecodeAllFields(layer, front, DecodeAll(layer, front).value);
    }
  }

  lemma PageItems(s: Snapshot, layer: Layer, owner: string, limit: nat, minCreatedAt: Option<int>, maxCreatedAt: Option<int>)
    ensures var page := PageOf(s, layer, owner, limit, minCreatedAt, maxCreatedAt);
      && |page| <= EffectiveLimit(limit)
      && NewestFirst(page)
      && forall i :: 0 <= i < |page| ==> InQuery(layer, owner, minCreatedAt, maxCreatedAt, page[i])
  {
    var p := it => InQuery(layer, owner, minCreatedAt, maxCreatedAt, it);
    var selected := Select(s.rows, s.order, p);
    var all := SortNewestFirst(selected);
    var page := Page(all, EffectiveLimit(limit));
    SortNewestFirstSorted(selected);
    forall i | 0 <= i < |page| ensures InQuery(layer, owner, minCreatedAt, maxCreatedAt, page[i]) {
      assert page[i] == all[i];
      assert all[i] in multiset(selected);
      var m :| 0 <= m < |selected| && selected[m] == all[i];
      assert p(selected[m]);
    }
  }

  /** Everything a page returns belongs to the owner, lies in the window, and comes newest first. */
  lemma QueryResults(s: Snapshot, layer: Layer, owner: string, limit: nat, minCreatedAt: Option<int>, maxCreatedAt: Option<int>, ns: seq<Notification>)
    requires DecodeAll(layer, PageOf(s, layer, owner, limit, minCreatedAt, maxCreatedAt)) == Ok(ns)
    ensures |ns| <= EffectiveLimit(limit)
    ensures forall i :: 0 <= i < |ns| ==>
      ns[i].owner == Some(owner) && ns[i].createdAt.Some? && InWindow(ns[i].createdAt.value, minCreatedAt, maxCreatedAt)
    ensures forall i, j :: 0 <= i < j < |ns| ==> ns[i].createdAt.value >= ns[j].createdAt.value
  {
    var page := PageOf(s, layer, owner, limit, minCreatedAt, maxCreatedAt);
    PageItems(s, layer, owner, limit, minCreatedAt, maxCreatedAt);
    DecodeAllFields(layer, page, ns);
    forall i | 0 <= i < |ns|
      ensures ns[i].owner == SAttr(page[i], layer.OwnerAttr()) && ns[i].createdAt == NAttr(page[i], "createdAt")
    {
      DecodedKeys(layer, page[i], ns[i]);
    }
  }

  lemma DecodedKeys(layer: Layer, item: Item, n: Notification)
    requires Decode(layer, item) == Ok(n)
    ensures n.id == SAttr(item, "id")
    ensures n.owner == SAttr(item, layer.OwnerAttr()) && n.createdAt == NAttr(item, "createdAt")
  {
  }

  /** Items counted by `findUnreadMessageCounter`: the owner's items with status `new`. */
  predicate IsUnread(layer: Layer, owner: string, it: Item) {
    SAttr(it, layer.OwnerAttr()) == Some(owner) && SAttr(it, "status") == Some(Status.Unread.Text())
  }

  /** `findUnreadMessageCounter`: the owner's unread records, counted up to the query limit of 100. */
  function CountUnread(s: Snapshot, layer: Layer, owner: string): (c: nat)
    ensures c <= 100
    ensures var all := |Select(s.rows, s.order, it => IsUnread(layer, owner, it))|;
      c == if all <= 100 then all else 100
  {
    |Page(Select(s.rows, s.order, it => IsUnread(layer, owner, it)), 100)|
  }

  /**
   * The count is the number of the owner's stored records with status `new`, capped at the
   * query limit of 100.
   */
  lemma UnreadCount(s: Snapshot, layer: Layer, owner: string)
    requires Keyed(s, "id")
    ensures var unread := set k | k in s.rows && IsUnread(layer, owner, s.rows[k]);
      CountUnread(s, layer, owner) == if |unread| <= 100 then |unread| else 100
  {
    var p := it => IsUnread(layer, owner, it);
    SelectCount(s.rows, s.order, p);
    MatchingKeysIff(s.rows, s.order, p);
    assert MatchingKeys(s.rows, s.order, p) == set k | k in s.rows && IsUnread(layer, owner, s.rows[k]);
  }

  /** The badge is zero exactly when the owner has no unread record. */
  lemma NoBadgeIff(s: Snapshot, layer: Layer, owner: string)
    requires Keyed(s, "id")
    ensures CountUnread(s, layer, owner) == 0 <==> forall k :: k in s.rows ==> !IsUnread(layer, owner, s.rows[k])
  {
    UnreadCount(s, layer, owner);
    var unread := set k | k in s.rows && IsUnread(layer, owner, s.rows[k]);
    if exists k :: k in s.rows && IsUnread(layer, owner, s.rows[k]) {
      var k :| k in s.rows && IsUnread(layer, owner, s.rows[k]);
      assert k in unread;
    } else {
      assert unread == {};
    }
  }

  /** `remove`. */
  method Remove(t: Table, id: string)
    requires t.Valid()
    modifies t
    ensures t.Valid()
    ensures t.Snap() == AfterDelete(old(t.Snap()), id)
  {
    t.Delete(id);
  }
}
