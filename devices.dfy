/**
 * The devices repository (`push_devices.js`, in `lambda/` and `opt/`): one item per
 * device token, with the owner and the platform, queried by owner.
 */
module Devices {
  import opened Wrappers
  import opened Dynamo
  import opened Json

  /** A registered device; `owner` is `debtorNumber` in `lambda/` and `userId` in `opt/`. */
  datatype Device = Device(
    createdAt: Option<int>,
    deviceToken: Option<string>,
    owner: Option<string>,
    platform: Option<string>)

  /** The most devices one owner query returns (`Limit: 100`). */
  const QueryLimit: nat := 100

  /** `objectToItem`. */
  function Encode(layer: Layer, d: Device): Item {
    var i0 := PutN(map[], "createdAt", d.createdAt);
    var i1 := PutS(i0, "deviceToken", d.deviceToken);
    var i2 := PutS(i1, layer.OwnerAttr(), d.owner);
    PutS(i2, "platform", d.platform)
  }

  /** `itemToObject`. */
  function Decode(layer: Layer, item: Item): Device {
    Device(NAttr(item, "createdAt"), SAttr(item, "deviceToken"), SAttr(item, layer.OwnerAttr()), SAttr(item, "platform"))
  }

  function Normalize(d: Device): Device {
    Device(d.createdAt, KeepFilled(d.deviceToken), KeepFilled(d.owner), KeepFilled(d.platform))
  }

  /** Decoding an encoded device gives it back, less its falsy fields. */
  lemma RoundTrip(layer: Layer, d: Device)
    ensures Decode(layer, Encode(layer, d)) == Normalize(d)
  {
    var o := layer.OwnerAttr();
    assert o != "createdAt" && o != "deviceToken" && o != "platform";
  }

  /** The owner is stored under `debtorNumber` by `lambda/` and under `userId` by `opt/`. */
  lemma OwnerAttribute(d: Device)
    ensures "debtorNumber" in Encode(Lambda, d) <==> Filled(d.owner)
    ensures "userId" in Encode(Opt, d) <==> Filled(d.owner)
    ensures "userId" !in Encode(Lambda, d) && "debtorNumber" !in Encode(Opt, d)
  {
  }

  /** `save`'s one default: the creation time. */
  function WithCreatedAt(d: Device, now: int): (r: Device)
    ensures r.createdAt.Some?
    ensures d.createdAt.Some? ==> r.createdAt == d.createdAt
    ensures r.deviceToken == d.deviceToken && r.owner == d.owner && r.platform == d.platform
  {
    if d.createdAt.Some? then d else d.(createdAt := Some(now))
  }

  /**
   * `save`: stamps the creation time and writes the device under its token, replacing a
   * device with the same token. A record without a token is rejected by the store.
   */
  method Save(t: Table, layer: Layer, data: Device, now: int) returns (r: Result<Device, string>)
    requires t.Valid() && t.keyAttr == "deviceToken"
    modifies t
    ensures t.Valid()
    ensures Filled(data.deviceToken) ==>
      && r == Ok(WithCreatedAt(data, now))
      && t.Snap() == AfterPut(old(t.Snap()), data.deviceToken.value, Encode(layer, r.value))
    ensures !Filled(data.deviceToken) ==> r.Err? && t.Snap() == old(t.Snap())
  {
    var saved := WithCreatedAt(data, now);
    if !Filled(saved.deviceToken) {
      return Err("One or more parameter values were invalid: missing the key deviceToken");
    }
    t.Put(Encode(layer, saved));
    r := Ok(saved);
  }

  /** `get`: the device registered under `token`, or none. */
  function Get(s: Snapshot, layer: Layer, token: string): (r: Option<Device>)
    ensures r.Some? <==> token in s.rows
    ensures r.Some? ==> r.value == Decode(layer, s.rows[token])
  {
    if token in s.rows then Some(Decode(layer, s.rows[token])) else None
  }

  /** A stored device comes back from `get` with its own token. */
  lemma GetCarriesToken(s: Snapshot, layer: Layer, token: string)
    requires Keyed(s, "deviceToken") && token in s.rows
    ensures Get(s, layer, token).Some? && Get(s, layer, token).value.deviceToken == Some(token)
  {
  }

  /** `remove`. */
  method Remove(t: Table, token: string)
    requires t.Valid()
    modifies t
    ensures t.Valid()
    ensures t.Snap() == AfterDelete(old(t.Snap()), token)
  {
    t.Delete(token);
  }

  predicate OwnedBy(layer: Layer, owner: string, it: Item) {
    SAttr(it, layer.OwnerAttr()) == Some(owner)
  }

  /** The items of one owner query page, in index order. */
  function OwnedPage(s: Snapshot, layer: Layer, owner: string): seq<Item> {
    Page(Select(s.rows, s.order, it => OwnedBy(layer, owner, it)), QueryLimit)
  }

  /** The owner's devices on the first page, decoded. */
  function Owned(s: Snapshot, layer: Layer, owner: string): (r: seq<Device>)
    ensures |r| <= QueryLimit
  {
    var page := OwnedPage(s, layer, owner);
    seq(|page|, i requires 0 <= i < |page| => Decode(layer, page[i]))
  }

  /** The key attributes of `LastEvaluatedKey` for an item of the owner index. */
  function IndexKey(layer: Layer, it: Item): Item {
    map a | a in it && a in {"deviceToken", layer.OwnerAttr()} :: it[a]
  }

  /**
   * `findByDebtorNumber` / `findByUserId`: the owner's devices, at most 100 of them, with
   * the key of the last one when the page is full.
   */
  method FindByOwner(t: Table, layer: Layer, owner: string) returns (items: seq<Device>, lastKey: Option<Item>)
    ensures items == Owned(t.Snap(), layer, owner)
    ensures var page := OwnedPage(t.Snap(), layer, owner);
      && (lastKey.Some? <==> |page| == QueryLimit)
      && (lastKey.Some? ==> lastKey.value == IndexKey(layer, page[|page| - 1]))
  {
    var page := OwnedPage(t.Snap(), layer, owner);
    items := [];
    var index := 0;
    while index < |page|
      invariant 0 <= index <= |page| && |items| == index
      invariant forall j :: 0 <= j < index ==> items[j] == Decode(layer, page[j])
    {
      items := items + [Decode(layer, page[index])];
      index := index + 1;
    }
    lastKey := if |page| == QueryLimit then Some(IndexKey(layer, page[|page| - 1])) else None;
  }

  /** Every device a query finds belongs to the owner and is stored under its own token. */
  lemma OwnedDevices(s: Snapshot, layer: Layer, owner: string)
    requires Keyed(s, "deviceToken")
    ensures forall d :: d in Owned(s, layer, owner) ==>
      d.owner == Some(owner) && d.deviceToken.Some? && d.deviceToken.value in s.rows
      && Decode(layer, s.rows[d.deviceToken.value]) == d
  {
    var page := OwnedPage(s, layer, owner);
    var p := it => OwnedBy(layer, owner, it);
    SelectedKeys(s, "deviceToken", p, QueryLimit);
    forall i | 0 <= i < |page| ensures OwnedBy(layer, owner, page[i]) {
      assert page[i] == Select(s.rows, s.order, p)[i];
    }
  }

  /** The tokens of the devices found, in order. */
  function Tokens(ds: seq<Device>): seq<string> {
    seq(|ds|, i requires 0 <= i < |ds| => ds[i].deviceToken.GetOr(""))
  }

  /** The batch of delete requests: one per device found, keyed by its token, in order. */
  method DeleteRequests(items: seq<Device>) returns (requests: seq<string>)
    requires forall d :: d in items ==> d.deviceToken.Some?
    ensures requests == Tokens(items)
  {
    requests := [];
    var index := 0;
    while index < |items|
      invariant 0 <= index <= |items| && |requests| == index
      invariant forall j :: 0 <= j < index ==> requests[j] == Tokens(items)[j]
    {
      assert items[index] in items;
      requests := requests + [items[index].deviceToken.value];
      index := index + 1;
    }
  }

  /**
   * `removeDebtor` / `removeByUserId`: looks the owner's devices up and deletes them in one
   * batch; nothing is written when there are none.
   */
  method RemoveByOwner(t: Table, layer: Layer, owner: string) returns (wrote: bool)
    requires t.Valid() && t.keyAttr == "deviceToken"
    modifies t
    ensures t.Valid()
    ensures var tokens := Tokens(Owned(old(t.Snap()), layer, owner));
      && (wrote <==> |tokens| > 0)
      && t.Snap() == AfterDeleteAll(old(t.Snap()), tokens)
  {
    var items, _ := FindByOwner(t, layer, owner);
    if |items| == 0 {
      assert Tokens(items) == [];
      return false;
    }
    OwnedDevices(t.Snap(), layer, owner);
    var requests := DeleteRequests(items);
    t.DeleteAll(requests);
    wrote := true;
  }

  /** Every token a query returns is stored, with a device of the owner. */
  lemma FoundAreOwned(s: Snapshot, layer: Layer, owner: string)
    requires Keyed(s, "deviceToken")
    ensures forall k :: k in Tokens(Owned(s, layer, owner)) ==> k in s.rows && OwnedBy(layer, owner, s.rows[k])
  {
    var ds := Owned(s, layer, owner);
    var tokens := Tokens(ds);
    OwnedDevices(s, layer, owner);
    forall k | k in tokens ensures k in s.rows && OwnedBy(layer, owner, s.rows[k]) {
      var i :| 0 <= i < |tokens| && tokens[i] == k;
      assert ds[i] in ds;
      assert Decode(layer, s.rows[k]) == ds[i];
    }
  }

  /** When the owner has at most 100 devices, a query returns all their tokens. */
  lemma FoundAll(s: Snapshot, layer: Layer, owner: string)
    requires Keyed(s, "deviceToken")
    requires |Select(s.rows, s.order, it => OwnedBy(layer, owner, it))| <= QueryLimit
    ensures forall k :: k in s.rows && OwnedBy(layer, owner, s.rows[k]) ==> k in Tokens(Owned(s, layer, owner))
  {
    var ds := Owned(s, layer, owner);
    var tokens := Tokens(ds);
    var p := it => OwnedBy(layer, owner, it);
    var all := Select(s.rows, s.order, p);
    OwnedDevices(s, layer, owner);
    forall k | k in s.rows && OwnedBy(layer, owner, s.rows[k]) ensures k in tokens {
      SelectComplete(s.rows, s.order, p, k);
      var i :| 0 <= i < |all| && all[i] == s.rows[k];
      SelectedKeys(s, "deviceToken", p, QueryLimit);
      assert OwnedPage(s, layer, owner) == all;
      assert tokens[i] == ds[i].deviceToken.value;
    }
  }

  /**
   * Removing an owner's devices deletes exactly the devices found, leaves every other
   * device as it was, and, when the owner has at most 100 devices, leaves none of theirs.
   */
  lemma RemoveByOwnerEffect(s: Snapshot, layer: Layer, owner: string)
    requires Keyed(s, "deviceToken")
    ensures var after := AfterDeleteAll(s, Tokens(Owned(s, layer, owner))).rows;
      && (forall k :: k in after ==> k in s.rows && after[k] == s.rows[k])
      && (forall k :: k in s.rows && !OwnedBy(layer, owner, s.rows[k]) ==> k in after)
      && (|Select(s.rows, s.order, it => OwnedBy(layer, owner, it))| <= QueryLimit ==>
            forall k :: k in after ==> !OwnedBy(layer, owner, after[k]))
  {
    var tokens := Tokens(Owned(s, layer, owner));
    AfterDeleteAllRows(s, tokens);
    FoundAreOwned(s, layer, owner);
    if |Select(s.rows, s.order, it => OwnedBy(layer, owner, it))| <= QueryLimit {
      FoundAll(s, layer, owner);
    }
  }
}
