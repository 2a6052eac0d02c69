/**
 * The key-value store under the repositories: DynamoDB items as attribute maps, a table
 * as a mutable map from partition-key value to item, and the index queries the
 * repositories issue. A table also keeps the order in which it enumerates its items, so
 * that a query has one definite answer.
 */
module Dynamo {
  import opened Wrappers
  import opened Json

  /**
   * An attribute value: `{S: text}`, `{N: number}`, or `{S: JSON.stringify(doc)}`, where
   * the serialised text is represented by the document it encodes.
   */
  datatype AttrValue = S(s: string) | N(n: int) | Doc(doc: Json)

  type Item = map<string, AttrValue>

  /**
   * The two copies of the repository layer: `lambda/` names the owner attribute
   * `debtorNumber`, `opt/` names it `userId`.
   */
  datatype Layer = Lambda | Opt {
    function OwnerAttr(): string {
      if Lambda? then "debtorNumber" else "userId"
    }
  }

  /** `item[name].S`: undefined when the attribute is absent or not a string. */
  function SAttr(item: Item, name: string): Option<string> {
    if name in item && item[name].S? then Some(item[name].s) else None
  }

  /** `item[name].N`: undefined when the attribute is absent or not a number. */
  function NAttr(item: Item, name: string): Option<int> {
    if name in item && item[name].N? then Some(item[name].n) else None
  }

  /** Adds `name: S(v)` when `v` is truthy, as `if (object.f) item.f = {S: object.f}` does. */
  function PutS(item: Item, name: string, v: Option<string>): Item {
    if v.Some? && v.value != "" then item[name := S(v.value)] else item
  }

  /** Adds `name: N(v)` when `v` is present. */
  function PutN(item: Item, name: string, v: Option<int>): Item {
    if v.Some? then item[name := N(v.value)] else item
  }

  /** Adding one attribute leaves every other attribute as it was. */
  lemma PutSOther(item: Item, name: string, v: Option<string>, k: string)
    requires k != name
    ensures (k in PutS(item, name, v) <==> k in item) && (k in item ==> PutS(item, name, v)[k] == item[k])
  {
  }

  lemma PutNOther(item: Item, name: string, v: Option<int>, k: string)
    requires k != name
    ensures (k in PutN(item, name, v) <==> k in item) && (k in item ==> PutN(item, name, v)[k] == item[k])
  {
  }

  /** The items of `rows`, in the enumeration order `order`, that satisfy `p`. */
  function Select(rows: map<string, Item>, order: seq<string>, p: Item -> bool): (r: seq<Item>)
    ensures |r| <= |order|
    ensures forall i :: 0 <= i < |r| ==> p(r[i]) && r[i] in rows.Values
  {
    if order == [] then []
    else
      var rest := Select(rows, order[1..], p);
      if order[0] in rows && p(rows[order[0]]) then [rows[order[0]]] + rest else rest
  }

  /** The first `limit` elements of `s`: one page of a query with `Limit: limit`. */
  function Page<T>(s: seq<T>, limit: nat): (r: seq<T>)
    ensures |r| == if |s| <= limit then |s| else limit
    ensures r == s[..|r|]
  {
    if |s| <= limit then s else s[..limit]
  }

  /** `order` without `key`. */
  function Without(order: seq<string>, key: string): (r: seq<string>)
    ensures |r| <= |order|
  {
    if order == [] then []
    else if order[0] == key then Without(order[1..], key)
    else [order[0]] + Without(order[1..], key)
  }

  ghost predicate Distinct(order: seq<string>) {
    forall i, j :: 0 <= i < j < |order| ==> order[i] != order[j]
  }

  /** `Without` keeps every other key and drops `key`. */
  lemma {:induction false} WithoutMembers(order: seq<string>, key: string)
    ensures forall k :: k in Without(order, key) <==> k in order && k != key
  {
    if order != [] {
      WithoutMembers(order[1..], key);
    }
  }

  lemma {:induction false} WithoutDistinct(order: seq<string>, key: string)
    requires Distinct(order)
    ensures Distinct(Without(order, key))
    ensures forall k :: k in Without(order, key) <==> k in order && k != key
  {
    WithoutMembers(order, key);
    if order != [] {
      WithoutDistinct(order[1..], key);
      if order[0] != key {
        assert order[0] !in Without(order[1..], key);
      }
    }
  }

  /** The contents of a table: its items by key, and the order in which it enumerates them. */
  datatype Snapshot = Snapshot(rows: map<string, Item>, order: seq<string>)

  /** The table after `putItem` of `item` under `key`: a new key is enumerated last. */
  function AfterPut(s: Snapshot, key: string, item: Item): Snapshot {
    Snapshot(s.rows[key := item], if key in s.rows then s.order else s.order + [key])
  }

  /** The table after `deleteItem` of `key`. */
  function AfterDelete(s: Snapshot, key: string): Snapshot {
    Snapshot(s.rows - {key}, Without(s.order, key))
  }

  /** The table after a `batchWriteItem` of delete requests for `keys`, applied in order. */
  function AfterDeleteAll(s: Snapshot, keys: seq<string>): Snapshot
    decreases |keys|
  {
    if keys == [] then s else AfterDeleteAll(AfterDelete(s, keys[0]), keys[1..])
  }

  lemma {:induction false} AfterDeleteAllRows(s: Snapshot, keys: seq<string>)
    ensures AfterDeleteAll(s, keys).rows == s.rows - set k | k in keys
    decreases |keys|
  {
    if keys != [] {
      AfterDeleteAllRows(AfterDelete(s, keys[0]), keys[1..]);
      assert (s.rows - {keys[0]}) - (set k | k in keys[1..]) == s.rows - set k | k in keys;
    }
  }

  /**
   * A consistent snapshot of a table keyed by `keyAttr`: it enumerates each key once, and
   * each item carries its own non-empty key.
   */
  ghost predicate Keyed(s: Snapshot, keyAttr: string) {
    && Distinct(s.order)
    && (forall k :: k in s.rows <==> k in s.order)
    && (forall k :: k in s.rows ==> k != "" && keyAttr in s.rows[k] && s.rows[k][keyAttr] == S(k))
  }

  /** `it` is the item stored under its own key. */
  predicate StoredUnderKey(s: Snapshot, keyAttr: string, it: Item) {
    SAttr(it, keyAttr).Some? && SAttr(it, keyAttr).value != ""
    && SAttr(it, keyAttr).value in s.rows && s.rows[SAttr(it, keyAttr).value] == it
  }

  /** Every item the query finds carries its key. */
  lemma SelectedKeys(s: Snapshot, keyAttr: string, p: Item -> bool, limit: nat)
    requires Keyed(s, keyAttr)
    ensures var r := Page(Select(s.rows, s.order, p), limit);
      forall i :: 0 <= i < |r| ==> StoredUnderKey(s, keyAttr, r[i])
  {
    var all := Select(s.rows, s.order, p);
    var r := Page(all, limit);
    forall i | 0 <= i < |r| ensures StoredUnderKey(s, keyAttr, r[i]) {
      assert r[i] == all[i];
      var k :| k in s.rows && s.rows[k] == r[i];
    }
  }

  /** A query misses no matching item of the table. */
  lemma {:induction false} SelectComplete(rows: map<string, Item>, order: seq<string>, p: Item -> bool, k: string)
    requires k in order && k in rows && p(rows[k])
    ensures rows[k] in Select(rows, order, p)
  {
    if order[0] != k {
      SelectComplete(rows, order[1..], p, k);
    }
  }

  /** The keys of `order` whose stored item satisfies `p`. */
  function MatchingKeys(rows: map<string, Item>, order: seq<string>, p: Item -> bool): set<string> {
    if order == [] then {}
    else (if order[0] in rows && p(rows[order[0]]) then {order[0]} else {}) + MatchingKeys(rows, order[1..], p)
  }

  lemma {:induction false} MatchingKeysIff(rows: map<string, Item>, order: seq<string>, p: Item -> bool)
    ensures forall k :: k in MatchingKeys(rows, order, p) <==> k in order && k in rows && p(rows[k])
  {
    if order != [] {
      MatchingKeysIff(rows, order[1..], p);
      assert order == [order[0]] + order[1..];
    }
  }

  /** Over keys without repeats, a query returns one item per matching stored key. */
  lemma {:induction false} SelectCount(rows: map<string, Item>, order: seq<string>, p: Item -> bool)
    requires Distinct(order)
    ensures |Select(rows, order, p)| == |MatchingKeys(rows, order, p)|
  {
    if order != [] {
      var tail := order[1..];
      forall i, j | 0 <= i < j < |tail| ensures tail[i] != tail[j] {
        assert tail[i] == order[i + 1] && tail[j] == order[j + 1];
      }
      SelectCount(rows, tail, p);
      MatchingKeysIff(rows, tail, p);
      forall i | 0 <= i < |tail| ensures tail[i] != order[0] {
        assert tail[i] == order[i + 1];
      }
      assert order[0] !in MatchingKeys(rows, tail, p);
    }
  }

  /** A DynamoDB table whose partition key is the string attribute `keyAttr`. */
  class Table {
    const keyAttr: string
    var rows: map<string, Item>
    var order: seq<string>

    ghost predicate Valid()
      reads this
    {
      Keyed(Snapshot(rows, order), keyAttr)
    }

    constructor (keyAttr: string)
      ensures Valid() && this.keyAttr == keyAttr && rows == map[] && order == []
    {
      this.keyAttr := keyAttr;
      rows := map[];
      order := [];
    }

    function Snap(): Snapshot
      reads this
    {
      Snapshot(rows, order)
    }

    /** The partition-key value of `item`, which DynamoDB requires to be a non-empty string. */
    function KeyOf(item: Item): Option<string> {
      if keyAttr in item && item[keyAttr].S? && item[keyAttr].s != "" then Some(item[keyAttr].s) else None
    }

    /** `putItem`: stores `item` under its key, replacing any item already there. */
    method Put(item: Item)
      requires Valid() && KeyOf(item).Some?
      modifies this
      ensures Valid()
      ensures Snap() == AfterPut(old(Snap()), KeyOf(item).value, item)
    {
      var key := KeyOf(item).value;
      if key !in rows {
        order := order + [key];
      }
      rows := rows[key := item];
    }

    /** `deleteItem`: removes the item under `key`, if there is one. */
    method Delete(key: string)
      requires Valid()
      modifies this
      ensures Valid()
      ensures Snap() == AfterDelete(old(Snap()), key)
    {
      WithoutDistinct(order, key);
      rows := rows - {key};
      order := Without(order, key);
    }

    /** `batchWriteItem` with one delete request per key. */
    method DeleteAll(keys: seq<string>)
      requires Valid()
      modifies this
      ensures Valid()
      ensures Snap() == AfterDeleteAll(old(Snap()), keys)
    {
      var i := 0;
      while i < |keys|
        invariant 0 <= i <= |keys| && Valid()
        invariant AfterDeleteAll(old(Snap()), keys) == AfterDeleteAll(Snap(), keys[i..])
      {
        assert keys[i..][1..] == keys[i + 1..];
        Delete(keys[i]);
        i := i + 1;
      }
    }
  }
}
