/**
 * JavaScript values as they cross the boundary of the dispatch engine: request bodies,
 * template parameters, additional payload parameters and provider errors. The functions
 * here give the few pieces of JavaScript semantics the engine relies on: truthiness,
 * property read and write, `Object.keys`, `String(v)`, `JSON.stringify` and loose
 * equality against a string.
 */
module Json {
  import opened Wrappers

  /** A JSON value. Numbers are integers; objects keep their keys in insertion order. */
  datatype Json =
    | JNull
    | JBool(b: bool)
    | JNum(n: int)
    | JStr(s: string)
    | JArr(elems: seq<Json>)
    | JObj(fields: seq<(string, Json)>)

  /** JavaScript truthiness of a value. */
  predicate Truthy(j: Json) {
    match j
    case JNull => false
    case JBool(b) => b
    case JNum(n) => n != 0
    case JStr(s) => s != ""
    case _ => true
  }

  /** Truthiness of a property that may be `undefined`. */
  predicate Present(o: Option<Json>) {
    o.Some? && Truthy(o.value)
  }

  /** `o` when it is truthy, otherwise `undefined`. */
  function KeepPresent(o: Option<Json>): Option<Json> {
    if Present(o) then o else None
  }

  /** Truthiness of a string property that may be `undefined`. */
  predicate Filled(o: Option<string>) {
    o.Some? && o.value != ""
  }

  function KeepFilled(o: Option<string>): Option<string> {
    if Filled(o) then o else None
  }

  /** Index of the first field named `key`, if any. */
  function FieldIndex(fields: seq<(string, Json)>, key: string): (r: Option<nat>)
    ensures r.Some? ==> r.value < |fields| && fields[r.value].0 == key
    ensures r.Some? ==> forall i :: 0 <= i < r.value ==> fields[i].0 != key
    ensures r.None? ==> forall i :: 0 <= i < |fields| ==> fields[i].0 != key
  {
    if fields == [] then None
    else if fields[0].0 == key then Some(0)
    else match FieldIndex(fields[1..], key)
      case None => None
      case Some(i) => Some(i + 1)
  }

  /** `j[key]` for an object; any other value has no own data properties here. */
  function Prop(j: Json, key: string): Option<Json> {
    match j
    case JObj(fields) =>
      (match FieldIndex(fields, key)
       case Some(i) => Some(fields[i].1)
       case None => None)
    case _ => None
  }

  /** `o[key]` where `o` may itself be `undefined`. */
  function PropOf(o: Option<Json>, key: string): Option<Json> {
    if o.Some? then Prop(o.value, key) else None
  }

  /**
   * `j[key] = v`: an existing field keeps its position, a new one is appended.
   * Assigning a property of a primitive has no effect; on an array it adds a
   * property that `JSON.stringify` does not show.
   */
  function SetProp(j: Json, key: string, v: Json): (r: Json)
    ensures j.JObj? ==> r.JObj?
    ensures j.JObj? ==> Prop(r, key) == Some(v)
    ensures forall k :: k != key ==> Prop(r, k) == Prop(j, k)
  {
    match j
    case JObj(fields) =>
      (match FieldIndex(fields, key)
       case Some(i) =>
         var r := JObj(fields[i := (key, v)]);
         assert FieldIndex(fields[i := (key, v)], key) == Some(i) by {
           var f' := fields[i := (key, v)];
           assert f'[i].0 == key;
           assert forall j :: 0 <= j < i ==> f'[j].0 != key;
         }
         assert forall k :: k != key ==> FieldIndex(fields[i := (key, v)], k) == FieldIndex(fields, k) by {
           forall k | k != key ensures FieldIndex(fields[i := (key, v)], k) == FieldIndex(fields, k) {
             FieldIndexUpdate(fields, i, key, v, k);
           }
         }
         r
       case None =>
         assert forall k :: FieldIndex(fields + [(key, v)], k) == (if FieldIndex(fields, k).Some? then FieldIndex(fields, k) else if k == key then Some(|fields|) else None) by {
           forall k ensures FieldIndex(fields + [(key, v)], k) == (if FieldIndex(fields, k).Some? then FieldIndex(fields, k) else if k == key then Some(|fields|) else None) {
             FieldIndexAppend(fields, key, v, k);
           }
         }
         JObj(fields + [(key, v)]))
    case _ => j
  }

  lemma {:induction false} FieldIndexUpdate(fields: seq<(string, Json)>, i: nat, key: string, v: Json, k: string)
    requires i < |fields| && fields[i].0 == key && k != key
    ensures FieldIndex(fields[i := (key, v)], k) == FieldIndex(fields, k)
  {
    if i > 0 {
      assert fields[i := (key, v)][1..] == fields[1..][i - 1 := (key, v)];
      FieldIndexUpdate(fields[1..], i - 1, key, v, k);
    } else {
      assert fields[i := (key, v)][1..] == fields[1..];
    }
  }

  lemma {:induction false} FieldIndexAppend(fields: seq<(string, Json)>, key: string, v: Json, k: string)
    ensures FieldIndex(fields + [(key, v)], k)
         == (if FieldIndex(fields, k).Some? then FieldIndex(fields, k) else if k == key then Some(|fields|) else None)
  {
    if fields != [] {
      assert (fields + [(key, v)])[1..] == fields[1..] + [(key, v)];
      FieldIndexAppend(fields[1..], key, v, k);
    }
  }

  /** The decimal digit for `d < 10`. */
  function Digit(d: nat): char
    requires d < 10
  {
    "0123456789"[d]
  }

  function NatToText(n: nat): (r: string)
    ensures |r| > 0
  {
    if n < 10 then [Digit(n)] else NatToText(n / 10) + [Digit(n % 10)]
  }

  /** `String(n)` for an integer. */
  function IntToText(n: int): (r: string)
    ensures |r| > 0
  {
    if n < 0 then "-" + NatToText(-n) else NatToText(n)
  }

  /** The keys of `Object.keys(j)` paired with their values. */
  function Entries(j: Json): seq<(string, Json)> {
    match j
    case JObj(fields) => fields
    case JArr(xs) => seq(|xs|, i requires 0 <= i < |xs| => (IntToText(i), xs[i]))
    case JStr(s) => seq(|s|, i requires 0 <= i < |s| => (IntToText(i), JStr([s[i]])))
    case _ => []
  }

  /** `String(j)`, which is what `String.prototype.replace` inserts for a non-function value. */
  function ToText(j: Json): string
    decreases j, 1
  {
    match j
    case JNull => "null"
    case JBool(b) => if b then "true" else "false"
    case JNum(n) => IntToText(n)
    case JStr(s) => s
    case JArr(xs) => JoinText(xs)
    case JObj(_) => "[object Object]"
  }

  /** `Array.prototype.join(",")`: null elements become the empty string. */
  function JoinText(xs: seq<Json>): string
    decreases xs, 0
  {
    if xs == [] then ""
    else
      var first := if xs[0].JNull? then "" else ToText(xs[0]);
      if |xs| == 1 then first else first + "," + JoinText(xs[1..])
  }

  /** One character of a JSON string literal. */
  function EscapeChar(c: char): string {
    if c == '"' then "\\\""
    else if c == '\\' then "\\\\"
    else if c == '\n' then "\\n"
    else if c == '\r' then "\\r"
    else if c == '\t' then "\\t"
    else if c == '\U{0008}' then "\\b"
    else if c == '\U{000C}' then "\\f"
    else if (c as int) < 0x20 then "\\u00" + ["0123456789abcdef"[(c as int) / 16], "0123456789abcdef"[(c as int) % 16]]
    else [c]
  }

  function Escape(s: string): string {
    if s == [] then "" else EscapeChar(s[0]) + Escape(s[1..])
  }

  function Quote(s: string): string {
    "\"" + Escape(s) + "\""
  }

  /** `JSON.stringify(j)`, without indentation. */
  function Stringify(j: Json): string
    decreases j, 1
  {
    match j
    case JNull => "null"
    case JBool(b) => if b then "true" else "false"
    case JNum(n) => IntToText(n)
    case JStr(s) => Quote(s)
    case JArr(xs) => "[" + StringifyElems(xs) + "]"
    case JObj(fields) => "{" + StringifyFields(fields) + "}"
  }

  function StringifyElems(xs: seq<Json>): string
    decreases xs, 0
  {
    if xs == [] then ""
    else if |xs| == 1 then Stringify(xs[0])
    else Stringify(xs[0]) + "," + StringifyElems(xs[1..])
  }

  function StringifyFields(fields: seq<(string, Json)>): string
    decreases fields, 0
  {
    if fields == [] then ""
    else
      var field := fields[0];
      assert field in fields && field.1 < field;
      var member := Quote(field.0) + ":" + Stringify(field.1);
      if |fields| == 1 then member else member + "," + StringifyFields(fields[1..])
  }

  /**
   * `j == s` for a string `s` that does not read as a number (every literal the engine
   * compares against is such a string). Numbers and booleans are compared through their
   * canonical text, objects and arrays through `String(j)`; `null` equals no string.
   */
  predicate LooseEqualsText(j: Json, s: string) {
    match j
    case JNull => false
    case JBool(b) => s == (if b then "1" else "0")
    case JNum(n) => s == IntToText(n)
    case JStr(t) => t == s
    case _ => ToText(j) == s
  }

  /** `o == s` where `o` may be `undefined`, which equals no string. */
  predicate LooseEqualsTextOpt(o: Option<Json>, s: string) {
    o.Some? && LooseEqualsText(o.value, s)
  }

  /** A string-typed store attribute: falsy values are omitted, other non-strings are rejected. */
  function StoreText(o: Option<Json>): Result<Option<string>, string> {
    if !Present(o) then Ok(None)
    else if o.value.JStr? then Ok(Some(o.value.s))
    else Err("Expected a string attribute value")
  }
}
