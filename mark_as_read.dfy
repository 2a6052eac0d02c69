/**
 * The mark-as-read endpoint (`handlers/mark_as_read/index.js`): looks a notification up
 * by id, sets its reading status to `read` and saves it back.
 */
module MarkAsRead {
  import opened Wrappers
  import opened Json
  import opened Dynamo
  import opened ResponseWrapper
  import Notes = Notifications

  const MissingParameters := "Missing parameters"
  const MissingItem := "Missing item"

  /** A field of the object `itemToObject` builds, when the record has it. */
  function TextField(name: string, v: Option<string>): seq<(string, Json)> {
    if v.Some? then [(name, JStr(v.value))] else []
  }

  /**
   * The JavaScript object a record travels as: its fields in the order `itemToObject`
   * sets them, the creation time as the text DynamoDB returns for a number.
   */
  function ObjectOf(layer: Layer, n: Notes.Notification): (j: Json)
    ensures j.JObj?
    ensures n.id.Some? ==> Prop(j, "id") == Some(JStr(n.id.value))
    ensures n.id.None? ==> Prop(j, "id").None?
  {
    JObj(TextField("id", n.id)
      + (if n.createdAt.Some? then [("createdAt", JStr(IntToText(n.createdAt.value)))] else [])
      + TextField(layer.OwnerAttr(), n.owner) + TextField("status", n.status)
      + TextField("systemStatus", n.systemStatus) + TextField("details", n.details)
      + (if n.payload.Some? then [("notificationPayload", n.payload.value)] else [])
      + (if n.texts.Some? then [("texts", n.texts.value)] else [])
      + TextField("type", n.notificationType))
  }

  /** The record as `save` writes it after the handler sets its status to `read`. */
  function Marked(n: Notes.Notification, freshId: string, now: int): (r: Notes.Notification)
    requires freshId != ""
    ensures r.status == Some(Notes.Status.Read.Text())
    ensures Filled(n.id) ==> r.id == n.id
    ensures r.owner == n.owner && r.details == n.details && r.payload == n.payload
    ensures r.texts == n.texts && r.notificationType == n.notificationType
    ensures n.createdAt.Some? ==> r.createdAt == n.createdAt
    ensures Filled(n.systemStatus) ==> r.systemStatus == n.systemStatus
  {
    Notes.WithDefaults(n.(status := Some(Notes.Status.Read.Text())), freshId, now)
  }

  /**
   * `handler`: 400 without a body or an id, 404 for an unknown id, otherwise the record
   * with status `read`, saved and returned with 200. An id that is not text, or a stored
   * document that does not parse, makes the store call throw (`Err`).
   */
  method Handle(notes: Table, body: Json, freshId: string, now: int) returns (r: Result<HttpResponse, string>)
    requires notes.Valid() && notes.keyAttr == "id" && freshId != ""
    modifies notes
    ensures notes.Valid()
    ensures var id := Prop(body, "id");
      (!Truthy(body) || !Present(id)) ==>
        r == Ok(CreateResponse(Some(JStr(MissingParameters)), 400)) && notes.Snap() == old(notes.Snap())
    ensures var id := Prop(body, "id");
      (Present(id) && !id.value.JStr?) ==> r.Err? && notes.Snap() == old(notes.Snap())
    ensures var id := Prop(body, "id");
      (Present(id) && id.value.JStr? && id.value.s !in old(notes.Snap()).rows) ==>
        r == Ok(CreateResponse(Some(JStr(MissingItem)), 404)) && notes.Snap() == old(notes.Snap())
    ensures var id := Prop(body, "id");
      (Present(id) && id.value.JStr? && id.value.s in old(notes.Snap()).rows) ==>
        match Notes.Decode(Lambda, old(notes.Snap()).rows[id.value.s])
        case Err(e) => r == Err(e) && notes.Snap() == old(notes.Snap())
        case Ok(n) =>
          var read := Marked(n, freshId, now);
          && read.id == Some(id.value.s)
          && r == Ok(CreateResponse(Some(ObjectOf(Lambda, read)), 200))
          && notes.Snap() == AfterPut(old(notes.Snap()), id.value.s, Notes.Encode(Lambda, read))
  {
    if !Truthy(body) {
      return Ok(CreateResponse(Some(JStr(MissingParameters)), 400));
    }
    var id := Prop(body, "id");
    if !Present(id) {
      return Ok(CreateResponse(Some(JStr(MissingParameters)), 400));
    }
    if !id.value.JStr? {
      return Err("ValidationException: id is not a string");
    }
    var existing := Notes.Get(notes.Snap(), Lambda, id.value.s);
    if existing.Err? {
      return Err(existing.error);
    }
    if existing.value.None? {
      return Ok(CreateResponse(Some(JStr(MissingItem)), 404));
    }
    var item := existing.value.value;
    item := item.(status := Some(Notes.Status.Read.Text()));
    var saved := Notes.Save(notes, Lambda, item, freshId, now);
    r := Ok(CreateResponse(Some(ObjectOf(Lambda, saved)), 200));
  }

  /** Writing a record's encoding under its key leaves a table that already holds it unchanged. */
  lemma PutAgain(s: Snapshot, key: string, it: Item)
    requires key in s.rows && s.rows[key] == it
    ensures AfterPut(s, key, it) == s
  {
    assert s.rows[key := it] == s.rows;
  }

  /** Only a record's truthy fields reach the store. */
  lemma EncodeNormalized(layer: Layer, n: Notes.Notification)
    ensures Notes.Encode(layer, Notes.Normalize(n)) == Notes.Encode(layer, n)
  {
  }

  /**
   * Marking read is idempotent: after one successful call, a second call with the same
   * body finds the record it wrote and writes it back unchanged.
   */
  lemma MarkTwice(s: Snapshot, id: string, n: Notes.Notification, freshId: string, now: int)
    requires freshId != ""
    requires id in s.rows && Notes.Decode(Lambda, s.rows[id]) == Ok(n) && n.id == Some(id) && id != ""
    ensures var first := Marked(n, freshId, now);
      var s1 := AfterPut(s, id, Notes.Encode(Lambda, first));
      && Notes.Decode(Lambda, s1.rows[id]) == Ok(Notes.Normalize(first))
      && var second := Marked(Notes.Normalize(first), freshId, now);
         second == Notes.Normalize(first)
         && AfterPut(s1, id, Notes.Encode(Lambda, second)) == s1
  {
    var first := Marked(n, freshId, now);
    var s1 := AfterPut(s, id, Notes.Encode(Lambda, first));
    Notes.RoundTrip(Lambda, first);
    EncodeNormalized(Lambda, first);
    PutAgain(s1, id, Notes.Encode(Lambda, first));
  }

  /** A successful call leaves the record read and every other stored record as it was. */
  lemma MarkedOnlyTheRecord(s: Snapshot, id: string, n: Notes.Notification, freshId: string, now: int)
    requires freshId != ""
    ensures var s1 := AfterPut(s, id, Notes.Encode(Lambda, Marked(n, freshId, now)));
      && id in s1.rows
      && Notes.Decode(Lambda, s1.rows[id]).Ok?
      && Notes.Decode(Lambda, s1.rows[id]).value.status == Some(Notes.Status.Read.Text())
      && (forall k :: k != id ==> (k in s1.rows <==> k in s.rows) && (k in s.rows ==> s1.rows[k] == s.rows[k]))
  {
    Notes.RoundTrip(Lambda, Marked(n, freshId, now));
  }
}
