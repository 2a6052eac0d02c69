/**
 * The delivery log repository (`push_notifications_log.js`, in `lambda/` and `opt/`): one
 * entry per attempted delivery, keyed by the provider's message id. Both copies are the
 * same apart from the table name.
 */
module NotificationsLog {
  import opened Wrappers
  import opened Dynamo
  import opened Json

  /** The entry status (`Status`). */
  datatype LogStatus = New | TokenUpdate | Delivered | Error {
    function Text(): string {
      match this
      case New => "new"
      case TokenUpdate => "tokenUpdate"
      case Delivered => "delivered"
      case Error => "error"
    }
  }

  function ParseStatus(s: string): Option<LogStatus> {
    if s == "new" then Some(New)
    else if s == "tokenUpdate" then Some(TokenUpdate)
    else if s == "delivered" then Some(Delivered)
    else if s == "error" then Some(Error)
    else None
  }

  lemma StatusTexts(s: string)
    ensures ParseStatus(s).Some? <==> s in ["new", "tokenUpdate", "delivered", "error"]
    ensures forall st: LogStatus :: ParseStatus(st.Text()) == Some(st)
  {
  }

  datatype LogEntry = LogEntry(
    createdAt: Option<int>,
    firebaseId: Option<string>,
    notificationId: Option<string>,
    deviceToken: Option<string>,
    status: Option<string>,
    details: Option<string>)

  /** `objectToItem`: every truthy field under its attribute name. */
  function Encode(e: LogEntry): Item {
    var i0 := PutN(map[], "createdAt", e.createdAt);
    var i1 := PutS(i0, "firebaseId", e.firebaseId);
    var i2 := PutS(i1, "notificationID", e.notificationId);
    var i3 := PutS(i2, "deviceToken", e.deviceToken);
    var i4 := PutS(i3, "status", e.status);
    PutS(i4, "details", e.details)
  }

  /** A field is stored exactly when it is truthy. */
  lemma EncodeKeepsTruthy(e: LogEntry)
    ensures Encode(e).Keys <= {"createdAt", "firebaseId", "notificationID", "deviceToken", "status", "details"}
    ensures ("createdAt" in Encode(e) <==> e.createdAt.Some?) && ("firebaseId" in Encode(e) <==> Filled(e.firebaseId))
    ensures ("notificationID" in Encode(e) <==> Filled(e.notificationId)) && ("deviceToken" in Encode(e) <==> Filled(e.deviceToken))
    ensures ("status" in Encode(e) <==> Filled(e.status)) && ("details" in Encode(e) <==> Filled(e.details))
  {
  }

  /**
   * `itemToObject` as the source writes it: `notificationID` is never read, `deviceToken`
   * is read twice, and a stored `details` is written into `status`.
   */
  function DecodeAsWritten(item: Item): LogEntry {
    LogEntry(
      NAttr(item, "createdAt"),
      SAttr(item, "firebaseId"),
      None,
      SAttr(item, "deviceToken"),
      if "details" in item then SAttr(item, "details") else SAttr(item, "status"),
      None)
  }

  /** The decoder the codec evidently intends: every encoded attribute read back into its own field. */
  function Decode(item: Item): LogEntry {
    LogEntry(
      NAttr(item, "createdAt"), SAttr(item, "firebaseId"), SAttr(item, "notificationID"),
      SAttr(item, "deviceToken"), SAttr(item, "status"), SAttr(item, "details"))
  }

  function Normalize(e: LogEntry): LogEntry {
    LogEntry(e.createdAt, KeepFilled(e.firebaseId), KeepFilled(e.notificationId),
      KeepFilled(e.deviceToken), KeepFilled(e.status), KeepFilled(e.details))
  }

  /** The intended decoder inverts the encoder up to falsy fields. */
  lemma RoundTrip(e: LogEntry)
    ensures Decode(Encode(e)) == Normalize(e)
  {
  }

  /** What the decoder as written gives back: no notification id, no details, and details in place of status. */
  lemma AsWrittenRoundTrip(e: LogEntry)
    ensures DecodeAsWritten(Encode(e))
         == Normalize(e).(notificationId := None,
                          status := if Filled(e.details) then e.details else KeepFilled(e.status),
                          details := None)
  {
  }

  /** A delivered entry with details does not survive the decoder as written. */
  lemma AsWrittenLosesEntry()
    ensures var e := LogEntry(Some(1700000000), Some("m-1"), Some("n-1"), Some("t-1"), Some("delivered"), Some("ok"));
      && Normalize(e) == e
      && Decode(Encode(e)) == e
      && DecodeAsWritten(Encode(e)) != e
      && DecodeAsWritten(Encode(e)).status == Some("ok")
      && DecodeAsWritten(Encode(e)).notificationId.None?
  {
    var e := LogEntry(Some(1700000000), Some("m-1"), Some("n-1"), Some("t-1"), Some("delivered"), Some("ok"));
    AsWrittenRoundTrip(e);
    RoundTrip(e);
  }

  /** `save`'s defaults: a `System-` id when the provider gave none, and the current time. */
  function WithDefaults(e: LogEntry, freshId: string, now: int): (r: LogEntry)
    ensures Filled(r.firebaseId) && r.createdAt.Some?
    ensures Filled(e.firebaseId) ==> r.firebaseId == e.firebaseId
    ensures !Filled(e.firebaseId) ==> r.firebaseId == Some("System-" + freshId)
    ensures e.createdAt.Some? ==> r.createdAt == e.createdAt
    ensures r.notificationId == e.notificationId && r.deviceToken == e.deviceToken
    ensures r.status == e.status && r.details == e.details
  {
    e.(firebaseId := if Filled(e.firebaseId) then e.firebaseId else Some("System-" + freshId),
       createdAt := if e.createdAt.Some? then e.createdAt else Some(now))
  }

  /** A second save of a saved entry adds nothing. */
  lemma DefaultsIdempotent(e: LogEntry, id1: string, now1: int, id2: string, now2: int)
    ensures WithDefaults(WithDefaults(e, id1, now1), id2, now2) == WithDefaults(e, id1, now1)
  {
  }

  /** `save`: fills the defaults and writes the entry under its `firebaseId`. */
  method Save(t: Table, data: LogEntry, freshId: string, now: int) returns (saved: LogEntry)
    requires t.Valid() && t.keyAttr == "firebaseId"
    modifies t
    ensures t.Valid()
    ensures saved == WithDefaults(data, freshId, now)
    ensures t.Snap() == AfterPut(old(t.Snap()), saved.firebaseId.value, Encode(saved))
  {
    saved := WithDefaults(data, freshId, now);
    t.Put(Encode(saved));
  }

  /** `remove`. */
  method Remove(t: Table, firebaseId: string)
    requires t.Valid()
    modifies t
    ensures t.Valid()
    ensures t.Snap() == AfterDelete(old(t.Snap()), firebaseId)
  {
    t.Delete(firebaseId);
  }
}
