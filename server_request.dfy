/**
 * The request handler of the dispatch engine (`handlers/server_request/index.js`): it
 * routes one inbound request on its `requestType`, and for `send_message` renders the
 * notification, stores it, sends it to each of the owner's devices, reconciles the
 * device store with each provider answer, logs each delivery and records the outcome.
 * It uses the `lambda/` repositories, whose owner attribute is `debtorNumber`.
 */
module ServerRequest {
  import opened Wrappers
  import opened Json
  import opened Dynamo
  import opened ResponseWrapper
  import opened NotificationManager
  import Notes = Notifications
  import Dev = Devices
  import Log = NotificationsLog

  /* ---------- Preparing a send ---------- */

  /**
   * The owner of a send request, after the two presence checks. Both missing fields are
   * rejected with `invalid_parameters`; an owner that is not a string is refused by the
   * store's unread-count query.
   */
  function OwnerOf(notification: Json): (r: Result<string, Failure>)
    ensures !Present(Prop(notification, "debtorNumber")) || !Present(Prop(notification, "templateID")) ==>
      r == Err(Raise(InvalidParameters))
    ensures r.Ok? ==>
      (Prop(notification, "debtorNumber") == Some(JStr(r.value)) && r.value != "" && Present(Prop(notification, "templateID")))
  {
    var owner := Prop(notification, "debtorNumber");
    if !Present(owner) || !Present(Prop(notification, "templateID")) then Err(Raise(InvalidParameters))
    else if !owner.value.JStr? then Err(Internal("ValidationException: debtorNumber is not a string"))
    else Ok(owner.value.s)
  }

  /** What a send stores and sends, computed before the first write. */
  datatype Prepared = Prepared(record: Notes.Notification, ios: Payload, android: Payload, isDefault: bool)

  /** `if (!notification.type) notification.type = "default"`. */
  function WithType(notification: Json): (r: Json)
    requires notification.JObj?
    ensures r.JObj? && Present(Prop(r, "type"))
    ensures Present(Prop(notification, "type")) ==> r == notification
    ensures !Present(Prop(notification, "type")) ==> Prop(r, "type") == Some(JStr(DefaultType))
    ensures forall k :: k != "type" ==> Prop(r, k) == Prop(notification, k)
  {
    if Present(Prop(notification, "type")) then notification
    else SetProp(notification, "type", JStr(DefaultType))
  }

  /** `{title, body}` of one platform: the rendered strings, the body falling back to `data.body`. */
  function TextsOf(p: Payload): (r: Json)
    ensures r.JObj?
    ensures Prop(r, "title") == p.title
    ensures Prop(r, "body") == if Present(p.body) then p.body else Prop(p.data, "body")
  {
    var body := if Present(p.body) then p.body else Prop(p.data, "body");
    var title := if p.title.Some? then [("title", p.title.value)] else [];
    var bodyField := if body.Some? then [("body", body.value)] else [];
    assert FieldIndex(title + bodyField, "body") == if body.Some? then Some(|title|) else None by {
      if title != [] {
        assert (title + bodyField)[1..] == bodyField;
      }
    }
    JObj(title + bodyField)
  }

  /**
   * The record `sendMessage` builds: the type (defaulted), the owner, the request's own
   * id, the request itself as payload and the texts of both platforms.
   */
  function Prepare(notification: Json, owner: string, badge: int, templates: map<string, Json>): (r: Result<Prepared, Failure>)
    requires notification.JObj?
    ensures r.Ok? ==> r.value.record.owner == Some(owner) && r.value.record.payload == Some(WithType(notification))
    ensures r.Ok? ==> r.value.record.notificationType.Some? && Filled(r.value.record.notificationType)
    ensures r.Ok? ==> r.value.record.createdAt.None? && r.value.record.status.None?
    ensures r.Ok? ==> r.value.record.systemStatus.None? && r.value.record.details.None?
  {
    var typed := WithType(notification);
    var templateId := Prop(notification, "templateID").GetOr(JNull);
    var ios := FormatSpec(templates, "ios", templateId, Prop(notification, "templateParams"), Prop(notification, "additionalParams"), badge);
    var android := FormatSpec(templates, "android", templateId, Prop(notification, "templateParams"), Prop(notification, "additionalParams"), badge);
    if ios.Err? then Err(ios.error)
    else if android.Err? then Err(android.error)
    else
      var id := StoreText(Prop(notification, "id"));
      var kind := StoreText(Prop(typed, "type"));
      if id.Err? then Err(Internal(id.error))
      else if kind.Err? then Err(Internal(kind.error))
      else
        var texts := JObj([("ios", TextsOf(ios.value)), ("android", TextsOf(android.value))]);
        var record := Notes.Notification(id.value, None, Some(owner), None, None, None, Some(typed), Some(texts), kind.value);
        Ok(Prepared(record, ios.value, android.value, LooseEqualsText(Prop(typed, "type").value, DefaultType)))
  }

  /** A request without a type is of the default kind, and is sent to the devices. */
  lemma DefaultKind(notification: Json, owner: string, badge: int, templates: map<string, Json>)
    requires notification.JObj? && !Present(Prop(notification, "type"))
    requires Prepare(notification, owner, badge, templates).Ok?
    ensures Prepare(notification, owner, badge, templates).value.isDefault
    ensures Prepare(notification, owner, badge, templates).value.record.notificationType == Some(DefaultType)
  {
  }

  /* ---------- The fan-out over the devices ---------- */

  /** The provider and the other oracles of one send: the i-th device's result, fresh log ids and the clock. */
  datatype Oracle = Oracle(outcomes: seq<Result<SendResult, Failure>>, logIds: seq<string>, now: int)

  /** The oracle answers for every device of the list. */
  predicate Covers(o: Oracle, devices: seq<Dev.Device>) {
    |devices| <= |o.outcomes| && |devices| <= |o.logIds|
  }

  /** What each device is sent and which notification the log entries name. */
  datatype Dispatch = Dispatch(itemId: Option<string>, ios: Payload, android: Payload)

  /**
   * The state the loop changes: the device store, the log entries saved, the messages
   * sent and the two flags. The log table is the one the entries are put into (`Journal`).
   */
  datatype Progress = Progress(
    devices: Snapshot,
    entries: seq<Log.LogEntry>,
    sent: seq<Payload>,
    delivered: bool,
    stopped: bool)

  function TokenOf(dev: Dev.Device): string {
    dev.deviceToken.GetOr("")
  }

  /** The message sent to a device: its platform's payload, addressed to its token. */
  function Attempt(d: Dispatch, dev: Dev.Device): Payload {
    Addressed(if dev.platform == Some("ios") then d.ios else d.android, TokenOf(dev))
  }

  /** `notifResponse.details ? notifResponse.details : ""` inside a string. */
  function DetailText(details: Option<Json>): string {
    if Present(details) then ToText(details.value) else ""
  }

  /** The log entry of a device, before its message-specific status and details. */
  function EntryFor(d: Dispatch, dev: Dev.Device, res: SendResult): Log.LogEntry {
    Log.LogEntry(None, res.firebaseId, d.itemId, dev.deviceToken, None, None)
  }

  /** `PushNotificationsLogRepository.save(notificationLog)`: the entry with its defaults. */
  function Logged(p: Progress, entry: Log.LogEntry, logId: string, now: int): Progress {
    p.(entries := p.entries + [Log.WithDefaults(entry, logId, now)])
  }

  /** The log table after the saves of `entries`, in order, each under its `firebaseId`. */
  function Journal(logs: Snapshot, entries: seq<Log.LogEntry>): Snapshot {
    if entries == [] then logs
    else
      var last := entries[|entries| - 1];
      AfterPut(Journal(logs, entries[..|entries| - 1]), last.firebaseId.GetOr(""), Log.Encode(last))
  }

  /** One iteration of the loop, or nothing once an exception has ended it. */
  function Step(p: Progress, d: Dispatch, dev: Dev.Device, outcome: Result<SendResult, Failure>, logId: string, now: int): Progress {
    if p.stopped then p
    else
      var p1 := p.(sent := p.sent + [Attempt(d, dev)]);
      match outcome
      case Err(_) => p1.(stopped := true)
      case Ok(res) =>
        var entry := EntryFor(d, dev, res);
        if !res.validToken then
          Logged(p1.(devices := AfterDelete(p1.devices, TokenOf(dev))),
                 entry.(status := Some(Log.LogStatus.Error.Text()), details := Some(RejectedText + DetailText(res.details))), logId, now)
        else if Filled(res.token) then
          var moved := Dev.WithCreatedAt(dev.(deviceToken := res.token), now);
          Logged(p1.(devices := AfterPut(AfterDelete(p1.devices, TokenOf(dev)), res.token.value, Dev.Encode(Lambda, moved)),
                     delivered := true),
                 entry.(status := Some(Log.LogStatus.Delivered.Text()),
                        details := Some(ChangedText + res.token.value + " " + DetailText(res.details))), logId, now)
        else
          match StoreText(res.details)
          case Err(_) => p1.(delivered := true, stopped := true)
          case Ok(details) => Logged(p1.(delivered := true), entry.(status := Some(Log.LogStatus.Delivered.Text()), details := details), logId, now)
  }

  const RejectedText := "Firebase rejected the token, "
  const ChangedText := "Firebase changed the token to "

  /** The state after the first `k` devices. */
  function Run(p0: Progress, d: Dispatch, devices: seq<Dev.Device>, o: Oracle, k: nat): Progress
    requires k <= |devices| && Covers(o, devices)
  {
    if k == 0 then p0 else Step(Run(p0, d, devices, o, k - 1), d, devices[k - 1], o.outcomes[k - 1], o.logIds[k - 1], o.now)
  }

  function Start(devices: Snapshot): Progress {
    Progress(devices, [], [], false, false)
  }

  /** Once the loop has stopped, later devices change nothing. */
  lemma {:induction false} RunHalted(p0: Progress, d: Dispatch, devices: seq<Dev.Device>, o: Oracle, k: nat, j: nat)
    requires k <= j <= |devices| && Covers(o, devices) && Run(p0, d, devices, o, k).stopped
    ensures Run(p0, d, devices, o, j) == Run(p0, d, devices, o, k)
    decreases j
  {
    if j > k {
      RunHalted(p0, d, devices, o, k, j - 1);
    }
  }

  /** One pass of the loop body, on a device the loop has reached. */
  method Visit(devTable: Table, logTable: Table, ghost logs: Snapshot, p: Progress, d: Dispatch, dev: Dev.Device,
               outcome: Result<SendResult, Failure>, logId: string, now: int) returns (q: Progress)
    requires devTable.Valid() && devTable.keyAttr == "deviceToken"
    requires logTable.Valid() && logTable.keyAttr == "firebaseId"
    requires !p.stopped && p.devices == devTable.Snap() && logTable.Snap() == Journal(logs, p.entries)
    modifies devTable, logTable
    ensures devTable.Valid() && logTable.Valid()
    ensures q == Step(p, d, dev, outcome, logId, now)
    ensures devTable.Snap() == q.devices && logTable.Snap() == Journal(logs, q.entries)
  {
    q := p.(sent := p.sent + [Attempt(d, dev)]);
    if outcome.Err? {
      return q.(stopped := true);
    }
    var res := outcome.value;
    var entry := EntryFor(d, dev, res);
    if !res.validToken {
      entry := entry.(status := Some(Log.LogStatus.Error.Text()), details := Some(RejectedText + DetailText(res.details)));
      Dev.Remove(devTable, TokenOf(dev));
    } else if Filled(res.token) {
      Dev.Remove(devTable, TokenOf(dev));
      var _ := Dev.Save(devTable, Lambda, dev.(deviceToken := res.token), now);
      entry := entry.(status := Some(Log.LogStatus.Delivered.Text()),
                      details := Some(ChangedText + res.token.value + " " + DetailText(res.details)));
      q := q.(delivered := true);
    } else {
      q := q.(delivered := true);
      var details := StoreText(res.details);
      if details.Err? {
        return q.(stopped := true);
      }
      entry := entry.(status := Some(Log.LogStatus.Delivered.Text()), details := details.value);
    }
    var saved := Log.Save(logTable, entry, logId, now);
    q := q.(devices := devTable.Snap(), entries := q.entries + [saved]);
    assert q.entries[..|q.entries| - 1] == p.entries;
  }

  /**
   * The `for` loop with its `try`: each device in turn is sent its message, and the
   * answer decides what happens to its token and what is logged; an exception ends the loop.
   */
  method FanOut(devTable: Table, logTable: Table, d: Dispatch, devices: seq<Dev.Device>, o: Oracle) returns (p: Progress)
    requires devTable.Valid() && devTable.keyAttr == "deviceToken"
    requires logTable.Valid() && logTable.keyAttr == "firebaseId"
    requires Covers(o, devices)
    modifies devTable, logTable
    ensures devTable.Valid() && logTable.Valid()
    ensures p == Run(Start(old(devTable.Snap())), d, devices, o, |devices|)
    ensures devTable.Snap() == p.devices && logTable.Snap() == Journal(old(logTable.Snap()), p.entries)
  {
    var p0 := Start(devTable.Snap());
    ghost var logs := logTable.Snap();
    p := p0;
    var index := 0;
    while index < |devices| && !p.stopped
      invariant 0 <= index <= |devices|
      invariant devTable.Valid() && logTable.Valid()
      invariant p == Run(p0, d, devices, o, index)
      invariant devTable.Snap() == p.devices && logTable.Snap() == Journal(logs, p.entries)
    {
      p := Visit(devTable, logTable, logs, p, d, devices[index], o.outcomes[index], o.logIds[index], o.now);
      index := index + 1;
    }
    if p.stopped {
      RunHalted(p0, d, devices, o, index, |devices|);
    }
  }

  /** The i-th device's answer keeps its token. */
  predicate KeptToken(o: Oracle, i: nat) {
    i < |o.outcomes| && o.outcomes[i].Ok? && o.outcomes[i].value.validToken
  }

  /** The i-th device's answer invalidates its token. */
  predicate Invalidated(o: Oracle, i: nat) {
    i < |o.outcomes| && o.outcomes[i].Ok? && !o.outcomes[i].value.validToken
  }

  /**
   * What one iteration does to the log entries: none is added once the loop stops;
   * otherwise the device's answer was a result and one entry is added, naming the stored
   * notification and the device's token, with status `delivered` or `error`.
   */
  predicate LogsOne(p: Progress, q: Progress, d: Dispatch, dev: Dev.Device, outcome: Result<SendResult, Failure>) {
    if p.stopped || q.stopped then q.entries == p.entries
    else
      && outcome.Ok?
      && |q.entries| == |p.entries| + 1
      && q.entries[..|p.entries|] == p.entries
      && q.entries[|p.entries|].notificationId == d.itemId
      && q.entries[|p.entries|].deviceToken == dev.deviceToken
      && q.entries[|p.entries|].status ==
           Some(if outcome.value.validToken then Log.LogStatus.Delivered.Text() else Log.LogStatus.Error.Text())
  }

  /** What one iteration does to the messages sent and to the number of log entries. */
  lemma StepCounts(p: Progress, d: Dispatch, dev: Dev.Device, outcome: Result<SendResult, Failure>, logId: string, now: int)
    ensures var q := Step(p, d, dev, outcome, logId, now);
      && (p.stopped ==> q == p)
      && (!p.stopped ==> q.sent == p.sent + [Attempt(d, dev)])
      && (!p.stopped && q.stopped ==> q.entries == p.entries)
      && (!p.stopped && !q.stopped ==> |q.entries| == |p.entries| + 1)
  {
  }

  lemma StepLogs(p: Progress, d: Dispatch, dev: Dev.Device, outcome: Result<SendResult, Failure>, logId: string, now: int)
    ensures LogsOne(p, Step(p, d, dev, outcome, logId, now), d, dev, outcome)
  {
  }

  /** What one iteration does to the messages, the log entries, the flags and the device store. */
  lemma StepFacts(p: Progress, d: Dispatch, dev: Dev.Device, outcome: Result<SendResult, Failure>, logId: string, now: int)
    ensures var q := Step(p, d, dev, outcome, logId, now);
      && (p.stopped ==> q == p)
      && (!p.stopped ==> q.sent == p.sent + [Attempt(d, dev)])
      && (!p.stopped ==> (q.delivered <==> p.delivered || (outcome.Ok? && outcome.value.validToken)))
      && LogsOne(p, q, d, dev, outcome)
      && (!p.stopped && outcome.Ok? && outcome.value.token.None? ==>
            q.devices.rows == if outcome.value.validToken then p.devices.rows else p.devices.rows - {TokenOf(dev)})
      && (!p.stopped && outcome.Err? ==> q.devices == p.devices)
  {
  }

  /** The loop reaches at most the first `k` devices, and all of them unless it stopped. */
  lemma {:induction false} RunReached(ds: Snapshot, d: Dispatch, devices: seq<Dev.Device>, o: Oracle, k: nat)
    requires k <= |devices| && Covers(o, devices)
    ensures var p := Run(Start(ds), d, devices, o, k);
      |p.sent| <= k && (!p.stopped ==> |p.sent| == k)
  {
    if k > 0 {
      RunReached(ds, d, devices, o, k - 1);
      var p := Run(Start(ds), d, devices, o, k - 1);
      StepCounts(p, d, devices[k - 1], o.outcomes[k - 1], o.logIds[k - 1], o.now);
    }
  }

  /**
   * The devices reached are the first ones, in order, each sent its platform's message;
   * without an exception every device is reached.
   */
  lemma {:induction false} RunSent(ds: Snapshot, d: Dispatch, devices: seq<Dev.Device>, o: Oracle, k: nat)
    requires k <= |devices| && Covers(o, devices)
    ensures var p := Run(Start(ds), d, devices, o, k);
      && |p.sent| <= k
      && (!p.stopped ==> |p.sent| == k)
      && (forall i :: 0 <= i < |p.sent| ==> p.sent[i] == Attempt(d, devices[i]))
  {
    RunReached(ds, d, devices, o, k);
    if k > 0 {
      RunSent(ds, d, devices, o, k - 1);
      RunReached(ds, d, devices, o, k - 1);
      var p := Run(Start(ds), d, devices, o, k - 1);
      StepCounts(p, d, devices[k - 1], o.outcomes[k - 1], o.logIds[k - 1], o.now);
    }
  }

  /**
   * The log entries belong to the first devices, in order: each names the stored
   * notification and the device's original token, and has status `error` when the
   * device's token was rejected and `delivered` otherwise.
   */
  predicate EntriesMatch(entries: seq<Log.LogEntry>, d: Dispatch, devices: seq<Dev.Device>, o: Oracle) {
    && |entries| <= |devices| && |entries| <= |o.outcomes|
    && forall i :: 0 <= i < |entries| ==>
         && o.outcomes[i].Ok?
         && entries[i].notificationId == d.itemId
         && entries[i].deviceToken == devices[i].deviceToken
         && entries[i].status == Some(if Invalidated(o, i) then Log.LogStatus.Error.Text() else Log.LogStatus.Delivered.Text())
  }

  /** An iteration on the next device keeps the entries matched to the devices. */
  lemma StepEntries(p: Progress, q: Progress, d: Dispatch, devices: seq<Dev.Device>, o: Oracle, j: nat)
    requires j < |devices| && Covers(o, devices) && EntriesMatch(p.entries, d, devices, o)
    requires !p.stopped ==> |p.entries| == j
    requires LogsOne(p, q, d, devices[j], o.outcomes[j])
    ensures EntriesMatch(q.entries, d, devices, o)
  {
    forall i | 0 <= i < |q.entries|
      ensures i < |o.outcomes| && o.outcomes[i].Ok? && q.entries[i].notificationId == d.itemId
      ensures q.entries[i].deviceToken == devices[i].deviceToken
      ensures q.entries[i].status == Some(if Invalidated(o, i) then Log.LogStatus.Error.Text() else Log.LogStatus.Delivered.Text())
    {
      if i < |p.entries| {
        assert q.entries[i] == q.entries[..|p.entries|][i];
      }
    }
  }


  /** Each device reached but the one whose exception ended the loop has one log entry. */
  lemma {:induction false} RunLogCount(ds: Snapshot, d: Dispatch, devices: seq<Dev.Device>, o: Oracle, k: nat)
    requires k <= |devices| && Covers(o, devices)
    ensures var p := Run(Start(ds), d, devices, o, k);
      && |p.entries| <= |p.sent| <= k
      && (!p.stopped ==> |p.entries| == |p.sent|)
      && (p.stopped ==> |p.entries| == |p.sent| - 1)
  {
    if k > 0 {
      RunLogCount(ds, d, devices, o, k - 1);
      RunReached(ds, d, devices, o, k - 1);
      var p := Run(Start(ds), d, devices, o, k - 1);
      StepCounts(p, d, devices[k - 1], o.outcomes[k - 1], o.logIds[k - 1], o.now);
    }
  }

  /** The log entries match the first devices, in order. */
  lemma {:induction false} RunLogMatch(ds: Snapshot, d: Dispatch, devices: seq<Dev.Device>, o: Oracle, k: nat)
    requires k <= |devices| && Covers(o, devices)
    ensures EntriesMatch(Run(Start(ds), d, devices, o, k).entries, d, devices, o)
  {
    if k > 0 {
      RunLogMatch(ds, d, devices, o, k - 1);
      RunLogCount(ds, d, devices, o, k - 1);
      RunReached(ds, d, devices, o, k - 1);
      var p := Run(Start(ds), d, devices, o, k - 1);
      var q := Step(p, d, devices[k - 1], o.outcomes[k - 1], o.logIds[k - 1], o.now);
      StepLogs(p, d, devices[k - 1], o.outcomes[k - 1], o.logIds[k - 1], o.now);
      StepEntries(p, q, d, devices, o, k - 1);
    }
  }

  /**
   * Each device reached but the one whose exception ended the loop has one log entry,
   * and the entries match the devices.
   */
  lemma RunLog(ds: Snapshot, d: Dispatch, devices: seq<Dev.Device>, o: Oracle, k: nat)
    requires k <= |devices| && Covers(o, devices)
    ensures var p := Run(Start(ds), d, devices, o, k);
      && |p.entries| <= |p.sent| <= k
      && (!p.stopped ==> |p.entries| == |p.sent|)
      && (p.stopped ==> |p.entries| == |p.sent| - 1)
      && EntriesMatch(p.entries, d, devices, o)
  {
    RunLogCount(ds, d, devices, o, k);
    RunLogMatch(ds, d, devices, o, k);
  }

  /** Whether one of the first `n` answers kept its token. */
  predicate AnyKept(o: Oracle, n: nat) {
    n > 0 && (AnyKept(o, n - 1) || KeptToken(o, n - 1))
  }

  lemma {:induction false} AnyKeptIff(o: Oracle, n: nat)
    ensures AnyKept(o, n) <==> exists i :: 0 <= i < n && KeptToken(o, i)
  {
    if n > 0 {
      AnyKeptIff(o, n - 1);
      if exists i :: 0 <= i < n && KeptToken(o, i) {
        var i :| 0 <= i < n && KeptToken(o, i);
        if i < n - 1 {
          assert AnyKept(o, n - 1);
        }
      }
    }
  }

  /** One iteration on the `k`-th device keeps the delivered flag equal to `AnyKept`. */
  lemma DeliveredStep(p: Progress, q: Progress, o: Oracle, k: nat)
    requires 0 < k && |p.sent| <= k - 1 && p.delivered == AnyKept(o, |p.sent|)
    requires p.stopped ==> q == p
    requires !p.stopped ==> |p.sent| == k - 1 && |q.sent| == k && (q.delivered <==> p.delivered || KeptToken(o, k - 1))
    ensures q.delivered == AnyKept(o, |q.sent|)
  {
  }

  /** The delivered flag is `AnyKept` over the devices reached. */
  lemma {:induction false} RunAnyKept(ds: Snapshot, d: Dispatch, devices: seq<Dev.Device>, o: Oracle, k: nat)
    requires k <= |devices| && Covers(o, devices)
    ensures var p := Run(Start(ds), d, devices, o, k);
      |p.sent| <= k && p.delivered == AnyKept(o, |p.sent|)
  {
    if k > 0 {
      RunAnyKept(ds, d, devices, o, k - 1);
      RunReached(ds, d, devices, o, k - 1);
      var p := Run(Start(ds), d, devices, o, k - 1);
      var q := Step(p, d, devices[k - 1], o.outcomes[k - 1], o.logIds[k - 1], o.now);
      StepFacts(p, d, devices[k - 1], o.outcomes[k - 1], o.logIds[k - 1], o.now);
      DeliveredStep(p, q, o, k);
    }
  }

  /** The notification is delivered exactly when some device reached kept its token. */
  lemma RunDelivered(ds: Snapshot, d: Dispatch, devices: seq<Dev.Device>, o: Oracle, k: nat)
    requires k <= |devices| && Covers(o, devices)
    ensures var p := Run(Start(ds), d, devices, o, k);
      p.delivered <==> exists i :: 0 <= i < |p.sent| && KeptToken(o, i)
  {
    RunAnyKept(ds, d, devices, o, k);
    AnyKeptIff(o, |Run(Start(ds), d, devices, o, k).sent|);
  }

  /** No answer among the first `k` carries a replacement token. */
  predicate NoRotation(o: Oracle, k: nat) {
    forall i :: 0 <= i < k && i < |o.outcomes| ==> o.outcomes[i].Ok? ==> o.outcomes[i].value.token.None?
  }

  /** The tokens of the first `n` devices whose answers invalidated them. */
  function Dropped(o: Oracle, devices: seq<Dev.Device>, n: nat): set<string>
    requires n <= |devices|
  {
    if n == 0 then {}
    else Dropped(o, devices, n - 1) + (if Invalidated(o, n - 1) then {TokenOf(devices[n - 1])} else {})
  }

  /** A token is dropped exactly when one of the first `n` devices has it and was invalidated. */
  lemma {:induction false} DroppedIff(o: Oracle, devices: seq<Dev.Device>, n: nat, key: string)
    requires n <= |devices|
    ensures key in Dropped(o, devices, n) <==> exists i :: 0 <= i < n && Invalidated(o, i) && TokenOf(devices[i]) == key
  {
    if n > 0 {
      DroppedIff(o, devices, n - 1, key);
      if key in Dropped(o, devices, n) && key !in Dropped(o, devices, n - 1) {
        assert Invalidated(o, n - 1) && TokenOf(devices[n - 1]) == key;
      }
      if exists i :: 0 <= i < n && Invalidated(o, i) && TokenOf(devices[i]) == key {
        var i :| 0 <= i < n && Invalidated(o, i) && TokenOf(devices[i]) == key;
        if i < n - 1 {
          assert key in Dropped(o, devices, n - 1);
        }
      }
    }
  }

  /**
   * The device store has only lost entries since `ds`, and it has lost exactly the tokens
   * of the devices reached whose token was rejected.
   */
  predicate OnlyDropped(ds: Snapshot, p: Progress, o: Oracle, devices: seq<Dev.Device>) {
    && |p.sent| <= |devices|
    && (forall key :: key in p.devices.rows ==> key in ds.rows && p.devices.rows[key] == ds.rows[key])
    && (forall key :: key in ds.rows ==> (key !in p.devices.rows <==> key in Dropped(o, devices, |p.sent|)))
  }

  /** One iteration on the `k`-th device keeps `OnlyDropped`. */
  lemma DroppedStep(ds: Snapshot, p: Progress, q: Progress, o: Oracle, devices: seq<Dev.Device>, k: nat)
    requires 0 < k <= |devices| && OnlyDropped(ds, p, o, devices) && |p.sent| <= k - 1
    requires p.stopped ==> q == p
    requires !p.stopped ==> |p.sent| == k - 1 && |q.sent| == k
    requires !p.stopped ==>
      q.devices.rows == if Invalidated(o, k - 1) then p.devices.rows - {TokenOf(devices[k - 1])} else p.devices.rows
    ensures OnlyDropped(ds, q, o, devices)
  {
    if !p.stopped {
      if Invalidated(o, k - 1) {
        assert Dropped(o, devices, k) == Dropped(o, devices, k - 1) + {TokenOf(devices[k - 1])};
      } else {
        assert Dropped(o, devices, k) == Dropped(o, devices, k - 1);
      }
    }
  }

  /**
   * Without replacement tokens the device store only loses entries, and it loses
   * exactly the tokens of the devices reached whose token was rejected.
   */
  lemma {:induction false} RunDevices(ds: Snapshot, d: Dispatch, devices: seq<Dev.Device>, o: Oracle, k: nat)
    requires k <= |devices| && Covers(o, devices) && NoRotation(o, k)
    ensures var p := Run(Start(ds), d, devices, o, k);
      && |p.sent| <= k
      && OnlyDropped(ds, p, o, devices)
  {
    if k > 0 {
      RunDevices(ds, d, devices, o, k - 1);
      RunReached(ds, d, devices, o, k - 1);
      var p := Run(Start(ds), d, devices, o, k - 1);
      var q := Step(p, d, devices[k - 1], o.outcomes[k - 1], o.logIds[k - 1], o.now);
      StepFacts(p, d, devices[k - 1], o.outcomes[k - 1], o.logIds[k - 1], o.now);
      assert o.outcomes[k - 1].Ok? ==> o.outcomes[k - 1].value.token.None?;
      DroppedStep(ds, p, q, o, devices, k);
    }
  }

  /** The outcomes the classification of `sendMessage` gives for the provider's replies. */
  function Classified(replies: seq<ProviderReply>): (r: seq<Result<SendResult, Failure>>)
    ensures |r| == |replies|
    ensures forall i :: 0 <= i < |r| ==> r[i] == Classify(replies[i])
  {
    seq(|replies|, i requires 0 <= i < |replies| => Classify(replies[i]))
  }

  /** With the classification of `sendMessage`, a send never adds a device. */
  lemma ClassifiedDevicesShrink(ds: Snapshot, d: Dispatch, devices: seq<Dev.Device>,
                                replies: seq<ProviderReply>, logIds: seq<string>, now: int)
    requires |devices| <= |replies| && |devices| <= |logIds|
    ensures var o := Oracle(Classified(replies), logIds, now);
      var p := Run(Start(ds), d, devices, o, |devices|);
      forall key :: key in p.devices.rows ==> key in ds.rows && p.devices.rows[key] == ds.rows[key]
  {
    var o := Oracle(Classified(replies), logIds, now);
    RunDevices(ds, d, devices, o, |devices|);
  }

  /**
   * A replacement token moves the device: the same record, now under the new token,
   * and the old token gone; the notification counts as delivered.
   */
  lemma StepRotation(p: Progress, d: Dispatch, dev: Dev.Device, res: SendResult, logId: string, now: int)
    requires !p.stopped && res.validToken && Filled(res.token)
    ensures var q := Step(p, d, dev, Ok(res), logId, now);
      var tok := res.token.value;
      && tok in q.devices.rows
      && Dev.Decode(Lambda, q.devices.rows[tok]) == Dev.Normalize(Dev.WithCreatedAt(dev.(deviceToken := res.token), now))
      && (TokenOf(dev) != tok ==> TokenOf(dev) !in q.devices.rows)
      && (forall k :: k != tok && k != TokenOf(dev) ==> (k in q.devices.rows <==> k in p.devices.rows))
      && q.delivered && !q.stopped
  {
    Dev.RoundTrip(Lambda, Dev.WithCreatedAt(dev.(deviceToken := res.token), now));
  }

  /* ---------- sendMessage ---------- */

  /** Everything `sendMessage` decides before its first write: the owner and the prepared record. */
  function Plan(notes: Snapshot, notification: Json, templates: map<string, Json>): (r: Result<(string, Prepared), Failure>)
    ensures r.Err? && r.error.ResponseError? ==> r.error == Raise(InvalidParameters)
    ensures OwnerOf(notification).Err? ==> r == Err(OwnerOf(notification).error)
    ensures r.Ok? ==> OwnerOf(notification) == Ok(r.value.0) && r.value.1.record.owner == Some(r.value.0)
  {
    match OwnerOf(notification)
    case Err(e) => Err(e)
    case Ok(owner) =>
      match Prepare(notification, owner, Notes.CountUnread(notes, Lambda, owner), templates)
      case Err(e) => Err(e)
      case Ok(prepared) => Ok((owner, prepared))
  }

  const PayloadRejected := "Firebase rejected payload"

  /** The record's final state: an exception marks it failed, a delivery marks it delivered. */
  function Finish(saved: Notes.Notification, p: Progress): (r: Notes.Notification)
    ensures r.id == saved.id && r.createdAt == saved.createdAt && r.owner == saved.owner && r.status == saved.status
    ensures r.payload == saved.payload && r.texts == saved.texts && r.notificationType == saved.notificationType
    ensures p.stopped ==> r.systemStatus == Some(Notes.SystemStatus.Failed.Text()) && r.details == Some(PayloadRejected)
    ensures !p.stopped && p.delivered ==> r.systemStatus == Some(Notes.SystemStatus.Delivered.Text()) && r.details == saved.details
    ensures !p.stopped && !p.delivered ==> r == saved
  {
    if p.stopped then saved.(systemStatus := Some(Notes.SystemStatus.Failed.Text()), details := Some(PayloadRejected))
    else if p.delivered then saved.(systemStatus := Some(Notes.SystemStatus.Delivered.Text()))
    else saved
  }

  /** Saving a record that already carries every default writes it unchanged. */
  lemma FinishKeepsDefaults(saved: Notes.Notification, p: Progress, freshId: string, now: int)
    requires freshId != "" && Filled(saved.id) && saved.createdAt.Some? && Filled(saved.status) && Filled(saved.systemStatus)
    ensures Notes.WithDefaults(Finish(saved, p), freshId, now) == Finish(saved, p)
  {
  }

  /**
   * The default branch of `sendMessage` after the first save: sends to each of the owner's
   * devices and saves the record again with its final system status.
   */
  method Deliver(notes: Table, devs: Table, logs: Table, saved: Notes.Notification, owner: string,
                 prepared: Prepared, freshId: string, o: Oracle) returns (final: Notes.Notification)
    requires notes.Valid() && notes.keyAttr == "id"
    requires devs.Valid() && devs.keyAttr == "deviceToken"
    requires logs.Valid() && logs.keyAttr == "firebaseId"
    requires freshId != "" && Dev.QueryLimit <= |o.outcomes| && Dev.QueryLimit <= |o.logIds|
    requires Filled(saved.id) && saved.createdAt.Some? && Filled(saved.status) && Filled(saved.systemStatus)
    modifies notes, devs, logs
    ensures notes.Valid() && devs.Valid() && logs.Valid()
    ensures var devices := Dev.Owned(old(devs.Snap()), Lambda, owner);
      var p := Run(Start(old(devs.Snap())), Dispatch(saved.id, prepared.ios, prepared.android), devices, o, |devices|);
      && final == Finish(saved, p)
      && notes.Snap() == AfterPut(old(notes.Snap()), final.id.value, Notes.Encode(Lambda, final))
      && devs.Snap() == p.devices
      && logs.Snap() == Journal(old(logs.Snap()), p.entries)
  {
    var devices, _ := Dev.FindByOwner(devs, Lambda, owner);
    var p := FanOut(devs, logs, Dispatch(saved.id, prepared.ios, prepared.android), devices, o);
    FinishKeepsDefaults(saved, p, freshId, o.now);
    final := Notes.Save(notes, Lambda, Finish(saved, p), freshId, o.now);
  }

  /**
   * `sendMessage`: validates the request, counts the unread notifications for the badge,
   * renders both payloads and builds the record, all before any write. A silent
   * notification is then saved once. A default one is saved, sent to each of the owner's
   * devices, and saved again with its final system status.
   */
  method SendMessage(notes: Table, devs: Table, logs: Table, templates: map<string, Json>, notification: Json,
                     freshId: string, o: Oracle) returns (r: Result<Notes.Notification, Failure>)
    requires notes.Valid() && notes.keyAttr == "id"
    requires devs.Valid() && devs.keyAttr == "deviceToken"
    requires logs.Valid() && logs.keyAttr == "firebaseId"
    requires freshId != "" && Dev.QueryLimit <= |o.outcomes| && Dev.QueryLimit <= |o.logIds|
    modifies notes, devs, logs
    ensures notes.Valid() && devs.Valid() && logs.Valid()
    ensures var plan := Plan(old(notes.Snap()), notification, templates);
      plan.Err? ==>
        && r == Err(plan.error)
        && notes.Snap() == old(notes.Snap()) && devs.Snap() == old(devs.Snap()) && logs.Snap() == old(logs.Snap())
    ensures var plan := Plan(old(notes.Snap()), notification, templates);
      plan.Ok? && !plan.value.1.isDefault ==>
        var saved := Notes.WithDefaults(plan.value.1.record, freshId, o.now);
        && r == Ok(saved)
        && notes.Snap() == AfterPut(old(notes.Snap()), saved.id.value, Notes.Encode(Lambda, saved))
        && devs.Snap() == old(devs.Snap()) && logs.Snap() == old(logs.Snap())
    ensures var plan := Plan(old(notes.Snap()), notification, templates);
      plan.Ok? && plan.value.1.isDefault ==>
        var prepared := plan.value.1;
        var saved := Notes.WithDefaults(prepared.record, freshId, o.now);
        var devices := Dev.Owned(old(devs.Snap()), Lambda, plan.value.0);
        var p := Run(Start(old(devs.Snap())), Dispatch(saved.id, prepared.ios, prepared.android), devices, o, |devices|);
        var final := Finish(saved, p);
        && r == Ok(final)
        && notes.Snap() == AfterPut(AfterPut(old(notes.Snap()), saved.id.value, Notes.Encode(Lambda, saved)),
                                    final.id.value, Notes.Encode(Lambda, final))
        && devs.Snap() == p.devices
        && logs.Snap() == Journal(old(logs.Snap()), p.entries)
    ensures r.Ok? ==>
      && Plan(old(notes.Snap()), notification, templates).Ok?
      && r.value.owner == Some(Plan(old(notes.Snap()), notification, templates).value.0)
      && Filled(r.value.id)
      && r.value.id.value in notes.Snap().rows && notes.Snap().rows[r.value.id.value] == Notes.Encode(Lambda, r.value)
  {
    var plan := Plan(notes.Snap(), notification, templates);
    if plan.Err? {
      return Err(plan.error);
    }
    var (owner, prepared) := plan.value;
    var saved := Notes.Save(notes, Lambda, prepared.record, freshId, o.now);
    if !prepared.isDefault {
      return Ok(saved);
    }
    var final := Deliver(notes, devs, logs, saved, owner, prepared, freshId, o);
    r := Ok(final);
  }

  /* ---------- getMessage and removeDebtor ---------- */

  /**
   * `getMessage`: the stored notification named by `notificationID`. A missing id is an
   * invalid request and an unknown one is not found; a store failure propagates.
   */
  function GetMessage(s: Snapshot, parameters: Json): (r: Result<Notes.Notification, Failure>)
    ensures !Present(Prop(parameters, "notificationID")) ==> r == Err(Raise(InvalidParameters))
    ensures r.Err? && r.error.ResponseError? ==> r.error == Raise(InvalidParameters) || r.error == Raise(NotFound)
    ensures r.Ok? ==>
      && Prop(parameters, "notificationID").Some? && Prop(parameters, "notificationID").value.JStr?
      && var id := Prop(parameters, "notificationID").value.s;
         id in s.rows && Notes.Decode(Lambda, s.rows[id]) == Ok(r.value)
    ensures (Present(Prop(parameters, "notificationID")) && Prop(parameters, "notificationID").value.JStr?
             && Prop(parameters, "notificationID").value.s !in s.rows) ==> r == Err(Raise(NotFound))
  {
    var notificationID := Prop(parameters, "notificationID");
    if !Present(notificationID) then Err(Raise(InvalidParameters))
    else if !notificationID.value.JStr? then Err(Internal("ValidationException: notificationID is not a string"))
    else match Notes.Get(s, Lambda, notificationID.value.s)
      case Err(e) => Err(Internal(e))
      case Ok(None) => Err(Raise(NotFound))
      case Ok(Some(item)) => Ok(item)
  }

  /** A message saved under its id is found again by that id, less its falsy fields. */
  lemma StoredMessageFound(s: Snapshot, n: Notes.Notification, parameters: Json)
    requires Filled(n.id) && Prop(parameters, "notificationID") == Some(JStr(n.id.value))
    ensures GetMessage(AfterPut(s, n.id.value, Notes.Encode(Lambda, n)), parameters) == Ok(Notes.Normalize(n))
  {
    Notes.RoundTrip(Lambda, n);
  }

  /**
   * `removeDebtor`: deletes the devices of `debtorNumber`. A missing owner is an invalid
   * request; a non-text owner is refused by the store before anything is written.
   */
  method RemoveDebtor(devs: Table, parameters: Json) returns (r: Result<(), Failure>)
    requires devs.Valid() && devs.keyAttr == "deviceToken"
    modifies devs
    ensures devs.Valid()
    ensures var owner := Prop(parameters, "debtorNumber");
      && (!Present(owner) ==> r == Err(Raise(InvalidParameters)) && devs.Snap() == old(devs.Snap()))
      && (Present(owner) && !owner.value.JStr? ==> r.Err? && r.error.Internal? && devs.Snap() == old(devs.Snap()))
      && (Present(owner) && owner.value.JStr? ==>
            r == Ok(()) && devs.Snap() == AfterDeleteAll(old(devs.Snap()), Dev.Tokens(Dev.Owned(old(devs.Snap()), Lambda, owner.value.s))))
  {
    var debtorNumber := Prop(parameters, "debtorNumber");
    if !Present(debtorNumber) {
      return Err(Raise(InvalidParameters));
    }
    if !debtorNumber.value.JStr? {
      return Err(Internal("ValidationException: debtorNumber is not a string"));
    }
    var _ := Dev.RemoveByOwner(devs, Lambda, debtorNumber.value.s);
    r := Ok(());
  }

  /* ---------- handler ---------- */

  /** Where a request body goes. */
  datatype Route =
    | Silent                      // no body or no requestID: nothing is answered
    | Invalid(requestID: Json)    // a missing or unknown requestType, or no requestParams
    | GetRequest(requestID: Json, params: Json)
    | RemoveRequest(requestID: Json, params: Json)
    | SendRequest(requestID: Json, params: Json)

  function RouteOf(body: Json): (r: Route)
    ensures r.Silent? <==> !Truthy(body) || !Present(Prop(body, "requestID"))
    ensures !r.Silent? ==> Some(r.requestID) == Prop(body, "requestID")
    ensures (r.GetRequest? || r.RemoveRequest? || r.SendRequest?) ==>
      Present(Prop(body, "requestParams")) && Some(r.params) == Prop(body, "requestParams")
    ensures r.GetRequest? <==> !r.Silent? && Present(Prop(body, "requestParams")) && LooseEqualsTextOpt(Prop(body, "requestType"), "get_message")
    ensures r.RemoveRequest? <==> !r.Silent? && Present(Prop(body, "requestParams")) && LooseEqualsTextOpt(Prop(body, "requestType"), "remove_debtor")
    ensures r.SendRequest? <==> !r.Silent? && Present(Prop(body, "requestParams")) && LooseEqualsTextOpt(Prop(body, "requestType"), "send_message")
  {
    var requestID := Prop(body, "requestID");
    var requestType := Prop(body, "requestType");
    var requestParams := Prop(body, "requestParams");
    if !Truthy(body) || !Present(requestID) then Silent
    else if !Present(requestType) || !Present(requestParams) then Invalid(requestID.value)
    else if LooseEqualsText(requestType.value, "get_message") then GetRequest(requestID.value, requestParams.value)
    else if LooseEqualsText(requestType.value, "remove_debtor") then RemoveRequest(requestID.value, requestParams.value)
    else if LooseEqualsText(requestType.value, "send_message") then SendRequest(requestID.value, requestParams.value)
    else Invalid(requestID.value)
  }

  /**
   * The `catch` of the handler and the success answers: a `ResponseError` answers with its
   * message, any other failure with `invalid_parameters`, a result with the result.
   */
  function EnvelopeFor<T>(requestID: Json, r: Result<Option<T>, Failure>): (e: Envelope<T>)
    ensures e.requestID == requestID
    ensures r.Ok? ==> e.errorMessage.None? && e.response == r.value
    ensures r.Err? ==> e.response.None?
    ensures r.Err? && r.error.Internal? ==> e.errorMessage == Some(InvalidParameters.Label())
    ensures r.Err? && r.error.ResponseError? && r.error.message != "" ==> e.errorMessage == Some(r.error.message)
  {
    match r
    case Ok(v) => CreateServerResponse(requestID, None, v)
    case Err(ResponseError(m)) => CreateServerResponse(requestID, Some(m), None)
    case Err(Internal(_)) => CreateServerResponse(requestID, Some(InvalidParameters.Label()), None)
  }

  function Lift<T>(r: Result<T, Failure>): Result<Option<T>, Failure> {
    match r
    case Ok(v) => Ok(Some(v))
    case Err(e) => Err(e)
  }

  /** An envelope's error, when it has one, is one of the two labels, and then it has no response. */
  predicate Labelled<T>(e: Envelope<T>) {
    e.errorMessage.Some? ==> ParseLabel(e.errorMessage.value).Some? && e.response.None?
  }

  /** The `remove_debtor` branch of `handler`: the answer once the debtor's devices are removed. */
  method AnswerRemove(devs: Table, requestID: Json, params: Json) returns (env: Envelope<Notes.Notification>)
    requires devs.Valid() && devs.keyAttr == "deviceToken"
    modifies devs
    ensures devs.Valid()
    ensures env.requestID == requestID && Labelled(env)
    ensures var owner := Prop(params, "debtorNumber");
      Present(owner) && owner.value.JStr? ==>
        && env == CreateServerResponse(requestID, None, None)
        && devs.Snap() == AfterDeleteAll(old(devs.Snap()), Dev.Tokens(Dev.Owned(old(devs.Snap()), Lambda, owner.value.s)))
    ensures var owner := Prop(params, "debtorNumber");
      !(Present(owner) && owner.value.JStr?) ==>
        && env == CreateServerResponse(requestID, Some(InvalidParameters.Label()), None)
        && devs.Snap() == old(devs.Snap())
  {
    var r := RemoveDebtor(devs, params);
    env := if r.Ok? then CreateServerResponse(requestID, None, None) else EnvelopeFor(requestID, Err(r.error));
  }

  /** The `send_message` branch of `handler`: the answer after the send. */
  method AnswerSend(notes: Table, devs: Table, logs: Table, templates: map<string, Json>, requestID: Json, params: Json,
                    freshId: string, o: Oracle) returns (env: Envelope<Notes.Notification>)
    requires notes.Valid() && notes.keyAttr == "id"
    requires devs.Valid() && devs.keyAttr == "deviceToken"
    requires logs.Valid() && logs.keyAttr == "firebaseId"
    requires freshId != "" && Dev.QueryLimit <= |o.outcomes| && Dev.QueryLimit <= |o.logIds|
    modifies notes, devs, logs
    ensures notes.Valid() && devs.Valid() && logs.Valid()
    ensures env.requestID == requestID && Labelled(env)
    ensures var plan := Plan(old(notes.Snap()), params, templates);
      && (plan.Err? ==>
            && env == EnvelopeFor(requestID, Err(plan.error))
            && notes.Snap() == old(notes.Snap()) && devs.Snap() == old(devs.Snap()) && logs.Snap() == old(logs.Snap()))
      && (plan.Ok? ==>
            && env.errorMessage.None? && env.response.Some?
            && var sent := env.response.value;
               sent.owner == Some(plan.value.0) && Filled(sent.id)
               && sent.id.value in notes.Snap().rows && notes.Snap().rows[sent.id.value] == Notes.Encode(Lambda, sent))
  {
    var r := SendMessage(notes, devs, logs, templates, params, freshId, o);
    env := EnvelopeFor(requestID, Lift(r));
  }

  /**
   * `handler`: routes one queued request and returns the envelope it answers with: the
   * stored message, an empty answer after removing a debtor's devices, the saved
   * notification after a send, or an error label.
   */
  method Handle(notes: Table, devs: Table, logs: Table, templates: map<string, Json>, body: Json,
                freshId: string, o: Oracle) returns (out: Option<Envelope<Notes.Notification>>)
    requires notes.Valid() && notes.keyAttr == "id"
    requires devs.Valid() && devs.keyAttr == "deviceToken"
    requires logs.Valid() && logs.keyAttr == "firebaseId"
    requires freshId != "" && Dev.QueryLimit <= |o.outcomes| && Dev.QueryLimit <= |o.logIds|
    modifies notes, devs, logs
    ensures notes.Valid() && devs.Valid() && logs.Valid()
    ensures out.None? <==> RouteOf(body).Silent?
    ensures out.Some? ==> Some(out.value.requestID) == Prop(body, "requestID") && Labelled(out.value)
    ensures (RouteOf(body).Silent? || RouteOf(body).Invalid? || RouteOf(body).GetRequest?) ==>
      notes.Snap() == old(notes.Snap()) && devs.Snap() == old(devs.Snap()) && logs.Snap() == old(logs.Snap())
    ensures RouteOf(body).Invalid? ==> out == Some(CreateServerResponse(RouteOf(body).requestID, Some(InvalidParameters.Label()), None))
    ensures RouteOf(body).GetRequest? ==>
      out == Some(EnvelopeFor(RouteOf(body).requestID, Lift(GetMessage(old(notes.Snap()), RouteOf(body).params))))
    ensures RouteOf(body).RemoveRequest? ==>
      && notes.Snap() == old(notes.Snap()) && logs.Snap() == old(logs.Snap())
      && var owner := Prop(RouteOf(body).params, "debtorNumber");
         (Present(owner) && owner.value.JStr? ==>
            && out == Some(CreateServerResponse(RouteOf(body).requestID, None, None))
            && devs.Snap() == AfterDeleteAll(old(devs.Snap()), Dev.Tokens(Dev.Owned(old(devs.Snap()), Lambda, owner.value.s))))
         && (!(Present(owner) && owner.value.JStr?) ==>
            && out == Some(CreateServerResponse(RouteOf(body).requestID, Some(InvalidParameters.Label()), None))
            && devs.Snap() == old(devs.Snap()))
    ensures RouteOf(body).SendRequest? ==>
      var plan := Plan(old(notes.Snap()), RouteOf(body).params, templates);
      && (plan.Err? ==>
            && out == Some(EnvelopeFor(RouteOf(body).requestID, Err(plan.error)))
            && notes.Snap() == old(notes.Snap()) && devs.Snap() == old(devs.Snap()) && logs.Snap() == old(logs.Snap()))
      && (plan.Ok? ==>
            && out.value.errorMessage.None? && out.value.response.Some?
            && var sent := out.value.response.value;
               sent.owner == Some(plan.value.0) && Filled(sent.id)
               && sent.id.value in notes.Snap().rows && notes.Snap().rows[sent.id.value] == Notes.Encode(Lambda, sent))
  {
    var route := RouteOf(body);
    match route
    case Silent =>
      out := None;
    case Invalid(requestID) =>
      out := Some(CreateServerResponse(requestID, Some(InvalidParameters.Label()), None));
    case GetRequest(requestID, params) =>
      var r := GetMessage(notes.Snap(), params);
      out := Some(EnvelopeFor(requestID, Lift(r)));
    case RemoveRequest(requestID, params) =>
      var env := AnswerRemove(devs, requestID, params);
      out := Some(env);
    case SendRequest(requestID, params) =>
      var env := AnswerSend(notes, devs, logs, templates, requestID, params, freshId, o);
      out := Some(env);
  }
}
