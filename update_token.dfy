/**
 * The token registration endpoint (`handlers/update_token/index.js`): registers a device
 * token for a user, replacing an old token, unless the token is already theirs.
 *
 * The endpoint reads and writes the property `userId`, while the devices codec of the
 * `lambda/` layer it imports stores the owner as `debtorNumber`. The model is written over
 * both layers: `userId` is the owner field only where `Layer.OwnerAttr()` says so.
 */
module UpdateToken {
  import opened Wrappers
  import opened Json
  import opened Dynamo
  import opened ResponseWrapper
  import Dev = Devices

  const MissingParameters := "Missing parameters"

  /** A property the store reads as a string attribute, which the SDK refuses otherwise. */
  predicate Textual(o: Option<Json>) {
    o.Some? && o.value.JStr?
  }

  /** The handler answers 400 without a body, a user, a token or a platform. */
  predicate Incomplete(body: Json) {
    || !Truthy(body)
    || !Present(Prop(body, "userId"))
    || !Present(Prop(body, "deviceToken"))
    || !Present(Prop(body, "platform"))
  }

  /** `existingItem.userId == userId`: only a layer that decodes `userId` can match. */
  predicate Registered(s: Snapshot, layer: Layer, token: string, userId: Json) {
    var existing := Dev.Get(s, layer, token);
    && layer.OwnerAttr() == "userId"
    && existing.Some? && existing.value.owner.Some?
    && LooseEqualsText(userId, existing.value.owner.value)
  }

  /** The table after the old token, when one is given, has been removed. */
  function Cleared(s: Snapshot, body: Json): Snapshot {
    var oldToken := Prop(body, "oldDeviceToken");
    if Present(oldToken) && oldToken.value.JStr? then AfterDelete(s, oldToken.value.s) else s
  }

  /** `{userId, deviceToken, platform}` as the codec of `layer` sees it. */
  function NewDevice(layer: Layer, userId: Json, token: string, platform: string): (d: Dev.Device)
    ensures d.deviceToken == Some(token) && d.platform == Some(platform) && d.createdAt.None?
    ensures layer.OwnerAttr() == "userId" && userId.JStr? ==> d.owner == Some(userId.s)
    ensures layer.OwnerAttr() != "userId" ==> d.owner.None?
  {
    Dev.Device(None, Some(token), if layer.OwnerAttr() == "userId" && userId.JStr? then Some(userId.s) else None, Some(platform))
  }

  /** The device the `lambda/` layer writes never has an owner, whatever the user. */
  lemma LambdaDropsUser(userId: Json, token: string, platform: string, now: int)
    ensures Dev.Encode(Lambda, Dev.WithCreatedAt(NewDevice(Lambda, userId, token, platform), now)).Keys
         == {"createdAt", "deviceToken", "platform"} - (if token == "" then {"deviceToken"} else {})
                                                    - (if platform == "" then {"platform"} else {})
    ensures forall s :: !Registered(s, Lambda, token, userId)
  {
  }

  /** The object a stored device is decoded to, fields in `itemToObject` order. */
  function ObjectOf(layer: Layer, d: Dev.Device): (j: Json)
    ensures j.JObj?
  {
    JObj((if d.createdAt.Some? then [("createdAt", JStr(IntToText(d.createdAt.value)))] else [])
      + (if d.deviceToken.Some? then [("deviceToken", JStr(d.deviceToken.value))] else [])
      + (if d.owner.Some? then [(layer.OwnerAttr(), JStr(d.owner.value))] else [])
      + (if d.platform.Some? then [("platform", JStr(d.platform.value))] else []))
  }

  /** The object `save` returns: the three request fields and the creation time it stamped. */
  function SavedObject(userId: Json, token: string, platform: string, now: int): Json {
    JObj([("userId", userId), ("deviceToken", JStr(token)), ("platform", JStr(platform)), ("createdAt", JStr(IntToText(now)))])
  }

  /** Whether the codec of `layer` accepts the request's fields once it reaches `save`. */
  predicate Storable(layer: Layer, body: Json) {
    Textual(Prop(body, "platform"))
    && (layer.OwnerAttr() == "userId" ==> Textual(Prop(body, "userId")))
  }

  /**
   * `handler`: 400 on a missing field; the existing entry, unchanged, when the token is
   * already the user's; otherwise the old token removed, the new one saved and returned
   * with 200. A field the store refuses throws (`Err`), after any removal already done.
   */
  method Handle(devs: Table, layer: Layer, body: Json, now: int) returns (r: Result<HttpResponse, string>)
    requires devs.Valid() && devs.keyAttr == "deviceToken"
    modifies devs
    ensures devs.Valid()
    ensures Incomplete(body) ==>
      r == Ok(CreateResponse(Some(JStr(MissingParameters)), 400)) && devs.Snap() == old(devs.Snap())
    ensures !Incomplete(body) && !Textual(Prop(body, "deviceToken")) ==> r.Err? && devs.Snap() == old(devs.Snap())
    ensures !Incomplete(body) && Textual(Prop(body, "deviceToken")) ==>
      var token := Prop(body, "deviceToken").value.s;
      var userId := Prop(body, "userId").value;
      var oldToken := Prop(body, "oldDeviceToken");
      if Registered(old(devs.Snap()), layer, token, userId) then
        && r == Ok(CreateResponse(Some(ObjectOf(layer, Dev.Get(old(devs.Snap()), layer, token).value)), 200))
        && devs.Snap() == old(devs.Snap())
      else if Present(oldToken) && !oldToken.value.JStr? then
        r.Err? && devs.Snap() == old(devs.Snap())
      else if !Storable(layer, body) then
        r.Err? && devs.Snap() == Cleared(old(devs.Snap()), body)
      else
        var platform := Prop(body, "platform").value.s;
        && r == Ok(CreateResponse(Some(SavedObject(userId, token, platform, now)), 200))
        && devs.Snap() == AfterPut(Cleared(old(devs.Snap()), body), token,
                                   Dev.Encode(layer, Dev.WithCreatedAt(NewDevice(layer, userId, token, platform), now)))
  {
    if Incomplete(body) {
      return Ok(CreateResponse(Some(JStr(MissingParameters)), 400));
    }
    var userId := Prop(body, "userId").value;
    var deviceToken := Prop(body, "deviceToken").value;
    var platform := Prop(body, "platform").value;
    if !deviceToken.JStr? {
      return Err("ValidationException: deviceToken is not a string");
    }
    var existing := Dev.Get(devs.Snap(), layer, deviceToken.s);
    if Registered(devs.Snap(), layer, deviceToken.s, userId) {
      return Ok(CreateResponse(Some(ObjectOf(layer, existing.value)), 200));
    }
    var oldToken := Prop(body, "oldDeviceToken");
    if Present(oldToken) {
      if !oldToken.value.JStr? {
        return Err("ValidationException: oldDeviceToken is not a string");
      }
      Dev.Remove(devs, oldToken.value.s);
    }
    if !Storable(layer, body) {
      return Err("ValidationException: a device attribute is not a string");
    }
    var saved := Dev.Save(devs, layer, NewDevice(layer, userId, deviceToken.s, platform.s), now);
    r := Ok(CreateResponse(Some(SavedObject(userId, deviceToken.s, platform.s, now)), 200));
  }

  /**
   * A successful registration changes only the old and the new token: the new one maps to
   * the device with the request's platform, and every other token keeps its entry.
   */
  lemma RegistrationFootprint(s: Snapshot, layer: Layer, body: Json, userId: Json, token: string, platform: string, now: int)
    requires token != "" && platform != ""
    ensures var after := AfterPut(Cleared(s, body), token,
                                  Dev.Encode(layer, Dev.WithCreatedAt(NewDevice(layer, userId, token, platform), now)));
      && Dev.Get(after, layer, token).Some?
      && Dev.Get(after, layer, token).value.deviceToken == Some(token)
      && Dev.Get(after, layer, token).value.platform == Some(platform)
      && Dev.Get(after, layer, token).value.createdAt == Some(now)
      && var oldToken := Prop(body, "oldDeviceToken");
         forall k :: k != token && (oldToken.None? || oldToken.value != JStr(k)) ==>
           (k in after.rows <==> k in s.rows) && (k in s.rows ==> after.rows[k] == s.rows[k])
  {
    Dev.RoundTrip(layer, Dev.WithCreatedAt(NewDevice(layer, userId, token, platform), now));
  }

  /**
   * With the `opt/` codec a registration settles: once a user's token is saved, the same
   * request finds it registered and writes nothing.
   */
  lemma OptRegistrationSettles(s: Snapshot, body: Json, userId: string, token: string, platform: string, now: int)
    requires token != "" && platform != "" && userId != ""
    ensures var after := AfterPut(Cleared(s, body), token,
                                  Dev.Encode(Opt, Dev.WithCreatedAt(NewDevice(Opt, JStr(userId), token, platform), now)));
      Registered(after, Opt, token, JStr(userId))
  {
    Dev.RoundTrip(Opt, Dev.WithCreatedAt(NewDevice(Opt, JStr(userId), token, platform), now));
  }
}
