/**
 * The notification manager (`opt/push_microservice_layer/notification_manager.js`): the
 * rendering of a template into a per-platform push payload (`format`), and the
 * classification of the provider's answer for one device (`sendMessage`). The template
 * catalogue is a parameter; the provider call is reduced to what it answers.
 */
module NotificationManager {
  import opened Wrappers
  import opened Json
  import opened ResponseWrapper

  /** `NotificationType`. */
  const DefaultType := "default"
  const SilentType := "silent"

  /** The click action every Android payload carries. */
  const ClickAction := "FLUTTER_NOTIFICATION_CLICK"

  /* ---------- Placeholder substitution ---------- */

  /** ASCII lower case, the case folding of a case-insensitive regular expression on plain text. */
  function Lower(c: char): char {
    if 'A' <= c <= 'Z' then ((c as int) + 32) as char else c
  }

  /** `a` and `b` are equal once their letters are folded to lower case. */
  predicate EqualIgnoringCase(a: string, b: string)
    decreases |a|
  {
    |a| == |b| && (a == [] || (Lower(a[0]) == Lower(b[0]) && EqualIgnoringCase(a[1..], b[1..])))
  }

  /** `pat` occurs at position `i` of `s`, ignoring case. */
  predicate MatchesAt(s: string, i: nat, pat: string) {
    i + |pat| <= |s| && EqualIgnoringCase(s[i..i + |pat|], pat)
  }

  /** `"{" + key + "}"`: the placeholder a template parameter fills. */
  function Placeholder(key: string): (p: string)
    ensures |p| == |key| + 2
  {
    "{" + key + "}"
  }

  /**
   * `s.replace(RegExp(pat, "gmi"), rep)` for a pattern without metacharacters: every
   * occurrence, ignoring case, from left to right and without overlaps, is replaced;
   * the inserted text is not searched again.
   */
  function ReplaceAll(s: string, pat: string, rep: string): string
    requires pat != ""
    decreases |s|
  {
    if |s| < |pat| then s
    else if MatchesAt(s, 0, pat) then rep + ReplaceAll(s[|pat|..], pat, rep)
    else [s[0]] + ReplaceAll(s[1..], pat, rep)
  }

  lemma MatchesAtTail(s: string, i: nat, pat: string)
    requires |s| > 0
    ensures MatchesAt(s[1..], i, pat) <==> MatchesAt(s, i + 1, pat)
  {
    if i + 1 + |pat| <= |s| {
      assert s[1..][i..i + |pat|] == s[i + 1..i + 1 + |pat|];
    }
  }

  /** A text in which the placeholder does not occur is left as it is. */
  lemma {:induction false} NoMatchUnchanged(s: string, pat: string, rep: string)
    requires pat != ""
    requires forall i: nat :: !MatchesAt(s, i, pat)
    ensures ReplaceAll(s, pat, rep) == s
    decreases |s|
  {
    if |s| >= |pat| {
      assert !MatchesAt(s, 0, pat);
      forall i: nat ensures !MatchesAt(s[1..], i, pat) {
        MatchesAtTail(s, i, pat);
      }
      NoMatchUnchanged(s[1..], pat, rep);
      assert s == [s[0]] + s[1..];
    }
  }

  /** Without an occurrence at the front, the first character is kept. */
  lemma SkipHead(s: string, pat: string, rep: string)
    requires pat != "" && |s| >= |pat| && !MatchesAt(s, 0, pat)
    ensures ReplaceAll(s, pat, rep) == [s[0]] + ReplaceAll(s[1..], pat, rep)
  {
  }

  /** An occurrence at the front is replaced. */
  lemma ReplaceHead(s: string, pat: string, rep: string)
    requires pat != "" && MatchesAt(s, 0, pat)
    ensures ReplaceAll(s, pat, rep) == rep + ReplaceAll(s[|pat|..], pat, rep)
  {
  }

  /** `pat` occurs at the front of the text from position `k` on exactly when it occurs at `k`. */
  lemma MatchesAtDrop(s: string, k: nat, pat: string)
    requires k <= |s|
    ensures MatchesAt(s[k..], 0, pat) <==> MatchesAt(s, k, pat)
  {
    if k + |pat| <= |s| {
      assert s[k..][0..|pat|] == s[k..k + |pat|];
    }
  }

  /** Before the first occurrence the text is copied unchanged. */
  lemma {:induction false} KeepPrefix(s: string, pat: string, rep: string, k: nat)
    requires pat != "" && k + |pat| <= |s|
    requires forall j: nat :: j < k ==> !MatchesAt(s, j, pat)
    ensures ReplaceAll(s, pat, rep) == s[..k] + ReplaceAll(s[k..], pat, rep)
  {
    if k == 0 {
      assert s[..0] + s[0..] == s;
    } else {
      KeepPrefix(s, pat, rep, k - 1);
      var u := s[k - 1..];
      MatchesAtDrop(s, k - 1, pat);
      SkipHead(u, pat, rep);
      assert u[1..] == s[k..];
      assert s[..k - 1] + [s[k - 1]] == s[..k];
    }
  }

  /** The text before the first occurrence is kept, the occurrence replaced, and the search goes on after it. */
  lemma FirstMatch(s: string, pat: string, rep: string, i: nat)
    requires pat != "" && MatchesAt(s, i, pat)
    requires forall j: nat :: j < i ==> !MatchesAt(s, j, pat)
    ensures ReplaceAll(s, pat, rep) == s[..i] + rep + ReplaceAll(s[i + |pat|..], pat, rep)
  {
    KeepPrefix(s, pat, rep, i);
    MatchesAtDrop(s, i, pat);
    ReplaceHead(s[i..], pat, rep);
    assert s[i..][|pat|..] == s[i + |pat|..];
    var rest := ReplaceAll(s[i + |pat|..], pat, rep);
    assert s[..i] + (rep + rest) == s[..i] + rep + rest;
  }

  lemma FoldedName()
    ensures MatchesAt("Hi {NAME}!", 3, "{name}")
  {
    assert "Hi {NAME}!"[3..9] == "{NAME}";
    assert EqualIgnoringCase("E}", "e}");
    assert EqualIgnoringCase("ME}", "me}");
    assert EqualIgnoringCase("AME}", "ame}");
    assert EqualIgnoringCase("NAME}", "name}");
  }

  lemma NoNameBefore()
    ensures forall j: nat :: j < 3 ==> !MatchesAt("Hi {NAME}!", j, "{name}")
  {
    var s := "Hi {NAME}!";
    forall j: nat | j < 3 ensures !MatchesAt(s, j, "{name}") {
      assert Lower(s[j..j + 6][0]) != Lower('{');
    }
  }

  /** The placeholder is matched whatever the case of its letters: `{NAME}` is filled by `name`. */
  lemma CaseInsensitiveExample()
    ensures ReplaceAll("Hi {NAME}!", Placeholder("name"), "Ann") == "Hi Ann!"
  {
    var s := "Hi {NAME}!";
    var pat := Placeholder("name");
    assert pat == "{name}";
    FoldedName();
    NoNameBefore();
    FirstMatch(s, pat, "Ann", 3);
    assert s[..3] == "Hi " && s[3 + |pat|..] == "!";
    assert ReplaceAll("!", pat, "Ann") == "!";
    assert "Hi " + "Ann" + "!" == "Hi Ann!";
  }

  /** The title after the substitution loop has filled the placeholders of `params` in order. */
  function SubstituteAll(s: string, params: seq<(string, Json)>): string {
    if params == [] then s
    else
      var last := params[|params| - 1];
      ReplaceAll(SubstituteAll(s, params[..|params| - 1]), Placeholder(last.0), ToText(last.1))
  }

  /** A title none of whose placeholders are among the parameters is left literally. */
  lemma {:induction false} UnmatchedPlaceholdersKept(s: string, params: seq<(string, Json)>)
    requires forall k: nat, i: nat :: k < |params| ==> !MatchesAt(s, i, Placeholder(params[k].0))
    ensures SubstituteAll(s, params) == s
  {
    if params != [] {
      var front := params[..|params| - 1];
      UnmatchedPlaceholdersKept(s, front);
      NoMatchUnchanged(s, Placeholder(params[|params| - 1].0), ToText(params[|params| - 1].1));
    }
  }

  /** A title string after substitution; a missing or non-string title is kept as it is. */
  function RenderTitle(t: Option<Json>, params: seq<(string, Json)>): Option<Json> {
    if t.Some? && t.value.JStr? then Some(JStr(SubstituteAll(t.value.s, params))) else t
  }

  /** `title.replace` throws when the title is truthy but not a string. */
  predicate Unrenderable(t: Option<Json>, params: seq<(string, Json)>) {
    |params| > 0 && Present(t) && !t.value.JStr?
  }

  /* ---------- The payload ---------- */

  datatype AndroidNotification = AndroidNotification(clickAction: string, notificationCount: Option<int>)

  /**
   * A push message: its `data` object, the `notification` title and body, the APNs badge
   * of an iOS message, the `android` section of any other, and the device token the
   * manager adds when sending.
   */
  datatype Payload = Payload(
    data: Json,
    title: Option<Json>,
    body: Option<Json>,
    apnsBadge: Option<int>,
    android: Option<AndroidNotification>,
    token: Option<string>)

  const TemplateMissing := Internal("TypeError: cannot read properties of the template")
  const TitleNotText := Internal("TypeError: replace is not a function")

  /** The template's key in the catalogue: `templateId` converted to a property name. */
  function TemplateKey(templateId: Json): string {
    ToText(templateId)
  }

  predicate HasTemplate(templates: map<string, Json>, templateId: Json) {
    TemplateKey(templateId) in templates && !templates[TemplateKey(templateId)].JNull?
  }

  /** The `data` a payload starts with. */
  function BaseData(template: Json, templateId: Json): (d: Json)
    ensures d.JObj?
    ensures Prop(d, "template") == Some(JStr(Stringify(template)))
    ensures Prop(d, "templateId") == Some(templateId)
    ensures Prop(d, "templateParams").None?
  {
    var fields := [("template", JStr(Stringify(template))), ("templateId", templateId)];
    assert fields[0].0 != "templateId" && fields[0].0 != "templateParams" && fields[1].0 != "templateParams";
    assert FieldIndex(fields[1..], "templateId") == Some(0);
    JObj(fields)
  }

  /** `data` after `data[k] = v` for each pair of `params` in order. */
  function MergeAll(d: Json, params: seq<(string, Json)>): Json {
    if params == [] then d
    else SetProp(MergeAll(d, params[..|params| - 1]), params[|params| - 1].0, params[|params| - 1].1)
  }

  /** The value the last pair named `k` carries. */
  function LastValue(params: seq<(string, Json)>, k: string): Option<Json> {
    if params == [] then None
    else if params[|params| - 1].0 == k then Some(params[|params| - 1].1)
    else LastValue(params[..|params| - 1], k)
  }

  /** After the copy, a key of `params` holds its last value and every other key is as it was. */
  lemma {:induction false} MergeAllProp(d: Json, params: seq<(string, Json)>, k: string)
    requires d.JObj?
    ensures MergeAll(d, params).JObj?
    ensures Prop(MergeAll(d, params), k) == if LastValue(params, k).Some? then LastValue(params, k) else Prop(d, k)
  {
    if params != [] {
      MergeAllProp(d, params[..|params| - 1], k);
    }
  }

  /** `data` before the copy of `additionalParams`: the serialised parameters are added when given. */
  function StartData(template: Json, templateId: Json, templateParams: Option<Json>): (d: Json)
    ensures d.JObj?
    ensures Prop(d, "template") == Some(JStr(Stringify(template)))
    ensures Prop(d, "templateId") == Some(templateId)
    ensures Prop(d, "templateParams") == if Present(templateParams) then Some(JStr(Stringify(templateParams.value))) else None
  {
    var base := BaseData(template, templateId);
    if Present(templateParams) then SetProp(base, "templateParams", JStr(Stringify(templateParams.value))) else base
  }

  function IfTruthy(t: Option<Json>): Option<Json> {
    if Present(t) then t else None
  }

  function BadgeOf(badge: int): Option<int> {
    if badge != 0 then Some(badge) else None
  }

  /** The four title strings of a template. */
  datatype Titles = Titles(iosTitle: Option<Json>, iosSubtitle: Option<Json>, androidTitle: Option<Json>, androidSubtitle: Option<Json>)

  function TemplateTitles(template: Json): Titles {
    Titles(Prop(template, "iOS_title"), Prop(template, "iOS_subtitle"), Prop(template, "Android_title"), Prop(template, "Android_subtitle"))
  }

  predicate AnyUnrenderable(t: Titles, params: seq<(string, Json)>) {
    Unrenderable(t.iosTitle, params) || Unrenderable(t.iosSubtitle, params)
    || Unrenderable(t.androidTitle, params) || Unrenderable(t.androidSubtitle, params)
  }

  function RenderTitles(t: Titles, params: seq<(string, Json)>): Titles {
    Titles(RenderTitle(t.iosTitle, params), RenderTitle(t.iosSubtitle, params),
           RenderTitle(t.androidTitle, params), RenderTitle(t.androidSubtitle, params))
  }

  /** `Object.keys(o)` with the values, or nothing when `o` is falsy. */
  function ParamsOf(o: Option<Json>): seq<(string, Json)> {
    if Present(o) then Entries(o.value) else []
  }

  /** What `format` returns, or the error it throws. */
  function FormatSpec(templates: map<string, Json>, platform: string, templateId: Json,
                      templateParams: Option<Json>, additionalParams: Option<Json>, badge: int): (r: Result<Payload, Failure>)
    ensures r.Err? ==> r.error == TemplateMissing || r.error == TitleNotText
  {
    if !HasTemplate(templates, templateId) then Err(TemplateMissing)
    else
      var template := templates[TemplateKey(templateId)];
      var params := ParamsOf(templateParams);
      var titles := TemplateTitles(template);
      if AnyUnrenderable(titles, params) then Err(TitleNotText)
      else
        var data := MergeAll(StartData(template, templateId, templateParams), ParamsOf(additionalParams));
        var rendered := RenderTitles(titles, params);
        if platform == "ios" then
          Ok(Payload(data, IfTruthy(rendered.iosTitle), IfTruthy(rendered.iosSubtitle), BadgeOf(badge), None, None))
        else
          Ok(Payload(data, IfTruthy(rendered.androidTitle), IfTruthy(rendered.androidSubtitle),
                     None, Some(AndroidNotification(ClickAction, BadgeOf(badge))), None))
  }

  /** The substitution loop of `format`: each key's placeholder is filled in each truthy title. */
  method Substitute(titles: Titles, keys: seq<(string, Json)>) returns (r: Result<Titles, Failure>)
    ensures r == if AnyUnrenderable(titles, keys) then Err(TitleNotText) else Ok(RenderTitles(titles, keys))
  {
    var iosTitle, iosSubtitle, androidTitle, androidSubtitle := titles.iosTitle, titles.iosSubtitle, titles.androidTitle, titles.androidSubtitle;
    var index := 0;
    while index < |keys|
      invariant 0 <= index <= |keys|
      invariant index > 0 ==> !AnyUnrenderable(titles, keys)
      invariant Titles(iosTitle, iosSubtitle, androidTitle, androidSubtitle) == RenderTitles(titles, keys[..index])
    {
      if (Present(iosTitle) && !iosTitle.value.JStr?) || (Present(iosSubtitle) && !iosSubtitle.value.JStr?)
         || (Present(androidTitle) && !androidTitle.value.JStr?) || (Present(androidSubtitle) && !androidSubtitle.value.JStr?)
      {
        return Err(TitleNotText);
      }
      assert keys[..index + 1][..index] == keys[..index];
      var pat := Placeholder(keys[index].0);
      var value := ToText(keys[index].1);
      if Present(iosTitle) { iosTitle := Some(JStr(ReplaceAll(iosTitle.value.s, pat, value))); }
      if Present(iosSubtitle) { iosSubtitle := Some(JStr(ReplaceAll(iosSubtitle.value.s, pat, value))); }
      if Present(androidTitle) { androidTitle := Some(JStr(ReplaceAll(androidTitle.value.s, pat, value))); }
      if Present(androidSubtitle) { androidSubtitle := Some(JStr(ReplaceAll(androidSubtitle.value.s, pat, value))); }
      index := index + 1;
    }
    assert keys[..index] == keys;
    r := Ok(Titles(iosTitle, iosSubtitle, androidTitle, androidSubtitle));
  }

  /** The copy loop of `format`: `data[k] = v` for each key of `additionalParams`. */
  method CopyInto(data: Json, keys: seq<(string, Json)>) returns (r: Json)
    ensures r == MergeAll(data, keys)
  {
    r := data;
    var index := 0;
    while index < |keys|
      invariant 0 <= index <= |keys|
      invariant r == MergeAll(data, keys[..index])
    {
      assert keys[..index + 1][..index] == keys[..index];
      r := SetProp(r, keys[index].0, keys[index].1);
      index := index + 1;
    }
    assert keys[..index] == keys;
  }

  /**
   * `format`: builds the payload field by field, fills the placeholders of the four
   * title strings key by key, and copies `additionalParams` into `data` last.
   */
  method Format(templates: map<string, Json>, platform: string, templateId: Json,
                templateParams: Option<Json>, additionalParams: Option<Json>, badge: int)
    returns (r: Result<Payload, Failure>)
    ensures r == FormatSpec(templates, platform, templateId, templateParams, additionalParams, badge)
  {
    var key := TemplateKey(templateId);
    if key !in templates || templates[key].JNull? {
      return Err(TemplateMissing);
    }
    var template := templates[key];
    var data := BaseData(template, templateId);
    var titles := TemplateTitles(template);
    if Present(templateParams) {
      data := SetProp(data, "templateParams", JStr(Stringify(templateParams.value)));
      var substituted := Substitute(titles, Entries(templateParams.value));
      if substituted.Err? {
        return Err(substituted.error);
      }
      titles := substituted.value;
    } else {
      assert RenderTitles(titles, []) == titles;
    }
    var payload: Payload;
    if platform == "ios" {
      payload := Payload(data, IfTruthy(titles.iosTitle), IfTruthy(titles.iosSubtitle), BadgeOf(badge), None, None);
    } else {
      payload := Payload(data, IfTruthy(titles.androidTitle), IfTruthy(titles.androidSubtitle), None,
                         Some(AndroidNotification(ClickAction, BadgeOf(badge))), None);
    }
    if Present(additionalParams) {
      var merged := CopyInto(payload.data, Entries(additionalParams.value));
      payload := payload.(data := merged);
    }
    r := Ok(payload);
  }

  /**
   * `format` fails exactly when the template is unknown (or null), or when a truthy
   * title is not a string while there are parameters to fill in.
   */
  lemma FormatFails(templates: map<string, Json>, platform: string, templateId: Json,
                    templateParams: Option<Json>, additionalParams: Option<Json>, badge: int)
    ensures !HasTemplate(templates, templateId) ==>
      FormatSpec(templates, platform, templateId, templateParams, additionalParams, badge) == Err(TemplateMissing)
    ensures HasTemplate(templates, templateId) ==>
      (FormatSpec(templates, platform, templateId, templateParams, additionalParams, badge).Err? <==>
       AnyUnrenderable(TemplateTitles(templates[TemplateKey(templateId)]), ParamsOf(templateParams)))
  {
  }

  /**
   * `data` carries the template id, the serialised template and, when given, the
   * serialised parameters, unless a key of `additionalParams` of the same name overrides
   * it; every key of `additionalParams` carries its value.
   */
  lemma FormatData(templates: map<string, Json>, platform: string, templateId: Json,
                   templateParams: Option<Json>, additionalParams: Option<Json>, badge: int, k: string)
    requires FormatSpec(templates, platform, templateId, templateParams, additionalParams, badge).Ok?
    ensures var data := FormatSpec(templates, platform, templateId, templateParams, additionalParams, badge).value.data;
      var extra := LastValue(ParamsOf(additionalParams), k);
      && data.JObj?
      && (extra.Some? ==> Prop(data, k) == extra)
      && (extra.None? && k == "templateId" ==> Prop(data, k) == Some(templateId))
      && (extra.None? && k == "template" ==> Prop(data, k) == Some(JStr(Stringify(templates[TemplateKey(templateId)]))))
      && (extra.None? && k == "templateParams" ==>
            Prop(data, k) == if Present(templateParams) then Some(JStr(Stringify(templateParams.value))) else None)
  {
    var data0 := StartData(templates[TemplateKey(templateId)], templateId, templateParams);
    assert FormatSpec(templates, platform, templateId, templateParams, additionalParams, badge).value.data
        == MergeAll(data0, ParamsOf(additionalParams));
    MergeAllProp(data0, ParamsOf(additionalParams), k);
  }

  /**
   * An iOS payload takes the iOS strings and a badge only when the badge is non-zero;
   * any other platform takes the Android strings and the Android section with the click
   * action, and a notification count only when the badge is non-zero.
   */
  lemma FormatPlatform(templates: map<string, Json>, platform: string, templateId: Json,
                       templateParams: Option<Json>, additionalParams: Option<Json>, badge: int)
    requires FormatSpec(templates, platform, templateId, templateParams, additionalParams, badge).Ok?
    ensures var p := FormatSpec(templates, platform, templateId, templateParams, additionalParams, badge).value;
      var rendered := RenderTitles(TemplateTitles(templates[TemplateKey(templateId)]), ParamsOf(templateParams));
      && p.token.None?
      && (platform == "ios" ==>
            && p.title == IfTruthy(rendered.iosTitle) && p.body == IfTruthy(rendered.iosSubtitle)
            && (p.apnsBadge.Some? <==> badge != 0) && (p.apnsBadge.Some? ==> p.apnsBadge.value == badge)
            && p.android.None?)
      && (platform != "ios" ==>
            && p.title == IfTruthy(rendered.androidTitle) && p.body == IfTruthy(rendered.androidSubtitle)
            && p.apnsBadge.None? && p.android.Some? && p.android.value.clickAction == ClickAction
            && (p.android.value.notificationCount.Some? <==> badge != 0)
            && (p.android.value.notificationCount.Some? ==> p.android.value.notificationCount.value == badge))
  {
  }

  /* ---------- The provider's answer ---------- */

  /** What the provider call does: resolve with a message name, or throw. */
  datatype ProviderReply = Accepted(response: Json) | Rejected(error: Json)

  /** The result `sendMessage` returns; `token` is a replacement token the provider may report. */
  datatype SendResult = SendResult(validToken: bool, details: Option<Json>, firebaseId: Option<string>, token: Option<string>)

  const RemoveTokenCodes := ["messaging/invalid-recipient", "messaging/registration-token-not-registered",
                             "messaging/invalid-registration-token", "messaging/invalid-argument"]
  const RetryCodes := ["messaging/message-rate-exceeded", "messaging/device-message-rate-exceeded"]

  predicate EqualsOneOf(j: Json, codes: seq<string>) {
    exists i :: 0 <= i < |codes| && LooseEqualsText(j, codes[i])
  }

  /** The last `/`-separated segment of `s`: the message id in `projects/{p}/messages/{id}`. */
  function LastSegment(s: string): (r: string)
    ensures '/' !in r
    ensures |r| <= |s| && r == s[|s| - |r|..]
    ensures |r| < |s| ==> s[|s| - |r| - 1] == '/'
  {
    if s == [] then ""
    else if s[|s| - 1] == '/' then ""
    else LastSegment(s[..|s| - 1]) + [s[|s| - 1]]
  }

  lemma MessageNameExample()
    ensures LastSegment("projects/p-1/messages/m-1") == "m-1"
  {
    var s := "projects/p-1/messages/m-1";
    assert s[..|s| - 1][..|s| - 2] == s[..|s| - 2];
    assert s[..|s| - 2][..|s| - 3] == s[..|s| - 3];
    assert LastSegment(s[..|s| - 3]) == "";
    assert LastSegment(s[..|s| - 2]) == "m";
    assert LastSegment(s[..|s| - 1]) == "m-";
  }

  /** The `catch` of `sendMessage`: how a thrown error is classified. */
  function Caught(error: Json): (r: Result<SendResult, Failure>)
    ensures r.Ok? ==> r.value.token.None? && r.value.firebaseId.None?
  {
    if error.JNull? then Err(Internal("TypeError: cannot read properties of null (reading 'errorInfo')"))
    else
      var errorInfo := Prop(error, "errorInfo");
      if !Present(errorInfo) then
        Ok(SendResult(true, if Present(Prop(error, "code")) then Prop(error, "code") else Prop(error, "message"), None, None))
      else
        var errorCode := Prop(errorInfo.value, "code");
        if !Present(errorCode) then Ok(SendResult(true, errorInfo, None, None))
        else if EqualsOneOf(errorCode.value, RemoveTokenCodes) then Ok(SendResult(false, Prop(error, "code"), None, None))
        else if EqualsOneOf(errorCode.value, RetryCodes) then Ok(SendResult(true, Prop(error, "code"), None, None))
        else Ok(SendResult(false, errorCode, None, None))
  }

  /** The error `response.split` throws inside the `try` when the response is not a string. */
  const SplitError := JObj([("message", JStr("response.split is not a function"))])

  /**
   * The classification in `sendMessage`: a falsy response means an invalid token, a
   * message name gives the message id, and a thrown error goes through `Caught`. No
   * result carries a replacement token.
   */
  function Classify(reply: ProviderReply): (r: Result<SendResult, Failure>)
    ensures r.Ok? ==> r.value.token.None?
    ensures reply.Accepted? ==> r.Ok?
  {
    match reply
    case Accepted(response) =>
      if !Truthy(response) then Ok(SendResult(false, None, None, None))
      else if response.JStr? then Ok(SendResult(true, None, Some(LastSegment(response.s)), None))
      else Caught(SplitError)
    case Rejected(error) => Caught(error)
  }

  /** `message = Object.assign({}, pushMessage); message.token = token`: a copy that differs only in its token. */
  function Addressed(pushMessage: Payload, token: string): (m: Payload)
    ensures m.token == Some(token)
    ensures m.(token := pushMessage.token) == pushMessage
  {
    pushMessage.(token := Some(token))
  }

  /** A message name makes the token valid and yields its last segment; an empty answer does not. */
  lemma AcceptedClassification(response: Json)
    ensures !Truthy(response) ==> Classify(Accepted(response)) == Ok(SendResult(false, None, None, None))
    ensures response.JStr? && response.s != "" ==>
      Classify(Accepted(response)) == Ok(SendResult(true, None, Some(LastSegment(response.s)), None))
  {
  }

  /**
   * A provider error code decides the token: the four recipient codes and any code not
   * recognised invalidate it, the two rate-limit codes do not.
   */
  lemma CodeClassification(error: Json, code: string)
    requires Present(Prop(error, "errorInfo"))
    requires Prop(Prop(error, "errorInfo").value, "code") == Some(JStr(code)) && code != ""
    ensures Classify(Rejected(error)).Ok?
    ensures Classify(Rejected(error)).value.validToken <==> code in RetryCodes
    ensures code in RemoveTokenCodes + RetryCodes ==> Classify(Rejected(error)).value.details == Prop(error, "code")
    ensures code !in RemoveTokenCodes + RetryCodes ==> Classify(Rejected(error)).value.details == Some(JStr(code))
  {
    assert code in RemoveTokenCodes <==> EqualsOneOf(JStr(code), RemoveTokenCodes);
    assert code in RetryCodes <==> EqualsOneOf(JStr(code), RetryCodes);
  }

  /** An error without `errorInfo`, or whose `errorInfo` has no code, keeps the token. */
  lemma UncodedErrorsKeepToken(error: Json)
    requires !error.JNull?
    requires !Present(Prop(error, "errorInfo")) || !Present(Prop(Prop(error, "errorInfo").value, "code"))
    ensures Classify(Rejected(error)).Ok? && Classify(Rejected(error)).value.validToken
  {
  }

  /** Only a null (or undefined) error escapes the classification. */
  lemma ClassifyFails(reply: ProviderReply)
    ensures Classify(reply).Err? <==> reply.Rejected? && reply.error.JNull?
  {
  }
}
