# Agnostic push notification microservice — dispatch engine model

This project models the notification dispatch engine of the agnostic push notification
microservice, with the record and store logic under it.

- **Request handler.** An inbound queued request carries a `requestID`, a `requestType`
  (`get_message`, `remove_debtor` or `send_message`) and `requestParams`. It is answered
  with exactly one envelope keyed by its `requestID`. A request without a body or a
  `requestID` is not answered.
- **Sending a message.** A send is validated first. Then the owner's unread
  notifications are counted for the badge, and the iOS and Android payloads are
  rendered from a template. The notification record is stored.
- **Delivery.** A `default` notification is then sent to each of the owner's devices.
  Each device's result is classified:
  - a rejected token is removed;
  - a replacement token moves the device;
  - every device reached gets one log entry;
  - the record's `systemStatus` becomes `delivered`, or becomes `error` when the loop is
    ended by an exception.
- **Repositories.** There are three, each with a codec between a record and a DynamoDB
  item, `save` with its defaults and `remove`:
  - notifications, keyed on `id`: also `get`, the owner query for a `createdAt` window
    and the owner's unread count;
  - devices, keyed on `deviceToken`: also `get`, the owner query and the cascade removal
    of an owner's devices;
  - the notification log, keyed on `firebaseId`, with no owner attribute.

  Notifications and devices each have a `lambda/` copy, which stores the owner as
  `debtorNumber`, and an `opt/` copy, which stores it as `userId`. The copies are one
  model with a `Layer` parameter.
- **Response builders.** The HTTP response, the two error labels, `ResponseError` and
  the server envelope.
- **Client endpoints.** Token registration (`update_token`) and mark-as-read
  (`mark_as_read`).

The handler imports a `lambda/` notification manager whose text is not part of this
model. The `opt/` notification manager stands in for it.

The model is imperative where the source is:
- A store table is a class whose `rows` map and enumeration `order` are updated by
  `putItem`, `deleteItem` and `batchWriteItem`.
- The handler, `sendMessage` and its per-device loop, the two endpoints and the
  repository operations that loop or write are methods. Each is proved against a
  specification function, and the properties are proved about those functions.
- The fan-out loop is specified by `Run`, a fold of `Step` over the devices.
- The codecs, `format`'s specification and the classification of the provider's answer
  are functions.

Nondeterminism and foreign code are parameters:
- the uuid and the clock (`freshId`, `now`, and one fresh log id per device);
- the provider's per-device result, as a sequence of outcomes;
- the template catalogue, as a map.

The `update_token` endpoint reads and writes a `userId` property. The `lambda/` devices
codec it imports stores the owner only under `debtorNumber`. So with that codec:
- the "already registered to this user" branch can never be taken;
- the saved device has no owner at all (`UpdateToken.LambdaDropsUser`).

The endpoint is modelled over both codecs. This drift is recorded as it is, not fixed.

The token rotation branch of the fan-out is modelled through an optional replacement
token in the provider's result. The classification of the shown manager never returns
one (`NotificationManager.Classify` ensures `token.None?`), so with it a send only
removes devices (`ServerRequest.ClassifiedDevicesShrink`).

## Model

| member | source | states |
|---|---|---|
| Notifications.StatusTexts | lambda/push_microservice_layer/models/push_notifications.js:59-62 | the reading statuses are exactly `new` and `read`, and each text names one status |
| Notifications.SystemStatusTexts | lambda/push_microservice_layer/models/push_notifications.js:63-67 | the system statuses are exactly `new`, `error` and `delivered`, each named once |
| Notifications.Encode | lambda/push_microservice_layer/models/push_notifications.js:18-32 | `objectToItem`: each truthy field under its attribute name, the two documents serialised; no contract of its own, its meaning is `Notifications.RoundTrip` and the owner-attribute lemmas |
| Notifications.Decode | lambda/push_microservice_layer/models/push_notifications.js:34-48 | `itemToObject`: every attribute present, with an error when a document is not JSON text; no contract of its own, its meaning is `Notifications.RoundTrip` |
| Notifications.RoundTrip | lambda/push_microservice_layer/models/push_notifications.js:18-48 | decoding an encoded record gives it back exactly, less its falsy fields (the payload and texts documents included) |
| Notifications.LambdaOwnerAttribute | lambda/push_microservice_layer/models/push_notifications.js:23 | the `lambda/` codec stores the owner under `debtorNumber` exactly when it is truthy, and never under `userId` |
| Notifications.OptOwnerAttribute | opt/push_microservice_layer/models/push_notifications.js:23 | the `opt/` codec stores the owner under `userId` exactly when it is truthy, and never under `debtorNumber` |
| Notifications.WithDefaults | lambda/push_microservice_layer/models/push_notifications.js:70-74 | `id`, `createdAt`, `status` and `systemStatus` are always set afterwards; a truthy value of the record is never overwritten; all other fields are unchanged |
| Notifications.DefaultsIdempotent | lambda/push_microservice_layer/models/push_notifications.js:70-74 | filling the defaults of a record that has them changes nothing |
| Notifications.Save | lambda/push_microservice_layer/models/push_notifications.js:70-82 | returns the record with its defaults, and the table afterwards holds exactly that record's encoding under its id |
| Notifications.Get | lambda/push_microservice_layer/models/push_notifications.js:85-96 | no record for an absent id; otherwise the decoded stored item, or the parse failure |
| Notifications.EffectiveLimit | lambda/push_microservice_layer/models/push_notifications.js:99 | a zero limit becomes 100 and any other limit is kept |
| Notifications.DecodeItems | lambda/push_microservice_layer/models/push_notifications.js:132-136 | the decode loop gives every item of the page decoded, in order, or the first item's parse failure |
| Notifications.FindByOwner | lambda/push_microservice_layer/models/push_notifications.js:98-145 | the items are the decoded page of the owner's records in the createdAt window, or the first parse failure; `lastKey` is present exactly when the page is full, and is the key of its last item |
| Notifications.SortNewestFirstSorted | lambda/push_microservice_layer/models/push_notifications.js:110 | the descending query order leaves items newest first |
| Notifications.QueryResults | lambda/push_microservice_layer/models/push_notifications.js:100-127 | a page holds at most the limit, only the owner's records, only records with `minCreatedAt <= createdAt < maxCreatedAt`, and comes newest first |
| Notifications.CountUnread | lambda/push_microservice_layer/models/push_notifications.js:147-170 | the count is the query's match count capped at the limit of 100; what it counts is stated by `Notifications.UnreadCount` |
| Notifications.UnreadCount | lambda/push_microservice_layer/models/push_notifications.js:147-170 | the count is the number of the owner's stored records with status `new`, capped at 100 |
| Notifications.NoBadgeIff | lambda/push_microservice_layer/models/push_notifications.js:147-170 | the count is zero exactly when the owner has no stored record with status `new` |
| Notifications.Remove | lambda/push_microservice_layer/models/push_notifications.js:173-183 | the table afterwards is the old one less exactly the record with that id |
| Devices.Encode | lambda/push_microservice_layer/models/push_devices.js:15-22 | `objectToItem`: each truthy field under its attribute name; no contract of its own, its meaning is `Devices.RoundTrip` and `Devices.OwnerAttribute` |
| Devices.Decode | lambda/push_microservice_layer/models/push_devices.js:24-31 | `itemToObject`: every attribute present; no contract of its own, its meaning is `Devices.RoundTrip` |
| Devices.RoundTrip | lambda/push_microservice_layer/models/push_devices.js:15-31 | decoding an encoded device gives back its `createdAt`, token, owner and platform, less falsy fields |
| Devices.OwnerAttribute | opt/push_microservice_layer/models/push_devices.js:23-39 | the owner is stored under `debtorNumber` in `lambda/` and under `userId` in `opt/`, exactly when truthy, and never under the other name |
| Devices.WithCreatedAt | lambda/push_microservice_layer/models/push_devices.js:40 | `createdAt` is stamped only when absent; the other fields are unchanged |
| Devices.Save | lambda/push_microservice_layer/models/push_devices.js:39-48 | a device with a token is stored under that token, replacing any entry there, and returned with its creation time; a device without one is refused with no change |
| Devices.Get | lambda/push_microservice_layer/models/push_devices.js:50-61 | a device exactly when the token is stored, and then the decoded entry |
| Devices.GetCarriesToken | lambda/push_microservice_layer/models/push_devices.js:50-61 | a stored device comes back with its own token |
| Devices.Remove | lambda/push_microservice_layer/models/push_devices.js:63-73 | the table afterwards is the old one less exactly that token |
| Devices.Owned | lambda/push_microservice_layer/models/push_devices.js:95-117 | an owner query returns at most 100 devices |
| Devices.FindByOwner | lambda/push_microservice_layer/models/push_devices.js:95-126 | the items are the decoded owner's devices of the first page, and `lastKey` is present exactly when the page is full |
| Devices.OwnedDevices | lambda/push_microservice_layer/models/push_devices.js:95-117 | every device found has that owner and is the decoded entry stored under its own token |
| Devices.FoundAreOwned | lambda/push_microservice_layer/models/push_devices.js:95-117 | every token an owner query returns is stored, with a device of that owner |
| Devices.FoundAll | lambda/push_microservice_layer/models/push_devices.js:95-117 | when the owner has at most 100 devices, the query returns the token of every one of them |
| Devices.DeleteRequests | lambda/push_microservice_layer/models/push_devices.js:82-90 | the request loop builds one delete request per device found, for its token, in order |
| Devices.RemoveByOwner | lambda/push_microservice_layer/models/push_devices.js:76-92 | deletes exactly the tokens of the devices found; it writes exactly when there are some |
| Devices.RemoveByOwnerEffect | lambda/push_microservice_layer/models/push_devices.js:76-92 | the removal leaves every other device as it was and, when the owner has at most 100 devices, none of theirs |
| NotificationsLog.StatusTexts | lambda/push_microservice_layer/models/push_notifications_log.js:19-24 | the log statuses are exactly `new`, `tokenUpdate`, `delivered` and `error`, each named once |
| NotificationsLog.Encode | lambda/push_microservice_layer/models/push_notifications_log.js:25-35 | `objectToItem`: each truthy field under its attribute name; no contract of its own, its meaning is `NotificationsLog.EncodeKeepsTruthy` and `NotificationsLog.RoundTrip` |
| NotificationsLog.EncodeKeepsTruthy | lambda/push_microservice_layer/models/push_notifications_log.js:25-35 | the encoder stores each of the six fields exactly when it is truthy, and nothing else |
| NotificationsLog.AsWrittenRoundTrip | lambda/push_microservice_layer/models/push_notifications_log.js:37-46 | the decoder as written loses the notification id and the details, and puts the details in place of the status |
| NotificationsLog.AsWrittenLosesEntry | lambda/push_microservice_layer/models/push_notifications_log.js:44 | a delivered entry with details decodes with its details as status under the decoder as written |
| NotificationsLog.RoundTrip | lambda/push_microservice_layer/models/push_notifications_log.js:25-46 | the intended decoder inverts the encoder up to falsy fields |
| NotificationsLog.WithDefaults | lambda/push_microservice_layer/models/push_notifications_log.js:50-51 | a missing `firebaseId` becomes `System-` and a fresh id, and a present one is kept; `createdAt` is stamped only when absent; the other fields are unchanged |
| NotificationsLog.DefaultsIdempotent | lambda/push_microservice_layer/models/push_notifications_log.js:50-51 | filling the defaults twice is filling them once |
| NotificationsLog.Save | lambda/push_microservice_layer/models/push_notifications_log.js:49-59 | returns the entry with its defaults and stores exactly its encoding under its `firebaseId` |
| NotificationsLog.Remove | lambda/push_microservice_layer/models/push_notifications_log.js:74-84 | the table afterwards is the old one less exactly that `firebaseId` |
| ResponseWrapper.Labels | lambda/push_microservice_layer/response_wrapper.js:20-23 | the error labels are exactly `not_found` and `invalid_parameters`, each naming one error |
| ResponseWrapper.Raise | lambda/push_microservice_layer/response_wrapper.js:25-30 | a raised label error is named `ResponseError` and carries its label |
| ResponseWrapper.ResponseErrorKeepsMessage | lambda/push_microservice_layer/response_wrapper.js:25-30 | a `ResponseError` keeps its message and its name; no other failure has that name |
| ResponseWrapper.CreateResponse | lambda/push_microservice_layer/response_wrapper.js:4-18 | the status code and the two fixed headers; a body exactly when it is truthy, serialised when it is an object or an array, passed through otherwise |
| ResponseWrapper.ResponseBodyIsText | opt/push_microservice_layer/response_wrapper.js:10-15 | a truthy object or string body always leaves the response with a text body |
| ResponseWrapper.CreateServerResponse | lambda/push_microservice_layer/response_wrapper.js:34-45 | the envelope always carries the request id; it carries the error message exactly when it is non-empty, and the data as given |
| NotificationManager.ReplaceAll | opt/push_microservice_layer/notification_manager.js:104-108 | `replace(new RegExp(key, "gi"), value)` on plain-text keys: no contract of its own, its meaning is `NotificationManager.NoMatchUnchanged`, `NotificationManager.KeepPrefix` and `NotificationManager.FirstMatch` |
| NotificationManager.NoMatchUnchanged | opt/push_microservice_layer/notification_manager.js:104-108 | a string with no case-insensitive occurrence of the placeholder is left as it is |
| NotificationManager.FirstMatch | opt/push_microservice_layer/notification_manager.js:104-108 | the replacement keeps the text before the first occurrence, inserts the value there and continues after the occurrence |
| NotificationManager.KeepPrefix | opt/push_microservice_layer/notification_manager.js:104-108 | the text before the first case-insensitive occurrence of the placeholder is kept as it is |
| NotificationManager.CaseInsensitiveExample | opt/push_microservice_layer/notification_manager.js:104 | an illustration, covered in general by `NotificationManager.FirstMatch`: `{Name}` in a title is filled by a parameter named `name` |
| NotificationManager.UnmatchedPlaceholdersKept | opt/push_microservice_layer/notification_manager.js:101-109 | a title whose placeholders match no parameter key is left literally |
| NotificationManager.MergeAllProp | opt/push_microservice_layer/notification_manager.js:141-149 | after copying `additionalParams`, a copied key holds its last value and every other key is unchanged |
| NotificationManager.FormatSpec | opt/push_microservice_layer/notification_manager.js:79-152 | `format` fails only with an unknown template or a non-text title |
| NotificationManager.Substitute | opt/push_microservice_layer/notification_manager.js:97-110 | the substitution loop fills each key's placeholder in each truthy title, or fails on a truthy title that is not text |
| NotificationManager.CopyInto | opt/push_microservice_layer/notification_manager.js:141-149 | the copy loop assigns every key of `additionalParams` into `data`, in order |
| NotificationManager.Format | opt/push_microservice_layer/notification_manager.js:79-152 | the imperative `format` computes exactly the specified payload or failure |
| NotificationManager.FormatFails | opt/push_microservice_layer/notification_manager.js:92-108 | an unknown (or null) template always fails; otherwise it fails exactly when a truthy title is not text while there are parameters |
| NotificationManager.FormatData | opt/push_microservice_layer/notification_manager.js:81-149 | `data` holds the template id, the serialised template and, exactly when given, the serialised parameters, unless an `additionalParams` key of that name overrides it; every additional key holds its value |
| NotificationManager.FormatPlatform | opt/push_microservice_layer/notification_manager.js:111-139 | iOS takes the iOS strings, with a badge exactly when it is non-zero and no Android section; any other platform takes the Android strings and the click action, with a notification count exactly when the badge is non-zero |
| NotificationManager.LastSegment | opt/push_microservice_layer/notification_manager.js:51-52 | the result is the suffix of the name after its last `/`, or the whole name when it has none |
| NotificationManager.MessageNameExample | opt/push_microservice_layer/notification_manager.js:50-52 | an illustration, covered in general by `NotificationManager.LastSegment`: `projects/p-1/messages/m-1` gives the id `m-1` |
| NotificationManager.Caught | opt/push_microservice_layer/notification_manager.js:55-76 | the error branch never yields a firebase id or a replacement token |
| NotificationManager.Classify | opt/push_microservice_layer/notification_manager.js:45-76 | no result carries a replacement token, and an accepted answer is never a failure |
| NotificationManager.Addressed | opt/push_microservice_layer/notification_manager.js:45-46 | the message sent carries the device token, and is otherwise the caller's message unchanged |
| NotificationManager.AcceptedClassification | opt/push_microservice_layer/notification_manager.js:48-53 | an empty answer invalidates the token; a message name keeps it, with the name's last segment as firebase id |
| NotificationManager.CodeClassification | opt/push_microservice_layer/notification_manager.js:60-75 | with a provider code, the token is kept exactly for the two rate codes; the four removal codes and any unknown code invalidate it, and the details are the codes as written |
| NotificationManager.UncodedErrorsKeepToken | opt/push_microservice_layer/notification_manager.js:57-61 | an error without `errorInfo`, or without a code in it, keeps the token, with the code or message, or the `errorInfo`, as details |
| NotificationManager.ClassifyFails | opt/push_microservice_layer/notification_manager.js:55-57 | the classification itself fails exactly when the provider throws `null` |
| ServerRequest.OwnerOf | handlers/server_request/index.js:36-45 | a missing `debtorNumber` or `templateID` is rejected with `invalid_parameters`; an accepted owner is the request's non-empty text owner |
| ServerRequest.WithType | handlers/server_request/index.js:47 | the request always has a truthy type afterwards: its own when given, `default` otherwise; no other property changes |
| ServerRequest.TextsOf | handlers/server_request/index.js:59-68 | the stored title is the payload's title, and the body falls back to `data.body` when the rendered body is falsy |
| ServerRequest.Prepare | handlers/server_request/index.js:47-69 | the record has the owner, the typed request as payload and a type, and none of the fields `save` fills |
| ServerRequest.DefaultKind | handlers/server_request/index.js:47-71 | a request without a type is stored as `default` and is sent to the devices |
| ServerRequest.Step | handlers/server_request/index.js:81-120 | one iteration of the loop body; no contract of its own, its meaning is `ServerRequest.StepFacts`, `ServerRequest.StepCounts`, `ServerRequest.StepLogs` and `ServerRequest.StepRotation` |
| ServerRequest.Run | handlers/server_request/index.js:76-129 | the state after the first devices, a fold of `Step`; no contract of its own, its meaning is the `Run…` lemmas that follow |
| ServerRequest.RunHalted | handlers/server_request/index.js:76-129 | once an exception has ended the loop, later devices change nothing |
| ServerRequest.Visit | handlers/server_request/index.js:78-121 | one pass of the loop body performs exactly the specified step on the two tables |
| ServerRequest.FanOut | handlers/server_request/index.js:76-129 | the loop's outcome and the device and log tables afterwards are those of the specified fold over the devices |
| ServerRequest.StepFacts | handlers/server_request/index.js:81-120 | one iteration sends one message, adds at most one log entry (none exactly when it stops) and only sets the delivered flag |
| ServerRequest.StepCounts | handlers/server_request/index.js:78-120 | after an exception an iteration changes nothing; otherwise it sends to its device and adds a log entry unless it is the one that stops |
| ServerRequest.StepLogs | handlers/server_request/index.js:82-120 | an iteration that does not stop appends one entry naming the notification and the device token, with status `error` for a rejected token and `delivered` otherwise, and keeps the earlier entries |
| ServerRequest.RunSent | handlers/server_request/index.js:78-81 | the devices reached are the first ones in order, each sent its platform's message addressed to its token; without an exception all are reached |
| ServerRequest.RunReached | handlers/server_request/index.js:78-81 | the loop reaches at most the devices visited, and all of them unless an exception ended it |
| ServerRequest.RunLogCount | handlers/server_request/index.js:82-120 | each device reached has one log entry, except the one whose exception ended the loop |
| ServerRequest.RunLogMatch | handlers/server_request/index.js:82-120 | the log entries match the devices reached, in order |
| ServerRequest.StepEntries | handlers/server_request/index.js:82-120 | an iteration keeps the log entries matched to the devices |
| ServerRequest.RunLog | handlers/server_request/index.js:78-120 | without an exception there is exactly one log entry per device; each names the stored notification and the device's original token, with status `error` for a rejected token and `delivered` otherwise |
| ServerRequest.RunDelivered | handlers/server_request/index.js:101-113 | the notification is delivered exactly when some device reached kept its token, and is never reset |
| ServerRequest.AnyKeptIff | handlers/server_request/index.js:101-113 | `AnyKept` holds exactly when one of the first answers kept its token |
| ServerRequest.RunDevices | handlers/server_request/index.js:87-106 | without replacement tokens the device table only loses entries, and loses exactly the tokens of the devices reached that were rejected (as `Dropped`, characterised by `ServerRequest.DroppedIff`) |
| ServerRequest.DroppedIff | handlers/server_request/index.js:87-91 | a token is dropped exactly when one of the devices considered has it and its answer rejected it |
| ServerRequest.ClassifiedDevicesShrink | handlers/server_request/index.js:87-106 | with the manager's classification, a send never adds or changes a device entry |
| ServerRequest.StepRotation | handlers/server_request/index.js:93-105 | a replacement token moves the same device record to the new token and drops the old one; the notification counts as delivered |
| ServerRequest.Plan | handlers/server_request/index.js:34-69 | the only label error before any write is `invalid_parameters`; an accepted plan has the request's owner |
| ServerRequest.Finish | handlers/server_request/index.js:101-129 | an exception marks the record `error` with the fixed details; otherwise a delivery marks it `delivered`; otherwise it is unchanged |
| ServerRequest.FinishKeepsDefaults | handlers/server_request/index.js:133 | the second save writes the final record as it is |
| ServerRequest.Deliver | handlers/server_request/index.js:73-133 | the devices and the log are those of the fan-out over the owner's devices, and the record is saved again in its final state |
| ServerRequest.SendMessage | handlers/server_request/index.js:34-135 | a rejected request writes nothing; a silent notification is saved once, and no device or log changes; a default one is saved, fanned out over the owner's devices and saved again in its final state |
| ServerRequest.GetMessage | handlers/server_request/index.js:8-23 | a missing id is `invalid_parameters`, an unknown one is `not_found`, a found one is the stored record decoded |
| ServerRequest.StoredMessageFound | handlers/server_request/index.js:14-18 | a message saved under its id is found again by that id |
| ServerRequest.RemoveDebtor | handlers/server_request/index.js:25-32 | a missing owner is `invalid_parameters` with no change; otherwise exactly the owner's devices found are deleted |
| ServerRequest.RouteOf | handlers/server_request/index.js:143-197 | no answer exactly without a truthy body and `requestID`; the three request types route by loose equality only when the parameters are there; every other request is invalid |
| ServerRequest.EnvelopeFor | handlers/server_request/index.js:170-210 | a result becomes the envelope's response; a `ResponseError` becomes its message; any other failure becomes `invalid_parameters` |
| ServerRequest.AnswerRemove | handlers/server_request/index.js:177-183 | after removing a text owner's devices the answer is the empty envelope; a missing or non-text owner answers `invalid_parameters` with the device table unchanged |
| ServerRequest.AnswerSend | handlers/server_request/index.js:184-190 | a rejected send answers with its label and writes nothing; an accepted one answers with the owner's record as it is stored |
| ServerRequest.Handle | handlers/server_request/index.js:138-212 | exactly one envelope with the request's id past the `requestID` check and none before it; every error is a label with no response; invalid and read requests change nothing; a removal answers empty after deleting the owner's devices, or `invalid_parameters` with no change; a send answers with the stored record |
| UpdateToken.NewDevice | handlers/update_token/index.js:39 | the saved device has the request's token and platform, and has the user as owner only under a codec that stores `userId` |
| UpdateToken.ObjectOf | handlers/update_token/index.js:27-29 | the existing entry returned as an object: always an object, with its fields in `itemToObject` order |
| UpdateToken.SavedObject | handlers/update_token/index.js:39-41 | the object `save` returns: `userId`, `deviceToken`, `platform` and the stamped `createdAt`, in that order; no contract of its own, it is used in `UpdateToken.Handle`'s contract |
| UpdateToken.LambdaDropsUser | handlers/update_token/index.js:27-39 | with the `lambda/` codec the stored device has no owner attribute, and no token ever counts as already registered |
| UpdateToken.Handle | handlers/update_token/index.js:4-42 | 400 with no change on a missing field; the existing entry, with no write, when the token is already the user's; otherwise the old token removed and the new one saved and returned with 200 |
| UpdateToken.RegistrationFootprint | handlers/update_token/index.js:26-41 | afterwards the token maps to the new device with the request's platform; no entry but the old and the new token changes |
| UpdateToken.OptRegistrationSettles | handlers/update_token/index.js:26-29 | with the `opt/` codec, once saved, the same request finds the token registered and writes nothing |
| MarkAsRead.ObjectOf | handlers/mark_as_read/index.js:24 | the record returned as an object, carrying its `id` exactly when the record has one |
| MarkAsRead.Marked | handlers/mark_as_read/index.js:21-22 | the saved record has status `read`, and every field other than the unset defaults is preserved |
| MarkAsRead.Handle | handlers/mark_as_read/index.js:4-26 | 400 without a body or id and 404 for an unknown id, with no write; otherwise the record with status `read` is saved under its own id and returned with 200 |
| MarkAsRead.MarkTwice | handlers/mark_as_read/index.js:21-22 | marking read twice writes the same record the second time, leaving the table as the first call left it |
| MarkAsRead.MarkedOnlyTheRecord | handlers/mark_as_read/index.js:21-22 | afterwards the record reads back with status `read`, and every other stored record is as it was |

## Left out

- The DynamoDB client is a map-backed table.
  - `ExclusiveStartKey` pagination and the text of key condition expressions are left out: a query returns its first page.
  - `batchWriteItem` is applied whole. Its 25-request limit and `UnprocessedItems` are not modelled.
- `JSON.parse` of the event bodies of `UpdateToken.Handle` and `MarkAsRead.Handle`.
  - The handlers take the parsed body.
  - A body that does not parse is not modelled.
  - Duplicate JSON keys are not modelled.
- Sending the envelope to the response queue (`sendServerResponse`, SQS) is I/O. `ServerRequest.Handle` returns the envelope instead.
- The Firebase call and `initialiseAdmin`, which is credential setup, are foreign calls. The provider is the sequence of per-device outcomes.
  - A send reaches at most 100 devices, so the sequence is required to cover 100.
- The uuid generator and the clock are parameters. `createdAt` is an integer: the source's float seconds, rendered as text, are not modelled.
- Floating-point numbers are not modelled. JSON numbers are integers.
- Loose equality is modelled only against the non-numeric literals the engine compares with. A `userId` such as `"0123"`, compared with the number `123`, is not modelled.
- `format` handles template keys as plain text, matched with ASCII case folding.
  - Regular-expression metacharacters in keys are not modelled.
  - `$` replacement patterns in values are not modelled.
  - Non-ASCII case folding is not modelled.
- `PushNotificationsLogRepository.get` is not modelled: it looks entries up by `deviceToken` although the log table is keyed by `firebaseId`.
- Concurrent invocations are not modelled: every operation runs alone on the tables.
- The key order of a serialised response object is codec order.
  - JavaScript appends a property the record lacked, such as a `status` or an `id` filled by `save`, after the others.
  - `MarkAsRead.Handle` returns the object with its fields in codec order instead. (`UpdateToken.Handle` returns the saved object in the source's own field order, and a registered entry in codec order, which is the order JavaScript gives it.)
- ServerRequest.Handle: for a send, it states the owner, the absence of an error and that the stored record is the returned one. The complete effect on the three tables is `ServerRequest.SendMessage`'s contract.
- ServerRequest.RunDevices: it is stated for outcomes without replacement tokens. One rotation step is `ServerRequest.StepRotation`, and a classified send never rotates (`ServerRequest.ClassifiedDevicesShrink`).
- Devices.RemoveByOwnerEffect: it removes all of an owner's devices only when they fit on one page of 100, because the source deletes the first page only.

## Findings

| source | as written | input that shows it | evidently intended | confidence | as-written member | corrected member |
|---|---|---|---|---|---|---|
| lambda/push_microservice_layer/models/push_notifications_log.js:37-46 | `itemToObject` never reads `notificationID`, reads `deviceToken` twice, and assigns a stored `details` to `status` (line 44; the same at opt/push_microservice_layer/models/push_notifications_log.js:50) | the entry `{createdAt: 1700000000, firebaseId: "m-1", notificationID: "n-1", deviceToken: "t-1", status: "delivered", details: "ok"}` decodes with status `ok`, no notification id and no details | each attribute decoded into its own field, so that decoding inverts encoding | high (not executed) | NotificationsLog.DecodeAsWritten, NotificationsLog.AsWrittenLosesEntry | NotificationsLog.Decode, NotificationsLog.RoundTrip |
