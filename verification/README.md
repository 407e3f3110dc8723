# pischat client core, modelled in Dafny

A model of the data-shaping logic of the pischat mobile chat client, a React
Native app:

- **Message list** (`MessageContainer`). When the socket delivers the chat log of a
  conversation, an effect turns it into a display list. Records whose timestamp
  does not parse are skipped. The first time a calendar date appears, a date item
  is inserted. Each record is copied into a chat item that carries its date and
  time labels. A record addressed to the viewer is marked read. When rendered, a
  chat item sits on the right exactly when the viewer sent it.
- **Input checks and submit handlers** of the login and registration screens.
  Each check returns the first failing warning. Each handler sends the request only
  when the check passes. It stores the user and goes to the main screen only on the
  exact success message. It clears the form unless `addUser` throws, which happens
  when the success reply carries no user data or the database fails.
- **HTTP wrappers** `login`, `register` and `getUsers`. All three share one
  classification of failures: the server's own body, a synthesized 504 "no
  response", or a synthesized 500 "unexpected". The module also covers the
  server-address default.

Files:

| file | module | content |
|---|---|---|
| wrappers.dfy | `Wrappers` | `Option` |
| text.dfy | `Text` | `trim` and the blank test |
| api.dfy | `Api` | request outcomes, classification, `SERVER_IP` |
| message_container.dfy | `MessageContainer` | chat records, display items, the transform (function and loop) |
| message_order.dfy | `MessageOrder` | reference definitions and the properties of the display list |
| message_list.dfy | `MessageList` | the component's state after the effect, rendering, per-item annotations |
| auth_screen.dfy | `AuthScreen` | warnings, alerts, the `addUser` call and the submit handler shared by both screens |
| register_page.dfy | `RegisterPage` | registration check and handler |
| login_page.dfy | `LoginPage` | login check and handler |

Modelling choices:

- `new Date(item.datetime)` and the two `Intl.DateTimeFormat('id-ID', …)` formatters
  are the three function fields of a `Clock`. Parsing gives `None` where
  `getTime()` would be NaN, and otherwise epoch milliseconds. The model does not
  assume anything about the formatters, so every property holds for any locale and
  timezone.
- `datetime` is text. It arrives as JSON from the socket, whatever the `Date`
  annotation on `Chat` says.
- The transport behind the HTTP wrappers is a parameter (`send`/`get`) that yields
  an `Outcome`. The three failure shapes are an axios error with a response, an
  axios error with only a request, and anything else.
- `trim` strips the ECMAScript WhiteSpace and LineTerminator code points (`Text.IsSpace`).
- Alignment is not computed by the transform. It is decided at render time
  against the viewer id that the same effect stores (`State.viewer`).
- Date labels use the `id-ID` long-date format; the model leaves the format abstract.
- The chat screen keeps only an `isConnected` flag, shown as online/offline. It has no
  state enum and no guard on sending (see Left out).
- `addUser` is modelled by its outcome only. It resolves exactly when it is given a
  user and the SQLite calls succeed (the `dbWorks` parameter). Otherwise it throws,
  and the submit handler stops there: it neither navigates nor clears the fields.

## Model

| member | source | states |
|---|---|---|
| `Text.Trim` | src/pages/RegisterPage.tsx:44 | the trimmed string is the input with its longest white-space prefix removed and then a suffix made only of white space removed; it is empty iff every character is white space, and otherwise it neither starts nor ends with white space |
| `Api.ServerIp` | src/api/index.ts:4 | the address is `IP_API` when that is set and non-empty, `127.0.0.1` otherwise; never empty |
| `Api.Classify` | src/api/index.ts:52-73 | a server body, whether the request resolved or the axios error carries a response, is returned unchanged; an axios error with a request but no response gives 504 "No response received from the server"; every other failure gives 500 "An unexpected error occurred" |
| `Api.ClassifyThreeWay` | src/api/index.ts:58-73 | the result is one of exactly three things, and it carries user data only if the server sent a body |
| `Api.Login` | src/api/index.ts:48-74 | `login` posts to `/auth/login` and applies the three-way classification to the outcome |
| `Api.Register` | src/api/index.ts:76-102 | `register` posts to `/auth/register` and applies the same classification |
| `Api.GetUsers` | src/api/index.ts:104-129 | `getUsers` fetches `/user/<uuid>` and applies the same classification |
| `Api.SameClassification` | src/api/index.ts:113-128 | failures of the same shape without a server body produce the same status and message from all three wrappers |
| `RegisterPage.CheckInput` | src/pages/RegisterPage.tsx:39-57 | passes iff password equals repeat exactly and name, username and password are non-blank after trimming; the mismatch warning comes first, then the name, username and password blank warnings, and each warning is given exactly when every earlier check passed |
| `RegisterPage.WhitespacePasswordRefused` | src/pages/RegisterPage.tsx:52-55 | an all-white-space password fails with "password is Null" even when repeat matches it |
| `RegisterPage.MismatchBeforeBlank` | src/pages/RegisterPage.tsx:40-43 | the mismatch comparison is untrimmed: password and repeat that differ only in surrounding white space are refused as different |
| `AuthScreen.Submit` | src/pages/LoginPage.tsx:76-88 | the handler both screens share: a failed check alerts only its warning and sends nothing; otherwise the reply's message is alerted; `addUser` is called iff the reply message is the exact success text; Main is reached iff `addUser` resolves; the fields are cleared except when `addUser` throws, in which case they are kept |
| `RegisterPage.LoginHandler` | src/pages/RegisterPage.tsx:76-90 | the request carries the untrimmed name, username and password and is sent iff the check passes; a failed check alerts only its warning; the reply's message is alerted; `addUser` gets the reply's data iff the message is exactly "register success"; Main is reached iff that data is present and the database works; all four fields end empty unless `addUser` threw, in which case they are unchanged |
| `RegisterPage.SuccessWithoutDataKeepsForm` | src/pages/RegisterPage.tsx:80-89 | a "register success" reply without user data makes `addUser` throw: no navigation, and the fields keep their values |
| `RegisterPage.NoServerNoLogin` | src/pages/RegisterPage.tsx:78-84 | when the server sent no body (timeout, no response, unexpected error), nothing is stored, no navigation happens and the form is cleared |
| `LoginPage.CheckInput` | src/pages/LoginPage.tsx:47-57 | passes iff username and password are both non-blank after trimming; a blank username gives "Username is Null" whatever the password; a blank password with a valid username gives "password is Null" |
| `LoginPage.LoginHandler` | src/pages/LoginPage.tsx:76-88 | the request carries the untrimmed username and password and is sent iff the check passes; `addUser` gets the reply's data iff the message is exactly "login success"; Main is reached iff that data is present and the database works; both fields end empty unless `addUser` threw, in which case they are unchanged |
| `MessageContainer.Annotate` | src/components/MessageContainer.tsx:78-80 | `read` is true when the recipient is the viewer and otherwise the record's own; every other field is kept |
| `MessageContainer.FoldAppend` | src/components/MessageContainer.tsx:39-83 | the transform of a concatenated log is the transform of the first part followed by that of the second, with the first part's dates already seen: output follows source order |
| `MessageContainer.BuildMessages` | src/components/MessageContainer.tsx:34-88 | the imperative loop with its result list and seen-date set computes exactly the recursive transform; absent data gives the empty list |
| `MessageList.Effect` | src/components/MessageContainer.tsx:34-90 | the state is rebuilt from `data` and `uuid` alone with `uuid` as the viewer: empty for absent data; for a delivered log, the chat items are the valid records annotated in log order, the date items are the first occurrences of their dates, and each date item opens its group and is never repeated |
| `MessageList.Render` | src/components/MessageContainer.tsx:94-125 | one row per item, in order; a date item becomes a date row showing its date; a chat item becomes a bubble showing its message and time, on the right iff the item's sender is the viewer and on the left otherwise |
| `MessageOrder.Parsed` | src/components/MessageContainer.tsx:40-45 | keeps exactly the records whose timestamp parses, each paired with its instant |
| `MessageOrder.FirstOccurrences` | src/components/MessageContainer.tsx:65-69 | the reference deduplication: no label twice, and a label is present iff it occurs in the input and was not already seen |
| `MessageOrder.LabelsOfParsed` | src/components/MessageContainer.tsx:58-60 | the date labels are the formatted dates of the parsed records' instants, one per record |
| `MessageOrder.FoldChatItems` | src/components/MessageContainer.tsx:39-82 | the chat items of the output are the parsed records, annotated, in source order and nothing else |
| `MessageOrder.FoldDateLabels` | src/components/MessageContainer.tsx:65-69 | the date items of the output are the first occurrences of the parsed records' date labels |
| `MessageOrder.SeenAfterLabels` | src/components/MessageContainer.tsx:37 | after the loop the seen-set holds exactly the date labels of the parsed records |
| `MessageOrder.FoldPlacement` | src/components/MessageContainer.tsx:65-76 | each date item stands immediately before a chat item with its label; no earlier item carries that label; every chat item's label was seen or announced by an earlier date item |
| `MessageOrder.FoldDatesLead` | src/components/MessageContainer.tsx:65-76 | each date item carries a label not seen before and stands immediately before a chat item with that label |
| `MessageOrder.FoldDatesFresh` | src/components/MessageContainer.tsx:65-69 | no item before a date item carries its label, so no date item is repeated |
| `MessageOrder.FoldDatesAnnounced` | src/components/MessageContainer.tsx:65-82 | every chat item's label was already seen or is announced by an earlier date item |
| `MessageOrder.SkipUnparsed` | src/components/MessageContainer.tsx:42-45 | removing a record whose timestamp does not parse leaves the output unchanged: it is skipped and the rest is processed |
| `MessageOrder.FoldItemsFromRecords` | src/components/MessageContainer.tsx:71-76 | every chat item is the annotated copy of a log record with a parsed timestamp, labelled with that timestamp's date and time |
| `MessageOrder.TransformChats` | src/components/MessageContainer.tsx:39-82 | for a delivered log, the chat items are the records with a valid timestamp, annotated, in source order, and there are exactly as many as such records |
| `MessageOrder.TransformDates` | src/components/MessageContainer.tsx:37-69 | for a delivered log, the date items are distinct, cover exactly the dates of valid records, and follow their order of first appearance |
| `MessageOrder.TransformPlacement` | src/components/MessageContainer.tsx:65-82 | for a delivered log, each date item stands immediately before the first chat item of its date, no date item is repeated, and every chat item comes after the date item of its date |
| `MessageOrder.TransformLength` | src/components/MessageContainer.tsx:39-83 | the list holds one item per valid record plus one per distinct date |
| `MessageOrder.RecurringDateScenario` | src/components/MessageContainer.tsx:39-83 | on a worked log, a date that recurs after another date gets no second date item, the unparseable record vanishes, and the messages addressed to the viewer become read |
| `MessageList.ChatAnnotations` | src/components/MessageContainer.tsx:71-105 | every chat item shown keeps its record's fields and the labels of its own timestamp; it is read when the viewer is the recipient and otherwise as delivered; it is on the right iff the viewer sent it |

## Left out

- The socket lifecycle in src/pages/ContentPage.tsx is not modelled: connecting, the `connect`/`disconnect`/`chats` listeners, their removal and `disconnect()`. It is asynchronous event wiring over socket.io, whose semantics are not visible here. The code has no state enum and no not-connected guard on sending, so neither is modelled.
- src/database/index.ts is not modelled beyond the outcome of `addUser`. It is SQLite plumbing. The handlers record the `addUser` call (`StoreCall`) and whether it resolved. They do not record that `deleteUser` has already wiped the stored row when the insert then fails.
- The axios calls, the one-second timeout and the base URL are not modelled. The transport is a parameter that returns an outcome.
- `Intl.DateTimeFormat` with locale `id-ID`, timezones, and `Date` parsing are not modelled. They are the uninterpreted fields of `Clock`.
- Alert dialogs, navigation, styles, src/pages/MainPage.tsx, src/router/index.tsx and src/App.tsx are not modelled. They appear only as the `alerts` and `navigateMain` fields of the handler effects, or not at all.
- Ordering in time among the handler's effects is not modelled. The awaited alert before storing and the un-awaited warning alert of the check are recorded only as a list of alerts.
- `console.error` for a skipped record is not modelled; it is logging only.
- Determinism of the transform is not stated as a lemma: it is a pure function of the log, the viewer and the clock.
- `Text.IsSpace` follows the current Unicode `Zs` category; later additions to that category are not tracked.
