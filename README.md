# Pleroma moderation panel and embed resizer — a Dafny model

This project models two small pieces of Pleroma's front end.

**The report moderation panel** (the admin front end's report page):
- the page shows one report with a state badge and a "change state" menu;
- the "moderate user" dropdown acts on the reported account: tag-based
  content policies (MRF tags), activation/deactivation, deletion;
- the report body holds the status and note lists and a note draft per report;
- each note card can delete its note.

Every handler is modelled by the store actions it dispatches, in order.
Each action is a constructor of `Commands.Command` and is named after the
action the panel dispatches. The `Commands.Store` class stands for the store
as the panel sees it: a log of dispatched actions, the session user's id and
the instance's MRF policies. The pure decision rules are functions:
- which menu items exist, which action a click selects;
- the badge type, the list titles, the presence checks.

The handlers are class methods that dispatch into the log, in the source's
own branch structure. Their postconditions tie the new log, and the note
drafts, to those functions. Answers to confirmation dialogs are inputs to the
model, and so is how the awaited state update settles.

**The embed resizer** (`embed.js`) is the class `Embed.Registry`:
- `frames` is the script's `iframes` array;
- `outbox` holds the messages the frames' `onload` handlers post;
- `Register`/`RegisterAll` are the registration loop;
- `HandleMessage` is the `message` listener.

Its specification functions `Target` and `Resized` state which frame a
message resizes. `FrameIndex` states how a property key names an array index,
whether the key is a number or the decimal spelling of one. Object keys are not
converted to strings in the model (see "## Left out").

The modules are:
- JsValues: JavaScript values, truthiness, `&&` and `||`;
- Decimal: the decimal spelling of array lengths and indices, with its round trips;
- `Commands`, `ReportsShow`, `ModerateUserDropdown`, `ReportContent` (which includes the note card);
- `Embed`.

Facts about the code worth knowing:
- The tag names are `mrf_tag:media-force-nsfw`, `mrf_tag:media-strip`, `mrf_tag:force-unlisted`, `mrf_tag:sandbox`, `mrf_tag:disable-remote-subscription` and `mrf_tag:disable-any-subscription`.
- For a report whose state is none of the three known states, the state menu offers all three states.
- Deactivation has no confirmation dialog; only deletion, note deletion and enabling the tag policy do.
- The deactivate item is offered for the moderator's own account (see Findings).

## Model

| member | source | states |
|---|---|---|
| `ReportsShow.StateMenu` | priv/static/adminfe/static/js/chunk-a104.3439d73d.js:1 | the menu offers a target iff it is one of resolved/open/closed and differs from the report's state, in the order resolved, open, closed; two items for a known state, three for any other |
| `ReportsShow.GetStateType` | priv/static/adminfe/static/js/chunk-a104.3439d73d.js:1 | badge type is info iff the state is closed, success iff resolved, primary for every other state |
| `ReportsShow.CapitalizeFirstLetter` | priv/static/adminfe/static/js/chunk-a104.3439d73d.js:1 | same length; first character upper-cased, the rest unchanged; the empty string maps to itself |
| `ReportsShow.KnownStateLabels` | priv/static/adminfe/static/js/chunk-a104.3439d73d.js:1 | the badges read Open, Resolved, Closed |
| `ReportsShow.PropertyExists` | priv/static/adminfe/static/js/chunk-a104.3439d73d.js:1 | throws exactly on undefined/null; the result is truthy iff the first property is truthy (present and not "", 0, false, null or undefined) and, when a non-empty second key is given, the second property is truthy too; with no second key it is the first property itself |
| `ReportsShow.ChangeStateCommands` | priv/static/adminfe/static/js/chunk-a104.3439d73d.js:1 | first the state update `[{state, id}]`, then, only if that dispatch is fulfilled, a re-fetch of the same id |
| `ReportsShow.MenuItemsLeaveCurrentState` | priv/static/adminfe/static/js/chunk-a104.3439d73d.js:1 | every menu item moves the report to a different known state, and the re-fetch is for the report it updated |
| `ReportsShow.ResolveOpenReport` | priv/static/adminfe/static/js/chunk-a104.3439d73d.js:1 | open report 42: resolve is offered and dispatches the update of 42 to resolved, then a fetch of 42 |
| `ReportsShow.ReportsShowPage.Mount` | priv/static/adminfe/static/js/chunk-a104.3439d73d.js:1 | mounting dispatches NeedReboot, GetNodeInfo, FetchSingleReport(route id), FetchTagPolicySetting, in that order |
| `ReportsShow.ReportsShowPage.ChangeReportState` | priv/static/adminfe/static/js/chunk-a104.3439d73d.js:1 | the log grows by exactly `ChangeStateCommands` |
| `ModerateUserDropdown.ShowDeactivatedButton` | priv/static/adminfe/static/js/chunk-a104.3439d73d.js:1 | false exactly when given an id equal to the session user's; an account object never equals an id |
| `ModerateUserDropdown.TagPolicyEnabled` | priv/static/adminfe/static/js/chunk-a104.3439d73d.js:1 | the computed `tagPolicyEnabled`: true iff the MRF policy list contains `Pleroma.Web.ActivityPub.MRF.TagPolicy` |
| `ModerateUserDropdown.DisplayedTags` | priv/static/adminfe/static/js/chunk-a104.3439d73d.js:1 | the computed `tags`: the account's tag list when it has one, otherwise the empty list |
| `ModerateUserDropdown.DropdownMenu` | priv/static/adminfe/static/js/chunk-a104.3439d73d.js:1 | button disabled iff the id is empty; delete item iff the session id differs from the account's; deactivate item always present, labelled by `is_active`; four base tag items iff the tag policy is enabled, two subscription items after them iff also local; each tag item is active iff the tag is in `tags \|\| []`; "enable tag policy" iff the policy is not enabled |
| `ModerateUserDropdown.SelfDeactivationOffered` | priv/static/adminfe/static/js/chunk-a104.3439d73d.js:1 | as written, for the moderator's own account the deactivate item is shown while the delete item is hidden |
| `ModerateUserDropdown.IntendedDropdownMenu` | priv/static/adminfe/static/js/chunk-a104.3439d73d.js:1 | the same menu with the deactivate item guarded by the account's id: shown iff the session id differs, like the delete item |
| `ModerateUserDropdown.IntendedMenuHidesSelfModeration` | priv/static/adminfe/static/js/chunk-a104.3439d73d.js:1 | with the intended guard, neither deactivate nor delete is offered for one's own account, and both are offered for anyone else |
| `ModerateUserDropdown.ToggleTagCommands` | priv/static/adminfe/static/js/chunk-a104.3439d73d.js:1 | from showPage: Remove…FromReportShow{user,tag} iff the tag is present, else Add…; from reportsPage the same with reportId; a TypeError exactly when the page is one of these and the account has no tag list; any other page dispatches nothing |
| `ModerateUserDropdown.ToggleTwice` | priv/static/adminfe/static/js/chunk-a104.3439d73d.js:1 | after the store's add/remove effect, the second toggle dispatches the opposite action, and the tag membership returns to the original |
| `ModerateUserDropdown.DeactivationCommands` | priv/static/adminfe/static/js/chunk-a104.3439d73d.js:1 | deactivate iff `is_active`, else activate; showPage passes the bare account, reportsPage `{user, reportId}`; any other page dispatches nothing |
| `ModerateUserDropdown.DeletionCommands` | priv/static/adminfe/static/js/chunk-a104.3439d73d.js:1 | DeleteUserFromReports{user, reportId} on confirmation, on every page; nothing on cancel |
| `ModerateUserDropdown.EnableTagPolicyCommands` | priv/static/adminfe/static/js/chunk-a104.3439d73d.js:1 | EnableTagPolicy on confirmation, nothing on cancel |
| `ModerateUserDropdown.ModerateUserDropdownView.Rendered` | priv/static/adminfe/static/js/chunk-a104.3439d73d.js:1 | the dropdown as the program renders it from the store's session id and MRF policies: the deactivate item is always shown (see Findings), the delete item iff the session id differs from the account's, "enable tag policy" iff the policy is not enabled |
| `ModerateUserDropdown.ModerateUserDropdownView.ToggleTag` | priv/static/adminfe/static/js/chunk-a104.3439d73d.js:1 | the log grows by the toggle's commands; the handler completes normally iff it did not throw |
| `ModerateUserDropdown.ModerateUserDropdownView.HandleDeactivation` | priv/static/adminfe/static/js/chunk-a104.3439d73d.js:1 | the log grows by exactly `DeactivationCommands` |
| `ModerateUserDropdown.ModerateUserDropdownView.HandleDeletion` | priv/static/adminfe/static/js/chunk-a104.3439d73d.js:1 | the log grows by exactly `DeletionCommands` |
| `ModerateUserDropdown.ModerateUserDropdownView.EnableTagPolicy` | priv/static/adminfe/static/js/chunk-a104.3439d73d.js:1 | the log grows by exactly `EnableTagPolicyCommands` |
| `ReportContent.CountTitle` | priv/static/adminfe/static/js/chunk-a104.3439d73d.js:1 | the title is the caption, a canonical decimal that reads back as the list's length (0 when the list is undefined), then " item(s)"; a TypeError exactly for null |
| `ReportContent.NotesTitle` | priv/static/adminfe/static/js/chunk-a104.3439d73d.js:1 | "Notes: <n> item(s)" with n the number of notes |
| `ReportContent.StatusesTitle` | priv/static/adminfe/static/js/chunk-a104.3439d73d.js:1 | "Reported statuses: <n> item(s)" with n the number of statuses |
| `ReportContent.TitleDeterminesCount` | priv/static/adminfe/static/js/chunk-a104.3439d73d.js:1 | equal titles come from lists of equal length |
| `ReportContent.DistinctCountsDistinctTitles` | priv/static/adminfe/static/js/chunk-a104.3439d73d.js:1 | lists of different lengths get different titles |
| `ReportContent.ShowStatuses` | priv/static/adminfe/static/js/chunk-a104.3439d73d.js:1 | true iff the list is present and non-empty; an undefined list gives false, null throws |
| `ReportContent.StatusesShownIffCounted` | priv/static/adminfe/static/js/chunk-a104.3439d73d.js:1 | the statuses section is shown iff its title counts at least one status |
| `ReportContent.NewNoteCommand` | priv/static/adminfe/static/js/chunk-a104.3439d73d.js:1 | CreateReportNote for the given report id, carrying that report's draft, or undefined when none was typed |
| `ReportContent.ClearDraft` | priv/static/adminfe/static/js/chunk-a104.3439d73d.js:1 | the submitted report's draft becomes "", every other draft is kept, no other key appears |
| `ReportContent.SecondSubmissionIsEmpty` | priv/static/adminfe/static/js/chunk-a104.3439d73d.js:1 | submitting again right away sends the empty string |
| `ReportContent.ReportContentView.SetDraft` | priv/static/adminfe/static/js/chunk-a104.3439d73d.js:1 | the text area's callback sets that report's draft only |
| `ReportContent.ReportContentView.HandleNewNote` | priv/static/adminfe/static/js/chunk-a104.3439d73d.js:1 | dispatches `NewNoteCommand` on the old drafts, then the drafts become `ClearDraft` of them |
| `ReportContent.NoteDeletionCommands` | priv/static/adminfe/static/js/chunk-a104.3439d73d.js:1 | DeleteReportNote{noteID, reportID} on confirmation, nothing on cancel |
| `ReportContent.NoteCardView.HandleNoteDeletion` | priv/static/adminfe/static/js/chunk-a104.3439d73d.js:1 | the log grows by exactly `NoteDeletionCommands` |
| `Decimal.DecimalString` | priv/static/adminfe/static/js/chunk-a104.3439d73d.js:1 | the spelling of a count is canonical (digits, no leading zero) and starts with 0 only for zero |
| `Decimal.ParseOfDecimalString` | priv/static/embed.js:18 | reading back the spelling of n gives n |
| `Decimal.DecimalStringOfParse` | priv/static/embed.js:18 | a canonical digit string is the spelling of the number it reads as |
| `Decimal.DecimalStringInjective` | priv/static/embed.js:18 | distinct indices have distinct spellings |
| `Embed.Ready` | priv/static/embed.js:4-10 | the callback runs at once iff readyState is interactive or complete, otherwise on DOMContentLoaded |
| `Embed.Prepared` | priv/static/embed.js:26-27 | a registered frame has scrolling "no" and overflow "hidden", and keeps its height |
| `Embed.PreparedAll` | priv/static/embed.js:25-29 | the matched frames are prepared one for one, in document order |
| `Embed.Announcements` | priv/static/embed.js:33-40 | the frame registered at index i posts `{type: setHeightPleromaEmbed, id: i}` to itself |
| `Embed.FrameIndex` | priv/static/embed.js:18 | a number or string key denotes index i iff it is the number i or the decimal spelling of i; `"01"`, `"-1"` and `"length"` denote none; object keys are given no index |
| `Embed.Normalized` | priv/static/embed.js:16 | `e.data \|\| {}`: truthy data is kept as it is, falsy data (undefined, null, false, 0, "") becomes the empty object |
| `Embed.Target` | priv/static/embed.js:16-20 | a message names a frame iff its type is setHeightPleromaEmbed and its id is an index of a registered frame; missing data counts as `{}` |
| `Embed.Resized` | priv/static/embed.js:16-22 | a wrong type or an id that does not index a registered frame leaves the registry unchanged; otherwise exactly the target's height becomes `data.height`, and the length and every other frame are untouched |
| `Embed.MissingDataIgnored` | priv/static/embed.js:16 | a message without data changes nothing |
| `Embed.EchoResizesAnnouncer` | priv/static/embed.js:22 | a frame's own announcement echoed back with a height resizes exactly that frame, whether its id comes back as a number or as a string |
| `Embed.Registry.OnLoad` | priv/static/embed.js:33-38 | onload posts the frame's own registration id to it |
| `Embed.Registry.Register` | priv/static/embed.js:26-40 | the frame is appended prepared, gets id = its index, and runs onload once |
| `Embed.Registry.RegisterAll` | priv/static/embed.js:25-41 | the registry grows by exactly the prepared matched frames, in order, and each posts its own index |
| `Embed.Registry.HandleMessage` | priv/static/embed.js:15-23 | the listener leaves the registry as `Resized` says |
| `Embed.RegisterDocument` | priv/static/embed.js:12-42 | on a fresh registry the i-th matched iframe is frame i and announces id i |

## Findings

| source | as written | input that shows it | evidently intended | confidence | as-written member | corrected member |
|---|---|---|---|---|---|---|
| priv/static/adminfe/static/js/chunk-a104.3439d73d.js:1 | the deactivate item is guarded by `showDeactivatedButton(account)`, which compares the session user's id with the whole account object, so the guard is always true | a report on the moderator's own account (session user id equal to `account.id`) | guard it with `account.id` like the delete item, so nobody is offered to deactivate themselves | not executed; high: the delete item two lines later passes `account.id` to the same function | `ModerateUserDropdown.SelfDeactivationOffered` | `ModerateUserDropdown.IntendedDropdownMenu` |

## Left out

- `priv/static/packs/flavours/glitch/async/getting_started_misc.js` is a static list of navigation links. It has no rules; it is not part of this model.
- The locale-module map and its "module not found" resolver in the admin chunk are bundler machinery.
- `parseTimestamp` is a call into a date library; that library is not part of this model.
- What the store actions do (requests, tag and activation bookkeeping, failures) is not modelled. The exception is `ToggleTwice`, which takes as its definition the effect the tag actions are meant to have: remove a present tag, append an absent one.
- Only one asynchronous outcome is modelled: the awaited state update may be rejected, which ends `changeReportState` before the re-fetch. Every other dispatch is only recorded.
- ReportsShow.ReportsShowPage.ChangeReportState: the state update and the re-fetch are appended to the log in one step. In the program the re-fetch is dispatched only after the awaited update settles, so other handlers' dispatches (a second click, a tag toggle) can land between the two; that interleaving is not modelled.
- Rendering, styling, avatars and links, i18n lookups, and the `$message` notifications are not modelled. The `$confirm` dialogs are reduced to a Confirmed/Cancelled input.
- The DOM and cross-window delivery are not modelled: `querySelectorAll`, `addEventListener`, `postMessage`'s target origin `'*'`, and the event's origin and source. The listener performs no origin check; neither does the model, which has no origin input.
- Iframes inserted after the document is ready are not registered by the script, and they do not appear in the model either.
- The iframe `height` property is stored as the message's value. The DOM's conversion of that value to a string is not modelled.
- Embed.Resized: when a message's key names a non-index property of the `iframes` array (`"length"`, `"push"`, …), the script either writes `height` onto that non-frame value or throws in strict mode. The model keeps the registry unchanged, so it does not capture the write onto that property's value (a shared prototype member such as `push`, or `Array.prototype` itself for `"__proto__"`).
- Embed.FrameIndex: numbers are integers only. Fractional and NaN keys, and the 2^32 − 2 bound on array indices, are not modelled; they cannot name a registered frame anyway. Object keys are not modelled either: JavaScript converts an object key to a string, so an array id such as `[0]` or `["1"]` names frame 0 or 1 in the script. The model cannot tell arrays from plain objects and gives every object key no index, so such a message is ignored in the model.
- ReportsShow.CapitalizeFirstLetter: only a–z are upper-cased. Unicode case mapping, which can change the length (for example "ß" becomes "SS"), is not modelled.
- ReportsShow.GetStateType: the state is a string. A state that is undefined, which would make the badge text throw, is not modelled.
- ReportsShow.PropertyExists: properties that JavaScript objects and primitives inherit from their prototypes read as undefined in the model.
- ReportContent.CountTitle: lists are represented by their length only; their elements are not modelled.
- ReportContent.ReportContentView.HandleNewNote: the plain assignment `notes[id] = ""` is not a reactive `$set`. The view's re-rendering is not modelled.
