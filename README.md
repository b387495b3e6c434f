# Tag-Along: the hangout and request store

Tag-Along is a one-file React Native prototype of a "hangout matching" app.
Almost all of `App.tsx` is view and style code. The logic it does have lives
in state setters and event handlers, and that is what this project models:

- the app-level list of the user's hangouts (`myHangouts`) and its three
  updates: create prepends, update spreads a partial hangout over every
  hangout with the given id, remove filters that id out;
- the Create tab: the gate that lets a post or save through only when title,
  location and time each have a non-white-space character after `trim()`,
  the record a new post becomes (host `you`, tags `Casual`/`Vibes`,
  distance `~`, compatibility 100), and the six-field partial both edit paths
  send;
- the Matches tab: responding to a tag-along request (`act`), which sets the
  status of the matching request to accepted or declined, and the flip the
  card offers once a request is decided;
- sending a chat message: trimmed, non-empty input is appended to the history
  and the input box is cleared; white-space-only input is ignored.

Layout, one module per concern:

- `text.dfy` (`Text`): ECMAScript white space and `trim`, with the lemmas that
  pin down what trimming cuts off.
- `model.dfy` (`Model`): users, hangouts, partial hangouts (`Patch`) and the
  object spread `Merge`, request statuses and decisions, chat messages, the
  current user `You`.
- `hangout_list.dfy` (`HangoutList`): `UpdateById` (the `map`) and
  `RemoveById` (the `filter`) with their properties.
- `compose.dfy` (`Compose`): the form values (`Draft`), `CanPost`,
  `NewHangout`, `EditPatch`, `DraftOf` and what an edit does.
- `requests.dfy` (`Requests`): `Respond`, `Flip`, `Offered`.
- `chat.dfy` (`Chat`): `Send`.
- `screens.dfy` (`Screens`): the component state as classes whose methods
  replace their fields in place, as the React setters do: `HangoutStore`
  (the app shell's `myHangouts`), `CreateScreen` (the Create tab's hooks;
  each form's six hooks are held as one `Draft` value) and `InboxScreen`
  (`incoming`, `chatMessage`, `chatHistory`). Each method is specified by the
  pure functions above, whose properties are the lemmas.

Ids are supplied by the caller (the source draws them from `Math.random`).
Form slots are a caller-supplied integer.

What the code does and does not do, as the model follows it:

- `act` and the update setter have no not-found case: an absent id leaves
  the list as it was (App.tsx:820, 1238).
- The update checks nothing, so a partial may set any field, slots included,
  to any value; only the two form handlers test title, location and time
  before sending one (App.tsx:361, 423).
- Posted hangouts keep the title, location and time as typed, untrimmed
  (App.tsx:373-376); only the chat message is stored trimmed (App.tsx:842).
- No query selects from the list: the Discover tab renders the fixed seed
  list (App.tsx:288) and the Create tab renders `myHangouts` as it is.
- Nothing makes ids unique, so no uniqueness invariant is claimed; the
  lemmas that need a fresh id say so in their `requires`.
- `editHangout` (App.tsx:391-399) has no caller, so `editingHangout` is never
  set and the update branch of `post` (App.tsx:364-367) cannot be reached in
  the app as written. `CreateScreen.EditHangout` and that branch of
  `CreateScreen.Post` model the code as written all the same.

## Model

| member | source | states |
|---|---|---|
| Text.Trim | App.tsx:358 | `s.trim()` is never longer than `s` and, when not empty, neither starts nor ends with white space; `TrimBounds` shows it is the slice between the leading and trailing white space |
| Text.HasText | App.tsx:358 | truthiness of `s.trim()`: the empty string never has text; `HasTextIff` gives the exact condition |
| Text.TrimStartSpec | App.tsx:358 | what `trim` cuts from the front is exactly the leading white space: the rest is the suffix of the input that starts with a non-space |
| Text.TrimEndSpec | App.tsx:358 | what `trim` cuts from the back is exactly the trailing white space: the rest is the prefix of the input that ends with a non-space |
| Text.TrimBounds | App.tsx:358 | `trim(s)` is a slice `s[i..j]` with only white space on either side, and neither starts nor ends with white space |
| Text.HasTextIff | App.tsx:358 | `s.trim()` is truthy exactly when some character of `s` is not white space |
| Text.TrimIdempotent | App.tsx:842 | trimming an already trimmed string changes nothing |
| Model.StatusOf | App.tsx:819-820 | a decision passed to `act` is always a decided status, never `pending`; accept gives accepted and decline gives declined |
| Model.Merge | App.tsx:1238 | `{ ...h, ...updates }`: every field the partial supplies takes the partial's value and every field it leaves out keeps the hangout's |
| Model.MergeNoChanges | App.tsx:1238 | spreading an empty partial gives back the hangout |
| Model.MergeIdempotent | App.tsx:1238 | spreading the same partial twice equals spreading it once |
| Model.MergeTitleOnly | App.tsx:1238 | a partial holding only a title changes the title and every other field stays equal |
| Model.MergeCovered | App.tsx:1238 | a later spread that supplies every field an earlier one supplied overwrites it completely |
| HangoutList.UpdateById | App.tsx:1238 | the update keeps the length of the list |
| HangoutList.RemoveById | App.tsx:1241 | the remove never makes the list longer |
| HangoutList.UpdateAt | App.tsx:1238 | at each position, a hangout whose id matches becomes `{...h, ...updates}` and any other hangout is unchanged |
| HangoutList.UpdatePointwise | App.tsx:1238 | the same for every position at once, with length and order preserved |
| HangoutList.UpdateAbsent | App.tsx:1238 | updating an id not in the list leaves the list unchanged |
| HangoutList.UpdateLastWins | App.tsx:1238 | two updates of one id, the first of which does not rename and the second of which supplies every field the first supplied: the second alone decides the result |
| HangoutList.RemovePositions | App.tsx:1241 | the result lists, in their original order, exactly the hangouts at the positions whose id differs from the removed one |
| HangoutList.RemoveMembers | App.tsx:1241 | a hangout is in the result exactly when it was in the list with an id other than the removed one |
| HangoutList.RemoveAbsent | App.tsx:1241 | removing an absent id is a no-op |
| HangoutList.RemoveIdempotent | App.tsx:1241 | after a removal the id no longer occurs, so removing twice equals removing once |
| HangoutList.CreateThenRemove | App.tsx:1234-1241 | creating a hangout under an id the list does not hold and then removing that id restores the list |
| Compose.CanPost | App.tsx:358 | the gate both form handlers apply never lets through an empty title, location or time; `CanPostIff` gives the exact condition |
| Compose.CanPostIff | App.tsx:358 | the post gate holds exactly when title, location and time each contain a non-white-space character |
| Compose.EmptyDraftBlocked | App.tsx:341-346 | the empty form, as first shown and after every reset, never passes the gate |
| Compose.NewHangout | App.tsx:370-382 | a new post has the supplied id, host `you`, tags `Casual`/`Vibes`, distance `~`, compatibility 100, and the form's title, location, time, group flag, slots and visibility, untrimmed |
| Compose.EditPatch | App.tsx:424-431 | the partial an edit sends supplies exactly the six form fields, with the form's values, and never id, host, tags, distance or compatibility |
| Compose.EditFields | App.tsx:365 | an edit sets title, location, time, group flag, slots and visibility to the form's values and leaves id, host, tags, distance and compatibility unchanged |
| Compose.DraftOf | App.tsx:391-399 | the form values loaded from a hangout, saved back unchanged, give back the same hangout |
| Compose.EditNewHangout | App.tsx:365-382 | editing a fresh post gives the hangout that posting the edited form would have given |
| Compose.EditList | App.tsx:424-431 | an edit applied to the list changes only the six form fields of the hangouts with that id; all other hangouts are unchanged and the length is kept |
| Compose.EditTwice | App.tsx:1238 | two edits of the same hangout in a row: the second wins |
| Requests.Respond | App.tsx:820 | responding keeps the length of the request list |
| Requests.RespondAt | App.tsx:820 | a request with that id takes the decision as its status with every other field kept; every other request is unchanged |
| Requests.RespondAbsent | App.tsx:820 | responding to an id no request holds changes nothing |
| Requests.RespondLastWins | App.tsx:819-820 | responding twice to the same id gives the result of the second response alone, so accept then decline leaves declined |
| Requests.RespondNeverPending | App.tsx:819-820 | after a response a request is pending exactly when it was pending before and was not the one responded to |
| Requests.Flip | App.tsx:887-899 | the flip of a decided request is the decision that moves it to the other decided status |
| Requests.Offered | App.tsx:887-899 | every button a request card offers moves the request to a status other than its current one; a pending card offers both decisions, a decided one exactly one |
| Requests.OfferedFlip | App.tsx:887-899 | a decided card offers only the flip, and flipping twice returns to the original status |
| Chat.Send | App.tsx:838-846 | white-space-only input leaves the history and the input as they were; otherwise exactly one message, with the trimmed text and `isFromUser` true, is appended at the end and the input is cleared |
| Chat.SendBlank | App.tsx:839 | input made only of white space sends nothing |
| Chat.SentMessageTrimmed | App.tsx:839-842 | a sent message is non-empty, comes from the user and has no white space at either end |
| Screens.HangoutStore.constructor | App.tsx:1205 | the store starts with the seed list it is given |
| Screens.HangoutStore.Create | App.tsx:1234 | the new list is the new hangout followed by the old list in order: one longer |
| Screens.HangoutStore.Update | App.tsx:1237-1239 | the new list is the spread-update of the old one |
| Screens.HangoutStore.Remove | App.tsx:1240-1242 | the new list is the old one with the id filtered out |
| Screens.CreateScreen.constructor | App.tsx:338-356 | both forms start empty with slots 2 and visibility `matches`, nothing is being edited or selected, the sheet is closed |
| Screens.CreateScreen.Post | App.tsx:360-389 | without the gate nothing changes and the "Add details" alert shows; with it, the edit under way is saved through the update with the six-field partial, or a new hangout under the given id is put in front of the list; then the form is reset and no edit is under way |
| Screens.CreateScreen.EditHangout | App.tsx:391-399 | the form holds the hangout's six fields and that hangout is the edit under way |
| Screens.CreateScreen.CancelEdit | App.tsx:401-404 | no edit is under way and the form, notes included, is reset |
| Screens.CreateScreen.OpenHangoutDetail | App.tsx:406-410 | the hangout is selected, the sheet shows it, not in edit mode |
| Screens.CreateScreen.StartEditingInModal | App.tsx:412-420 | the sheet's edit form holds the hangout's six fields and the sheet is in edit mode |
| Screens.CreateScreen.SaveEditInModal | App.tsx:422-437 | with no hangout selected or the gate failing, nothing changes; otherwise the selected hangout's id is updated with the sheet's six fields and edit mode ends |
| Screens.CreateScreen.CancelEditInModal | App.tsx:439-441 | edit mode ends and nothing else changes |
| Screens.CreateScreen.RemoveHangout | App.tsx:443-459 | only the confirmation prompt's Remove button filters the id out of the list and shows "Removed"; cancelling changes nothing |
| Screens.CreateScreen.RemoveFromSheet | App.tsx:789-792 | pressing the sheet's Remove closes the sheet before the prompt, so it stays closed whether or not the removal is confirmed; a confirmed removal filters the selected hangout's id out of the list |
| Screens.InboxScreen.constructor | App.tsx:812-817 | the inbox starts with the given requests, an empty input and an empty chat history |
| Screens.InboxScreen.Act | App.tsx:819-826 | the request list becomes the response to the decision; the chat is untouched |
| Screens.InboxScreen.SendMessage | App.tsx:838-846 | the history and input become what sending gives; the requests are untouched |
| Screens.RunInTheParkPasses | App.tsx:358 | the form "Run" at "Park" on "Fri 6PM" passes the post gate |

## Left out

- Rendering, JSX, theme tables, styles, images and the tab bar itself:
  display only.
- Tab switches: each screen class models one mount of its tab. The app
  mounts `CreateScreen` and `InboxScreen` only while their tab is selected
  (App.tsx:1231-1246), so switching tabs, including the `setTab('Discover')`
  after every post (App.tsx:1234), discards their state; coming back is a
  fresh `CreateScreen()` or `InboxScreen(seedIncoming)` (App.tsx:812), so
  responses, the chat and the form do not survive it. Only `HangoutStore`
  (App.tsx:1205) outlives a tab switch, and properties such as
  `RespondNeverPending` hold within one mount.
- Alert dialogs: `Post`, `SaveEditInModal`, `RemoveHangout` and
  `RemoveFromSheet` return the alert's title as a `Notice`; the alert texts
  and the `act` alerts are not modelled. The removal prompt is the
  `confirmed` parameter.
- The delayed auto-reply of the chat (`setTimeout`): asynchronous timer
  behaviour.
- Id generation with `Math.random().toString(36)`: ids are parameters, and
  no uniqueness is claimed because the code does not guarantee it.
- `Number(slots || '2')`: JavaScript number parsing (floats, `NaN`); slots
  are a caller-supplied integer, and the form's reset value `'2'` is the
  integer 2.
- The text-field change handlers (`onChangeText={setTitle}` and the like):
  callers assign the form fields directly.
- `openProfile`, `openChat`, the app shell's `openHangout` and the
  `HangoutDetail` sheet of the Discover tab: they only choose what to display.
- Seed users, hangouts and requests and the static profile screen: the
  constructors take the initial lists as parameters; a user's avatar and
  images are not modelled.
- The `notes` hook is kept and reset as the code does, but the code never
  stores it in a hangout.
