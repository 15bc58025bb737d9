# Linky client state store, modelled in Dafny

This project models the client-side state store of the linky bookmarking front end
(`frontend/src/store.js`). The store is a Vuex store. It holds the signed-in session, the
ordered list of link records, one error slot per operation, a counter that disables keybinds,
the loading progress, the notification banner, the search query and the background
preference. Its state changes only through synchronous *mutations*. Its *actions* each make
one HTTP request and then commit a fixed sequence of mutations.

- `values.dfy` (module `Values`): `Option` (JavaScript `undefined`/`null`), the error a failed
  request produces, and the settled `Outcome` of a request.
- `links.dfy` (module `LinkList`): link records and the pure definitions that specify the list
  mutations. `PatchFirst` patches the first record with an id. `Without` keeps the records with
  other ids. The lemmas state how these two behave and how they combine.
- `store.dfy` (module `VuexStore`): class `Store`. Every mutation is a method whose
  `modifies this`field` frame names the fields it may change, and whose `ensures` gives their new
  values. The loops of `archiveLink`, `unarchiveLink` and `updateLinkUrl` are kept as loops with
  an early return, proved against `PatchFirst`. Every action is a method that takes the request's
  outcome as a parameter and states its end state for success and for failure. A ghost field
  `progressTrail` records every value written to the loading progress, so the 30 written before
  the request is visible in the contracts.
- `scenarios.dfy` (module `StoreScenarios`): concrete runs of the store and round trips of an
  action followed by its inverse.

Several behaviours of the code are easy to misread; the model follows the code:

- `notify` copies all eight payload fields as given (`store.js:137-148`). The actions pass only a
  message and a level, so the six display settings become undefined; the initial settings are not restored.
- `enableKeybinds` *decrements* the counter and `disableKeybinds` increments it
  (`store.js:113-118`). Two enables and one disable on a fresh store leave it at -1.
- Archiving and then unarchiving an id restores the list only when that record was not
  archived to begin with.
- `changeLinkUrl` commits `updateLinkUrl` with the bare id (`store.js:267`). Destructuring
  `{id, url}` from a number yields undefined, so no record matches and the local list keeps the
  old url.
- In the failure handler of `addLink`, `error.response.data` throws when the error carries no
  server answer (`store.js:192`). The warning is already shown, but the error slot is not
  written and the progress stays at 30, where the failure paths of the other actions that first set the
  progress to 30 (archive, unarchive, remove, url change) end at 0.
- `logout` leaves `user.token` unchanged and clears the whole persistent store, the
  background preference included (`store.js:104-109`).
- `isAuthenticated` re-commits `loginSuccessful` with the persisted token. When there is none,
  that token is `null`, and the persistent store then holds the string "null" (`store.js:171`).

## Model

| member | source | states |
|---|---|---|
| LinkList.PatchFirst | frontend/src/store.js:47-54 | The result has the same length and ids. It equals the input when no record has the id. Otherwise only the first matching record is patched. |
| LinkList.Without | frontend/src/store.js:69-71 | The result is no longer than the input and no record in it has the id. A record is in it iff it was in the input with a different id. An absent id leaves the list unchanged. |
| LinkList.WithoutCounts | frontend/src/store.js:70 | Removal drops every copy of every record with the id. It keeps each other record as many times as it occurred. |
| LinkList.WithoutAppend | frontend/src/store.js:70 | Filtering a concatenation filters each part, keeping their order, so relative order is preserved. |
| LinkList.RemoveAppended | frontend/src/store.js:69-92 | Appending a record whose id is new and then removing that id gives back the original list. |
| LinkList.RemovePatched | frontend/src/store.js:47-71 | Patching the first record with an id before removing that id does not change what removal leaves. |
| LinkList.PatchFirstLastWins | frontend/src/store.js:47-65 | Two patches of the same field on the same id: the later one wins (idempotence when equal). |
| LinkList.ArchiveThenUnarchive | frontend/src/store.js:47-65 | Archive then unarchive of an id gives back the list iff its first matching record was not archived. |
| VuexStore.Store.constructor | frontend/src/store.js:13-45 | Initial state. The background is the persisted `backgroundColor`, or "white" when none is persisted. |
| VuexStore.Store.ArchiveLink | frontend/src/store.js:47-54 | The loop with early return leaves the list equal to `PatchFirst` with `archived := true`. No other field changes. |
| VuexStore.Store.UnarchiveLink | frontend/src/store.js:58-65 | The same as ArchiveLink, with `archived := false`. |
| VuexStore.Store.UpdateLinkUrl | frontend/src/store.js:119-127 | A `{id, url}` payload sets the url of the first matching record only. A bare-id payload leaves the list unchanged. |
| VuexStore.Store.RemoveLink | frontend/src/store.js:69-71 | The list becomes `Without(old list, id)`. No other field changes. |
| VuexStore.Store.AddLink | frontend/src/store.js:90-92 | The record is appended and the old list is a prefix of the new one. |
| VuexStore.Store.UpdateLinks | frontend/src/store.js:78-80 | The list equals the payload, whatever it held before. |
| VuexStore.Store.UpdateArchive | frontend/src/store.js:84-86 | The archive field holds the payload. |
| VuexStore.Store.UpdateEmail | frontend/src/store.js:75-77 | Only the session email changes. |
| VuexStore.Store.SetErrors | frontend/src/store.js:55-57 | Each of the eight `...Errors` mutations (lines 55-57, 66-68, 72-74, 81-83, 87-89, 93-95, 110-112, 128-130) overwrites its own slot, and no other slot changes. |
| VuexStore.Store.AddLinkErrorsClear | frontend/src/store.js:96-98 | The `addLink` slot is reset to `{}`, and no other slot changes. |
| VuexStore.Store.LoginSuccessful | frontend/src/store.js:99-103 | Sets authenticated and the token. The persisted `token` is set to the token's string form ("null" for null). The email is kept. |
| VuexStore.Store.Logout | frontend/src/store.js:104-109 | The email becomes empty, authenticated false and the list empty. The persistent store becomes empty. The token is kept. |
| VuexStore.Store.DisableKeybinds | frontend/src/store.js:113-115 | The counter goes up by one, with no bound. |
| VuexStore.Store.EnableKeybinds | frontend/src/store.js:116-118 | The counter goes down by one, with no clamp at zero. |
| VuexStore.Store.EnableEditing | frontend/src/store.js:131-133 | The same shared counter goes up by one. |
| VuexStore.Store.DisableEditing | frontend/src/store.js:134-136 | The same shared counter goes down by one. |
| VuexStore.Store.Notify | frontend/src/store.js:137-148 | The message, the level and all six display settings are copied from the payload as given, omitted ones as undefined. The banner is shown. |
| VuexStore.Store.NotificationClosed | frontend/src/store.js:149-151 | Only `show` becomes false. |
| VuexStore.Store.SetBackground | frontend/src/store.js:152-156 | Sets the background and persists it as `backgroundColor`. |
| VuexStore.Store.SetLoadingProgress | frontend/src/store.js:157-159 | Sets the progress and records the written value. |
| VuexStore.Store.SetQuery | frontend/src/store.js:160-162 | Sets the query. |
| VuexStore.Store.DispatchIsAuthenticated | frontend/src/store.js:165-177 | Success: the email is recorded and the session is authenticated with the persisted token. Failure: logout instead of an error slot. Progress and banner are untouched. |
| VuexStore.Store.DispatchAddLink | frontend/src/store.js:178-195 | Success: progress 30 then 100, the record appended, an info banner. Failure: the list is unchanged and a warning is shown. The server's answer goes to the `addLink` slot and progress ends at 0. With no answer, the slot is unchanged and progress stays at 30. |
| VuexStore.Store.DispatchRefreshLinks | frontend/src/store.js:196-207 | Success replaces the list. Failure writes only the `updateLinks` slot. Progress and banner are untouched. |
| VuexStore.Store.DispatchArchiveLink | frontend/src/store.js:208-224 | Progress 30 first. Success: the first match is archived, an info banner is shown and progress ends at 100. Failure: the list is unchanged, a warning is shown, only the `archiveLink` slot is written and progress ends at 0. |
| VuexStore.Store.DispatchUnarchiveLink | frontend/src/store.js:225-241 | The same as DispatchArchiveLink, with `archived := false` and the `unarchiveLink` slot. |
| VuexStore.Store.DispatchRemoveLink | frontend/src/store.js:242-258 | The same shape. Success removes every record with the id. Failure writes only the `removeLink` slot. |
| VuexStore.Store.DispatchChangeLinkUrl | frontend/src/store.js:259-276 | The list is unchanged on both outcomes, because the commit passes a bare id. The banner, the `updateLinkUrl` slot and the progress follow the common shape. |
| StoreScenarios.ArchiveOnlyLink | frontend/src/store.js:208-224 | `[{id:1,url:"a",archived:false}]` archived successfully becomes archived, with an info banner "Archived Link" and progress 100. |
| StoreScenarios.AddLinkRejected | frontend/src/store.js:189-194 | A rejected add leaves the list, stores the server's answer in the `addLink` slot, warns, and ends at progress 0. |
| StoreScenarios.AddLinkUnanswered | frontend/src/store.js:189-194 | An add with no server answer leaves the slot at `{}` and the progress at 30. |
| StoreScenarios.CounterGoesNegative | frontend/src/store.js:113-118 | Enable, enable, disable from a fresh store gives -1. |
| StoreScenarios.EditingThenEnableKeybinds | frontend/src/store.js:116-133 | Entering edit mode, then enabling keybinds, restores the counter, because the two concerns share it. No other field changes. |
| StoreScenarios.ActionBannerHasNoDefaults | frontend/src/store.js:137-148 | After an action's banner, duration, position and theme are undefined, not 4000, "bottom" and "pure". |
| StoreScenarios.LogoutClearsPreferences | frontend/src/store.js:99-109 | Login then logout keeps the token and the in-memory background, but empties the persistent store. |
| StoreScenarios.AuthenticatedWithoutToken | frontend/src/store.js:165-172 | A successful check with no persisted token gives a null token and persists "null". |
| StoreScenarios.ChangeUrlKeepsOldUrl | frontend/src/store.js:259-269 | A successful url change leaves the local record's url as it was. |
| StoreScenarios.ArchiveThenUnarchiveRoundTrip | frontend/src/store.js:208-241 | Two successful actions give back the list iff the record was not archived. They end with an info banner "Unarchived Link" at progress 100. Only links, banner, error slots and progress may change. |
| StoreScenarios.AddThenRemoveRoundTrip | frontend/src/store.js:178-258 | A successful add of a new id followed by a successful delete of it gives back the list and leaves the error slots unchanged. Only links, banner, error slots and progress may change. |

## Left out

- HTTP requests, their `Authorization` headers and URL construction are network I/O. Each action instead takes the settled outcome of its request as a parameter.
- `formatUrl` (`frontend/src/utilities.js`) is not part of this model. The url it normalises goes only into the request and a log line, so `DispatchAddLink` takes no url. For the same reason, the `url` argument of `DispatchChangeLinkUrl` reaches no state.
- DispatchAddLink: the promise that `addLink` returns, and the fact that it rejects when the failure handler throws, are not modelled.
- Interleaving of concurrent in-flight actions: each action runs from request to completion in one step.
- The progress-bar watcher (line 280), `console` logging, Vue reactivity, and the DOM class write in `setBackground` are UI and diagnostics. Only the `background` field and the persisted `backgroundColor` entry are kept.
- Link records are values with the fields `id`, `title`, `url` and `archived`. In-place edits seen through other references to the same record object (aliasing) are not modelled, and neither are the server's other fields.
- Error objects are modelled as a message plus the optional body of the server's answer.
- `core/models.py` and `core/urls.py` are server-side ORM declarations and routing configuration, not part of the store.
