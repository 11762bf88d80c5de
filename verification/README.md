# Permission filter and connection-health monitor, verified in Dafny

This project models two small pure decision procedures of the client:

- **The permission list filter** (`AllPermissions`). A list of permission
  records `{app.name, role.name, role.id, entities[{type}]}` is filtered in two
  chained, order-preserving stages. First comes a case-insensitive substring
  search of the trimmed search terms against the app name, role name and role
  id. Then comes an entity-type test: selector `1` ("Accounts") keeps records
  with some non-`app` entity, and `2` ("Apps") keeps records with some `app`
  entity. The model also covers the `emptyFilter` flag passed to the heading,
  the dropdown's `index || -1` normalisation, and the heading's clear action.
- **The connection-health monitor** (`useSyncInfo`). The state is
  `{isListening, isOnline, connectionStatus, syncDelay}`. It is updated by a
  provider `end`/`error` drop, the browser's `offline` and `online` events,
  and poll results. A poll carries the elapsed milliseconds since the latest
  block and computes a lag in minutes. It classifies that lag against the
  thresholds 3 and 30. The last handler other than `online` decides the status;
  `online` only sets `isOnline`.

Files:

- `seqs.dfy` (module `Seqs`): `Filter` (JavaScript `Array.prototype.filter`),
  `Any` (`Array.prototype.some`), the subsequence relation and filter lemmas.
- `text.dfy` (module `Text`): the ECMAScript whitespace set, `Trim`, ASCII
  `Lower`, and `Includes` with its reference definition `IsSubstring`.
- `permission_filter.dfy` (module `PermissionFilter`): the permission filter,
  the empty-result flag and the heading's filter state.
- `sync_info.dfy` (module `SyncInfo`): the monitor's state, its transition
  function and the lemmas about event sequences.

The two stages are modelled as written, with ASCII-only lower-casing (see
"## Left out"), and then related to a one-pass reference filter
(`FilteredIsOnePass`). The order, selector and
search-term properties are proved against that reference. The monitor's
transition `Step` is folded over event sequences by `Run`. The
"most recent event wins" rule is proved field by field: the status, the
delay, the online flag, and listening as a terminal flag.

Two facts about the code shape the model:

- The initial `isOnline` is the browser's `window.navigator.onLine` flag
  (`useSyncInfo.js` line 21), taken as the parameter of `Initial`.
- A permission's `entities` may be empty. Such a record then fails both the
  "Accounts" and the "Apps" test, because `some` over an empty list is false
  (`AllPermissions.js` lines 52 and 57).

## Model

| member | source | states |
|---|---|---|
| `PermissionFilter.PrepareSearchTerms` | client-0.8.8/client-0.8.8/src/apps/Permissions/Home/AllPermissions.js:34 | the prepared terms are the lower-cased slice of the search terms that leaves only whitespace outside it and has no whitespace at either end; they are empty exactly when the search terms are all whitespace, and contain no upper-case letter |
| `PermissionFilter.MatchesSearch` | client-0.8.8/client-0.8.8/src/apps/Permissions/Home/AllPermissions.js:33-46 | a record matches exactly when the prepared terms are empty or occur, as a substring, in its lower-cased app name, role name or role id |
| `PermissionFilter.SearchStage` | client-0.8.8/client-0.8.8/src/apps/Permissions/Home/AllPermissions.js:33-46 | the search stage keeps exactly the input records that match the prepared terms, and is never longer than its input |
| `PermissionFilter.MatchesEntityType` | client-0.8.8/client-0.8.8/src/apps/Permissions/Home/AllPermissions.js:49-61 | the `some`-based test holds for selector 1 iff some entity is not an app, for selector 2 iff some entity is an app, and for any other selector always |
| `PermissionFilter.EntityStage` | client-0.8.8/client-0.8.8/src/apps/Permissions/Home/AllPermissions.js:49-61 | the entity stage keeps exactly the input records that pass the entity-type test |
| `PermissionFilter.FilteredPermissions` | client-0.8.8/client-0.8.8/src/apps/Permissions/Home/AllPermissions.js:28-63 | a record is in the result iff it is in the input and passes both the search test and the entity-type test; the result is never longer than the input |
| `PermissionFilter.FilteredIsOnePass` | client-0.8.8/client-0.8.8/src/apps/Permissions/Home/AllPermissions.js:30-61 | the two chained filters equal one filter by the conjunction of both tests |
| `PermissionFilter.FilteredIsSubsequence` | client-0.8.8/client-0.8.8/src/apps/Permissions/Home/AllPermissions.js:30-61 | the result is an order-preserving subsequence of the input, so it is never longer and holds only input records |
| `PermissionFilter.BlankSearchKeepsAll` | client-0.8.8/client-0.8.8/src/apps/Permissions/Home/AllPermissions.js:34-37 | empty or whitespace-only search terms keep every record in the search stage |
| `PermissionFilter.NoFilterIsIdentity` | client-0.8.8/client-0.8.8/src/apps/Permissions/Home/AllPermissions.js:33-61 | with blank search terms and a selector other than 1 or 2, the filter returns its input unchanged |
| `PermissionFilter.FilteredMatchesTerms` | client-0.8.8/client-0.8.8/src/apps/Permissions/Home/AllPermissions.js:38-45 | every shown record has the trimmed, lower-cased terms as a substring of its lower-cased app name, role name or role id |
| `PermissionFilter.AccountsSelectsAccountHolders` | client-0.8.8/client-0.8.8/src/apps/Permissions/Home/AllPermissions.js:51-53 | selector 1 shows exactly the search matches that have some entity whose type is not `app`, in input order |
| `PermissionFilter.AppsSelectsAppHolders` | client-0.8.8/client-0.8.8/src/apps/Permissions/Home/AllPermissions.js:56-58 | selector 2 shows exactly the search matches that have some entity whose type is `app`, in input order |
| `PermissionFilter.SelectorsNarrowAllEntities` | client-0.8.8/client-0.8.8/src/apps/Permissions/Home/AllPermissions.js:49-61 | a selector other than 1 or 2 shows the whole search-stage result; the results for 1 and 2 are each subsequences of the result for -1 |
| `PermissionFilter.EmptyFilter` | client-0.8.8/client-0.8.8/src/apps/Permissions/Home/AllPermissions.js:81-83 | the flag, computed with JavaScript truthiness, holds exactly when the filtered list is empty and the input list is not |
| `PermissionFilter.EmptyFilterNeedsActiveFilter` | client-0.8.8/client-0.8.8/src/apps/Permissions/Home/AllPermissions.js:81-83 | the flag is raised only when the search terms are not blank or the selector is 1 or 2 |
| `PermissionFilter.NormalizeEntityIndex` | client-0.8.8/client-0.8.8/src/apps/Permissions/Home/AllPermissions.js:120-125 | the falsy-or default maps dropdown index 0 to -1 and passes every other index through, so the stored selector is never 0 |
| `PermissionFilter.NormalizeKeepsFilter` | client-0.8.8/client-0.8.8/src/apps/Permissions/Home/AllPermissions.js:122 | normalising the dropdown index never changes the filtered list |
| `PermissionFilter.DropDownItemsSelect` | client-0.8.8/client-0.8.8/src/apps/Permissions/Home/AllPermissions.js:16 | the three dropdown items "All entities", "Accounts" and "Apps" store the selectors -1, 1 and 2 |
| `PermissionFilter.InitialFilterState` | client-0.8.8/client-0.8.8/src/apps/Permissions/Home/AllPermissions.js:24-25 | the list starts with selector -1 and empty search terms; the search field starts with those terms, as `Heading`'s `useState(searchTerms)` at lines 111-113 sets it |
| `PermissionFilter.ApplyFilterEvent` | client-0.8.8/client-0.8.8/src/apps/Permissions/Home/AllPermissions.js:120-141 | a dropdown change stores the normalised index and nothing else; a keystroke updates only the field's value at once; the debounced update changes only the search terms; clear resets the selector to -1 and both strings to empty |
| `PermissionFilter.ClearShowsEverything` | client-0.8.8/client-0.8.8/src/apps/Permissions/Home/AllPermissions.js:137-141 | after clearing, the whole input list is shown and the empty-result flag is down |
| `PermissionFilter.SelectorNeverZero` | client-0.8.8/client-0.8.8/src/apps/Permissions/Home/AllPermissions.js:120-141 | from a state whose selector is not 0, no sequence of heading actions stores selector 0 |
| `PermissionFilter.VotingShownForApps` | client-0.8.8/client-0.8.8/src/apps/Permissions/Home/AllPermissions.js:28-63 | a "Voting" record whose role name is "Create votes", held by an app, is shown for the search "vote" under selectors -1 and 2 |
| `PermissionFilter.VotingHiddenForAccounts` | client-0.8.8/client-0.8.8/src/apps/Permissions/Home/AllPermissions.js:51-53 | the same record is hidden under selector 1, which raises the empty-result flag |
| `Text.Trim` | client-0.8.8/client-0.8.8/src/apps/Permissions/Home/AllPermissions.js:34 | `trim` returns a slice of its input with only whitespace outside it and no whitespace at either end; it is empty iff the input is all whitespace |
| `Text.Lower` | client-0.8.8/client-0.8.8/src/apps/Permissions/Home/AllPermissions.js:34-40 | keeps the length; maps ASCII `A`–`Z` to `a`–`z` and every other character to itself |
| `Text.Includes` | client-0.8.8/client-0.8.8/src/apps/Permissions/Home/AllPermissions.js:42-44 | `includes` holds iff the needle occurs at some position of the string |
| `Seqs.Filter` | client-0.8.8/client-0.8.8/src/apps/Permissions/Home/AllPermissions.js:30-61 | `filter` keeps exactly the elements that pass the test, each as many times as it occurs in the input, and the result is never longer than the input |
| `Seqs.Any` | client-0.8.8/client-0.8.8/src/apps/Permissions/Home/AllPermissions.js:52 | `some` holds iff some element passes the test |
| `SyncInfo.Initial` | client-0.8.8/client-0.8.8/src/components/AccountModule/useSyncInfo.js:20-25 | the monitor starts listening, Healthy, with delay 0 and `isOnline` equal to the browser's flag |
| `SyncInfo.FreshPollKeepsInitial` | client-0.8.8/client-0.8.8/src/components/AccountModule/useSyncInfo.js:20-25 | a poll of a block less than a minute old leaves the initial state unchanged |
| `SyncInfo.LagMinutes` | client-0.8.8/client-0.8.8/src/components/AccountModule/useSyncInfo.js:80-81 | the lag is the elapsed time in whole minutes rounded down, negative elapsed times included |
| `SyncInfo.Classify` | client-0.8.8/client-0.8.8/src/components/AccountModule/useSyncInfo.js:82-87 | a lag of 30 or more is Error, from 3 up to 29 is Warning, and below 3 is Healthy |
| `SyncInfo.ClassifyBoundaries` | client-0.8.8/client-0.8.8/src/components/AccountModule/useSyncInfo.js:82-87 | lags 2, 3, 29 and 30 are Healthy, Warning, Warning and Error; every negative lag is Healthy |
| `SyncInfo.ClassifyIsMonotone` | client-0.8.8/client-0.8.8/src/components/AccountModule/useSyncInfo.js:82-87 | a larger lag never yields a healthier status |
| `SyncInfo.LagIsMonotone` | client-0.8.8/client-0.8.8/src/components/AccountModule/useSyncInfo.js:81 | a larger elapsed time never yields a smaller lag |
| `SyncInfo.ClassifyElapsed` | client-0.8.8/client-0.8.8/src/components/AccountModule/useSyncInfo.js:80-87 | in milliseconds: under 180000 is Healthy, from 180000 below 1800000 is Warning, and from 1800000 on is Error |
| `SyncInfo.Step` | client-0.8.8/client-0.8.8/src/components/AccountModule/useSyncInfo.js:27-89 | a drop clears `isListening` and sets Error; offline clears `isOnline` and sets Error; online only sets `isOnline`; a poll sets the classified status and the lag as delay and leaves both flags alone |
| `SyncInfo.ListeningUntilDrop` | client-0.8.8/client-0.8.8/src/components/AccountModule/useSyncInfo.js:27-30 | after any events the monitor is listening iff it was and no drop arrived: nothing restores listening |
| `SyncInfo.OnlineKeepsRest` | client-0.8.8/client-0.8.8/src/components/AccountModule/useSyncInfo.js:56 | `online` events change neither status, delay nor listening, so they do not restore a Healthy status |
| `SyncInfo.LastStatusWins` | client-0.8.8/client-0.8.8/src/components/AccountModule/useSyncInfo.js:27-89 | the status is the one set by the last event other than `online` |
| `SyncInfo.NoPollKeepsDelay` | client-0.8.8/client-0.8.8/src/components/AccountModule/useSyncInfo.js:89 | events other than poll results never change the delay |
| `SyncInfo.LastPollSetsDelay` | client-0.8.8/client-0.8.8/src/components/AccountModule/useSyncInfo.js:88-89 | the delay is the lag of the last poll, whatever its classification and whatever events followed |
| `SyncInfo.LastBrowserEventSetsOnline` | client-0.8.8/client-0.8.8/src/components/AccountModule/useSyncInfo.js:56-60 | `isOnline` is true iff the last browser connectivity event was `online` |
| `SyncInfo.PollAfterDropCanBeHealthy` | client-0.8.8/client-0.8.8/src/components/AccountModule/useSyncInfo.js:27-89 | status and listening are independent: a fresh poll after a drop reports Healthy while `isListening` stays false |

## Left out

- React rendering, JSX, prop types, styles and the UI widgets (dropdown, search input, layout and theme hooks): presentation only.
- The loading branch and the "no permissions" branch of `AllPermissions`: they only choose what to render. The empty-list distinction they make is what `EmptyFilter` captures.
- The 300 ms debounce in `Heading`: it is timer-driven library behaviour. The debounced call is modelled as its own event, `SearchTermsCommitted`, and the field's value is updated at once by `SearchInputChange`. Which keystroke's value is committed, and when, is not modelled.
- Subscribing and unsubscribing the provider and browser listeners, and their effect cleanup: event-loop plumbing against objects outside the model. The guard on `currentProvider` is left out too.
- Choosing between the default and the wallet provider, polling with `pollEvery`, fetching the latest block timestamp and `getWeb3`: these are network and provider calls whose code is not part of this model. Only the state update a poll result causes is modelled.
- A failed poll, and state changes after teardown: not modelled. What happens depends on `pollEvery`, which is not part of this model.
- The clock: `new Date() - timestamp` is taken as an integer input `elapsedMs`.
- `SyncInfo.LagMinutes`: the source divides a floating-point number twice (`/ 1000 / 60`). The model uses exact integer floor division by 60000, so rounding of huge doubles is not modelled.
- `Text.Lower`: only ASCII `A`–`Z` are lower-cased. Unicode case mapping of `toLowerCase` is not modelled.
- Malformed permission records with missing nested fields: the source does not handle them, and the datatype makes them unrepresentable.
