# WowUp addon page, account service and network wrapper in Dafny

This project models four parts of the WowUp desktop client (an Electron and
Angular application that manages World of Warcraft addons):

- **Network** (`network.dfy`). `CircuitBreakerWrapper` and `NetworkService`
  shape each HTTP request: the verb, the headers (cache-control defaults
  overlaid with the caller's map for the wrapper's JSON GET; the caller's map
  alone for POST and DELETE), and the timeout (`timeoutMs ?? default`). The
  wrapper's `errorFilter`, which it hands to the circuit breaker, is
  modelled as a standalone predicate; the wrapper value does not carry it. A call is
  modelled by the request it would hand to the HTTP client, tagged with the
  breaker it runs through.
- **Account** (`account.dfy`). `WowUpAccountService` covers:
  - parsing the `wowup://login/desktop/<token>` deep link;
  - the auth token in storage and in the token subject, and the filter that
    starts an account lookup;
  - logout;
  - resetting the account feature preferences;
  - toggling push;
  - handling the account lookup's outcome, where only a 401 or 403 logs out.

  The service is a class whose fields are the token, the account and the
  preference map.
- **My addons page** (`my_addons.dfy`). The page's non-UI logic works on its
  row list (`_baseRowDataSrc`):
  - the text filter;
  - the three bulk toggles (ignore, auto-update, notifications);
  - the install-complete and removal handlers;
  - the tie-breaking comparator;
  - `formatAddons`;
  - the enablement predicates and the header-checkbox predicates;
  - loading the saved sort order;
  - the refresh guard.

  The page is a class with the row list and the busy, refreshing and
  controls-enabled flags.
- **Options, addon section** (`options_section.dfy`):
  - the editable provider states;
  - the enabled provider names;
  - the writes issued when the provider selection changes;
  - the JSON export of the selected installation's addons.

Supporting modules:

- `wrappers.dfy`: `Option`, `Outcome`, `Result`.
- `strings.dfy`: the JavaScript string operations used, written out over
  `seq<char>`. These are `split` on one character, `trim`, `toLowerCase` on
  ASCII, and `>`.
- `entities.dfy`: `Addon`, the `AddonViewModel` row, installations and
  install events.
- `order_by.dfy`: lodash `orderBy` on one string key, as an insertion sort.

Collaborators whose code is not part of this model become parameters:
- the result of `getProtocol`;
- `stringIncludes`;
- the `AddonViewModel` constructor (`wrap`);
- `AppConfig` (`Config`);
- the `ACCT_*` key constants;
- the account API's result and the push steps' outcome;
- `addonService.isInstalling()`;
- the selected installation's id;
- `enableSystemNotifications`.

## Model

| member | source | states |
|---|---|---|
| Network.Overlay | wowup-electron/src/app/services/network/network.service.ts:59 | object spread: keys of both maps; the later map wins on a shared key; other keys keep the earlier map's value |
| Network.CallerHeaders | wowup-electron/src/app/services/network/network.service.ts:82 | `headers \|\| {}`: missing caller headers are the empty map, given ones are used as they are |
| Network.CacheControlHeaders | wowup-electron/src/app/services/network/network.service.ts:14 | exactly `Cache-Control: no-cache` and `Pragma: no-cache` |
| Network.EffectiveTimeout | wowup-electron/src/app/services/network/network.service.ts:60 | `timeoutMs ?? default`: a given timeout, even 0, is kept; only a missing one falls back |
| Network.ErrorFilter | wowup-electron/src/app/services/network/network.service.ts:33-36 | an error is filtered exactly when it has a status in 400..499 |
| Network.ErrorFilterCases | wowup-electron/src/app/services/network/network.service.ts:33-36 | a 404 is filtered; a status of 500 or more, or none, is not |
| Network.NewCircuitBreakerWrapper | wowup-electron/src/app/services/network/network.service.ts:22-31 | the wrapper keeps its name; omitted reset and HTTP timeouts take the configured defaults |
| Network.GetCircuitBreaker | wowup-electron/src/app/services/network/network.service.ts:122-128 | a wrapper with the given name and timeouts, each omitted one replaced by the configured default |
| Network.GetJson | wowup-electron/src/app/services/network/network.service.ts:50-63 | a GET for the URL, with a JSON response and no body, through the wrapper's breaker |
| Network.GetText | wowup-electron/src/app/services/network/network.service.ts:65-72 | a GET for the URL, with a text response and no body, through the wrapper's breaker |
| Network.PostJson | wowup-electron/src/app/services/network/network.service.ts:74-89 | a POST for the URL carrying the body, through the wrapper's breaker |
| Network.DeleteJson | wowup-electron/src/app/services/network/network.service.ts:91-105 | a DELETE for the URL, with no body, through the wrapper's breaker |
| Network.ServiceGetJson | wowup-electron/src/app/services/network/network.service.ts:130-135 | a direct GET (no breaker) with a JSON response, using the caller's timeout when given and the configured HTTP default otherwise |
| Network.ServiceGetText | wowup-electron/src/app/services/network/network.service.ts:137-142 | a direct GET (no breaker) with a text response, using the caller's timeout when given and the configured HTTP default otherwise |
| Network.GetJsonHeaders | wowup-electron/src/app/services/network/network.service.ts:14-59 | the wrapper's JSON GET sends the two cache-control headers plus the caller's keys; the caller wins on a shared key; defaults the caller does not name stay `no-cache` |
| Network.GetJsonWithoutHeaders | wowup-electron/src/app/services/network/network.service.ts:50-63 | without caller headers the wrapper's JSON GET sends exactly the cache-control defaults |
| Network.PlainGetsSendExactlyCacheControl | wowup-electron/src/app/services/network/network.service.ts:65-72 | both text GETs and the service's JSON GET send exactly `Cache-Control: no-cache` and `Pragma: no-cache` |
| Network.PostAndDeleteSendCallerHeaders | wowup-electron/src/app/services/network/network.service.ts:74-105 | POST and DELETE send exactly the caller's headers (none when absent) and add no cache-control default |
| Network.WrapperTimeouts | wowup-electron/src/app/services/network/network.service.ts:60-102 | all four wrapper calls use the caller's timeout if given, else the wrapper's default |
| Network.DefaultWrapperTimeout | wowup-electron/src/app/services/network/network.service.ts:122-128 | a breaker from the service with no timeout arguments times out after the configured HTTP default |
| Strings.Split | wowup-electron/src/app/services/wowup/wowup-account.service.ts:132 | `split("/")`: at least one part; no part contains the separator |
| Strings.JoinSplit | wowup-electron/src/app/services/wowup/wowup-account.service.ts:132 | joining the parts of a split with the separator gives back the string |
| Strings.SplitJoin | wowup-electron/src/app/services/wowup/wowup-account.service.ts:132 | splitting a join of separator-free parts gives back the parts |
| Strings.SplitAfterHead | wowup-electron/src/app/services/wowup/wowup-account.service.ts:132 | a separator-free head followed by the separator splits off as one part |
| Strings.SplitNoSeparator | wowup-electron/src/app/services/wowup/wowup-account.service.ts:132 | a string without the separator splits into itself alone |
| Strings.Trim | wowup-electron/src/app/pages/my-addons/my-addons.component.ts:534 | `trim()`: a contiguous slice of the input, with only white space removed from each end, that neither starts nor ends with white space |
| Strings.LeadingWhiteSpace | wowup-electron/src/app/pages/my-addons/my-addons.component.ts:534 | the length of the white-space run at the start, and it is maximal |
| Strings.TrailingWhiteSpace | wowup-electron/src/app/pages/my-addons/my-addons.component.ts:534 | the length of the white-space run at the end, and it is maximal |
| Strings.ToLower | wowup-electron/src/app/pages/my-addons/my-addons.component.ts:534 | `toLowerCase()` on ASCII: same length, each character lowered |
| Strings.LowerChar | wowup-electron/src/app/pages/my-addons/my-addons.component.ts:534 | an upper-case ASCII letter becomes the same letter in lower case (code + 32); any other character is unchanged |
| Strings.Greater | wowup-electron/src/app/pages/my-addons/my-addons.component.ts:1291-1300 | JS `>` on strings: at the first differing position the greater character decides; a proper prefix is smaller, and no string is greater than a string it is a prefix of |
| Strings.GreaterTrichotomy | wowup-electron/src/app/pages/my-addons/my-addons.component.ts:1291-1300 | string `>` is irreflexive, and of two distinct strings exactly one is greater |
| Strings.GreaterTransitive | wowup-electron/src/app/pages/my-addons/my-addons.component.ts:1291-1300 | string `>` is transitive |
| Account.ParseLoginProtocol | wowup-electron/src/app/services/wowup/wowup-account.service.ts:126-141 | only another scheme yields `OtherProtocol`; a token is accepted iff the scheme is the application's, segments 2 and 3 are `login` and `desktop` and segment 4 has at least 10 characters, and the token is then exactly segment 4; anything else with the application's scheme fails at the segment or the token check |
| Account.SplitLoginUrl | wowup-electron/src/app/services/wowup/wowup-account.service.ts:122-133 | `wowup://login/desktop/<rest>` splits into `wowup:`, `""`, `login`, `desktop` followed by the parts of rest |
| Account.SplitJoinedLoginUrl | wowup-electron/src/app/services/wowup/wowup-account.service.ts:122-133 | a login link built from separator-free segments splits back into them |
| Account.LoginUrlYieldsToken | wowup-electron/src/app/services/wowup/wowup-account.service.ts:122-141 | a login link with a token of 10 or more characters is accepted with exactly that token, whatever segments follow |
| Account.ParseDesktopLogin | wowup-electron/src/app/services/wowup/wowup-account.service.ts:132-141 | any message whose segments 2-4 are `login`, `desktop` and a token of 10+ characters is accepted with that token |
| Account.ShortTokenRejected | wowup-electron/src/app/services/wowup/wowup-account.service.ts:137-141 | a login link with a token shorter than 10 characters is rejected as invalid |
| Account.TenCharacterTokenNotLookedUp | wowup-electron/src/app/services/wowup/wowup-account.service.ts:57 | a 10-character token is accepted by the login link yet never passes the subject's `length > 10` filter |
| Account.TriggersLookup | wowup-electron/src/app/services/wowup/wowup-account.service.ts:57 | the token subject's filter: a non-empty token of more than 10 characters |
| Account.IsUnauthorized | wowup-electron/src/app/services/wowup/wowup-account.service.ts:102 | an HTTP error whose status is 403 or 401 |
| Account.ResetPreferences | wowup-electron/src/app/services/wowup/wowup-account.service.ts:169-173 | every feature key reads "false"; every other key keeps its value; no key is lost |
| Account.ResetPreferencesStep | wowup-electron/src/app/services/wowup/wowup-account.service.ts:170-172 | resetting one more key is a single map update |
| Account.AccountService.constructor | wowup-electron/src/app/services/wowup/wowup-account.service.ts:55-69 | a non-empty stored token becomes the current token; otherwise the token is empty; there is no account yet; because the length filter is subscribed before the token is loaded (:114-120), a lookup starts iff the stored token has more than 10 characters |
| Account.AccountService.AccountPushEnabled | wowup-electron/src/app/services/wowup/wowup-account.service.ts:33-35 | true exactly when the push key is stored as "true" |
| Account.AccountService.HandleLoginProtocol | wowup-electron/src/app/services/wowup/wowup-account.service.ts:126-146 | an accepted token is written to storage and to the token subject, and a lookup starts iff it passes the filter at :57; any rejection changes nothing |
| Account.AccountService.ClearAuthToken | wowup-electron/src/app/services/wowup/wowup-account.service.ts:108-112 | no stored token, an empty token (which starts no lookup), no account; preferences untouched |
| Account.AccountService.ResetAccountPreferences | wowup-electron/src/app/services/wowup/wowup-account.service.ts:169-173 | the preference map becomes `ResetPreferences` of the old map; nothing else changes |
| Account.AccountService.Logout | wowup-electron/src/app/services/wowup/wowup-account.service.ts:84-87 | token and account cleared, feature preferences reset; push reads disabled when its key is a feature key |
| Account.AccountService.ToggleAccountPush | wowup-electron/src/app/services/wowup/wowup-account.service.ts:149-166 | a missing account fails; the preference is written only after every step succeeds; a failure is passed on and leaves it unchanged |
| Account.AccountService.OnAuthTokenChanged | wowup-electron/src/app/services/wowup/wowup-account.service.ts:89-106 | a lookup stores the account and re-registers push when enabled; a 401/403 from either step logs out; any other failure keeps the state |
| Entities.RowKey | wowup-electron/src/app/pages/my-addons/my-addons.component.ts:859 | `r.addon?.id`: undefined without an addon, the addon's id otherwise |
| OrderBy.Insert | wowup-electron/src/app/pages/my-addons/my-addons.component.ts:1179 | inserting into a sorted list keeps it sorted and adds exactly that element |
| OrderBy.Sort | wowup-electron/src/app/pages/my-addons/my-addons.component.ts:1179 | `_.orderBy` on one key: sorted ascending and a permutation of the input |
| OrderBy.SortedLastIsMaximal | wowup-electron/src/app/pages/my-addons/my-addons.component.ts:1179 | in a sorted list no key is greater than the last one |
| OrderBy.InitBelowLast | wowup-electron/src/app/pages/my-addons/my-addons.component.ts:1179 | in a sorted list no key before the last exceeds the last one |
| OrderBy.InsertAtEnd | wowup-electron/src/app/pages/my-addons/my-addons.component.ts:1179 | an element no smaller than all others is appended at the end |
| OrderBy.SortedPrefix | wowup-electron/src/app/pages/my-addons/my-addons.component.ts:1179 | a prefix of a sorted list is sorted |
| OrderBy.SortSorted | wowup-electron/src/app/pages/my-addons/my-addons.component.ts:1179 | sorting an already sorted list returns it unchanged |
| OrderBy.SortIdempotent | wowup-electron/src/app/pages/my-addons/my-addons.component.ts:1179 | sorting twice is sorting once |
| MyAddons.FindIndex | wowup-electron/src/app/pages/my-addons/my-addons.component.ts:1224 | `findIndex`: -1 iff no row has the key; otherwise the first row with the key |
| MyAddons.FindIndexSameKeys | wowup-electron/src/app/pages/my-addons/my-addons.component.ts:858-860 | lists with the same keys position by position find the same row for every key |
| MyAddons.NormalizeFilter | wowup-electron/src/app/pages/my-addons/my-addons.component.ts:534 | the trimmed, lower-cased filter is no longer than the input and has no upper-case ASCII letter |
| MyAddons.KeepMatching | wowup-electron/src/app/pages/my-addons/my-addons.component.ts:535 | a row is kept iff it is in the input and matches name, latest version or author |
| MyAddons.FilterAddons | wowup-electron/src/app/pages/my-addons/my-addons.component.ts:529-536 | an empty filter returns the input itself; otherwise the rows matching the normalized filter; never a row not in the input |
| MyAddons.FilterListItem | wowup-electron/src/app/pages/my-addons/my-addons.component.ts:1182-1191 | a row matches iff its addon's name, latest version or author (undefined without an addon) includes the filter |
| MyAddons.KeepMatchingAppend | wowup-electron/src/app/pages/my-addons/my-addons.component.ts:535 | filtering distributes over concatenation, so relative order is kept |
| MyAddons.KeepMatchingAll | wowup-electron/src/app/pages/my-addons/my-addons.component.ts:1182-1191 | when every row matches, the filter keeps the list unchanged |
| MyAddons.Apply | wowup-electron/src/app/pages/my-addons/my-addons.component.ts:814-904 | the field writes of the three toggles: ignore sets `isIgnored` and, when ignoring, clears auto-update; auto-update sets both auto-update flags and, when enabling, clears `isIgnored`; notifications sets only its flag |
| MyAddons.IgnoreTarget | wowup-electron/src/app/pages/my-addons/my-addons.component.ts:804 | `_.every` item has an addon that is not ignored |
| MyAddons.AutoUpdateTarget | wowup-electron/src/app/pages/my-addons/my-addons.component.ts:863 | `_.every` item has an addon with auto-update off |
| MyAddons.NotificationsTarget | wowup-electron/src/app/pages/my-addons/my-addons.component.ts:891-894 | `_.every` item has an addon with notifications off |
| MyAddons.ApplyIdempotent | wowup-electron/src/app/pages/my-addons/my-addons.component.ts:803-914 | re-applying a toggle with the same target changes nothing more |
| MyAddons.IsTargeted | wowup-electron/src/app/pages/my-addons/my-addons.component.ts:807-812 | a row is edited iff it has an addon and is the first row whose key equals the key of some selected item |
| MyAddons.ToggleRows | wowup-electron/src/app/pages/my-addons/my-addons.component.ts:803-914 | same length; untargeted rows unchanged; targeted rows keep their names and have the toggle applied to their addon |
| MyAddons.IgnoreToggleEffect | wowup-electron/src/app/pages/my-addons/my-addons.component.ts:803-820 | the target is "every selected addon is not ignored"; a targeted addon gets it as `isIgnored`; ignoring also turns auto-update off; no other field changes |
| MyAddons.AutoUpdateToggleEffect | wowup-electron/src/app/pages/my-addons/my-addons.component.ts:862-882 | the target is "every selected addon has auto-update off"; auto-update and notifications take it; enabling un-ignores; no other field changes |
| MyAddons.NotificationsToggleEffect | wowup-electron/src/app/pages/my-addons/my-addons.component.ts:890-907 | the target is "every selected addon has notifications off"; only that flag changes |
| MyAddons.ToggleKeepsKeys | wowup-electron/src/app/pages/my-addons/my-addons.component.ts:803-914 | a toggle keeps every key, so later lookups find the same rows |
| MyAddons.TargetedStep | wowup-electron/src/app/pages/my-addons/my-addons.component.ts:806-811 | one more selected item targets exactly the row found for it, if that row has an addon |
| MyAddons.ToggledByNothing | wowup-electron/src/app/pages/my-addons/my-addons.component.ts:805 | the cloned rows, before any item is processed, are the original |
| MyAddons.ToggledByAll | wowup-electron/src/app/pages/my-addons/my-addons.component.ts:822 | once all items are processed, the copy is the toggled list |
| MyAddons.ToggledByKeepsKeys | wowup-electron/src/app/pages/my-addons/my-addons.component.ts:808 | in a copy partly edited by the loop every row keeps its key, so `_.find` by any key returns the same index as in the original rows |
| MyAddons.ToggledByStep | wowup-electron/src/app/pages/my-addons/my-addons.component.ts:806-820 | editing the row found for the next item, or skipping when it has no row or no addon, extends the edits by that item |
| MyAddons.IsTerminal | wowup-electron/src/app/pages/my-addons/my-addons.component.ts:1218 | an install state is final iff it is Complete or Error |
| MyAddons.RowsAfterInstall | wowup-electron/src/app/pages/my-addons/my-addons.component.ts:1213-1234 | other installations and non-final states leave the rows alone; a known id replaces its row in place; an unknown one adds the row and sorts by canonical name |
| MyAddons.SpliceOne | wowup-electron/src/app/pages/my-addons/my-addons.component.ts:1243 | `splice(start, 1)`: removes position start, counting from the end when negative and clamped to the first element below that; nothing at or past the end |
| MyAddons.RemovedAsWritten | wowup-electron/src/app/pages/my-addons/my-addons.component.ts:1239-1246 | the handler as written always removes one row from a non-empty list |
| MyAddons.RemovedAsWrittenKnownId | wowup-electron/src/app/pages/my-addons/my-addons.component.ts:1239-1246 | with the id present, exactly its first row is removed |
| MyAddons.RemovedAsWrittenDropsLast | wowup-electron/src/app/pages/my-addons/my-addons.component.ts:1242-1243 | with the id absent, the last row is removed |
| MyAddons.RemoveUnknownIdExample | wowup-electron/src/app/pages/my-addons/my-addons.component.ts:1242-1243 | removing id "b" from a one-row list holding "a" empties it |
| MyAddons.RemoveById | wowup-electron/src/app/pages/my-addons/my-addons.component.ts:1239-1246 | corrected removal: an absent id leaves the list unchanged; a present one removes exactly its first row and keeps the others in order |
| MyAddons.CompareElement | wowup-electron/src/app/pages/my-addons/my-addons.component.ts:1291-1300 | 0 iff both the property and the canonical name are equal; a tie on the property is broken by the canonical name |
| MyAddons.CompareElementAntisymmetric | wowup-electron/src/app/pages/my-addons/my-addons.component.ts:1291-1300 | swapping the two rows negates the result |
| MyAddons.CompareElementPositive | wowup-electron/src/app/pages/my-addons/my-addons.component.ts:1291-1300 | 1 iff a's property is greater, or the properties tie and a's canonical name is greater |
| MyAddons.FixInstalledVersion | wowup-electron/src/app/pages/my-addons/my-addons.component.ts:1172-1174 | a missing or empty installed version becomes `""`; any other is kept; a row without an addon, the names and every other addon field are unchanged |
| MyAddons.ViewModels | wowup-electron/src/app/pages/my-addons/my-addons.component.ts:1169-1177 | one fixed-up view model per addon, in input order |
| MyAddons.FormatAddons | wowup-electron/src/app/pages/my-addons/my-addons.component.ts:1168-1180 | one row per addon, sorted by name, a permutation of the view models; every row is some addon's wrapped view model with a missing or empty installed version replaced by `""` |
| MyAddons.CanSetAutoUpdate | wowup-electron/src/app/pages/my-addons/my-addons.component.ts:499-505 | true iff the row has an addon that is not ignored and has no warning |
| MyAddons.CanSetAutoUpdateNotifications | wowup-electron/src/app/pages/my-addons/my-addons.component.ts:507-519 | true iff auto-update may be set, notifications are enabled and the addon auto-updates |
| MyAddons.CountWhere | wowup-electron/src/app/pages/my-addons/my-addons.component.ts:996 | the number of items with the property is at most the number of items |
| MyAddons.CountWhereAll | wowup-electron/src/app/pages/my-addons/my-addons.component.ts:996 | the count equals the length iff every item has the property |
| MyAddons.CountWhereNone | wowup-electron/src/app/pages/my-addons/my-addons.component.ts:992 | the count is zero iff no item has the property |
| MyAddons.IsAllItemsSelected | wowup-electron/src/app/pages/my-addons/my-addons.component.ts:995-997 | true iff every item has the property |
| MyAddons.IsIndeterminate | wowup-electron/src/app/pages/my-addons/my-addons.component.ts:991-993 | true iff some item has the property and some does not, that is, iff the count of items with it is strictly between 0 and the length |
| MyAddons.LoadSortOrder | wowup-electron/src/app/pages/my-addons/my-addons.component.ts:1266-1277 | a missing, non-array or shorter-than-two order resets storage and sets no column state; any other is applied as saved |
| MyAddons.SingleColumnOrderDiscarded | wowup-electron/src/app/pages/my-addons/my-addons.component.ts:1268-1272 | a saved one-column order is treated as legacy and discarded |
| MyAddons.MyAddonsPage.constructor | wowup-electron/src/app/pages/my-addons/my-addons.component.ts:90-93 | the field initializers: no rows, busy, controls disabled, and (:156) not refreshing |
| MyAddons.MyAddonsPage.ApplyToggle | wowup-electron/src/app/pages/my-addons/my-addons.component.ts:803-824 | the loop over selected items leaves exactly `ToggleRows` of the old rows; the flags are unchanged |
| MyAddons.MyAddonsPage.OnClickIgnoreAddons | wowup-electron/src/app/pages/my-addons/my-addons.component.ts:803-828 | rows become the ignore toggle at the computed target |
| MyAddons.MyAddonsPage.OnClickAutoUpdateAddons | wowup-electron/src/app/pages/my-addons/my-addons.component.ts:862-888 | rows become the auto-update toggle at the computed target |
| MyAddons.MyAddonsPage.OnClickAutoUpdateAddonsNotifications | wowup-electron/src/app/pages/my-addons/my-addons.component.ts:890-914 | rows become the notifications toggle at the computed target |
| MyAddons.MyAddonsPage.OnAddonInstalledEvent | wowup-electron/src/app/pages/my-addons/my-addons.component.ts:1213-1237 | rows follow `RowsAfterInstall`; a non-final state disables the controls; a final one enables them iff nothing is installing |
| MyAddons.MyAddonsPage.OnAddonRemoved | wowup-electron/src/app/pages/my-addons/my-addons.component.ts:1239-1246 | rows follow the handler as written, `RemovedAsWritten` |
| MyAddons.MyAddonsPage.OnRefreshStart | wowup-electron/src/app/pages/my-addons/my-addons.component.ts:455-462 | a refresh starts iff none is running, and marks busy, refreshing and controls disabled; otherwise nothing changes |
| MyAddons.MyAddonsPage.OnRefreshFinish | wowup-electron/src/app/pages/my-addons/my-addons.component.ts:477-483 | the `finally` clears busy and refreshing and enables the controls whatever happened |
| OptionsSection.Where | wowup-electron/src/app/components/options-addon-section/options-addon-section.component.ts:29 | lodash `filter` and `Array.filter`: no longer than the input, every kept state satisfies the predicate |
| OptionsSection.WhereMembership | wowup-electron/src/app/components/options-addon-section/options-addon-section.component.ts:29 | a state is kept iff it is in the input and satisfies the predicate |
| OptionsSection.WhereAppend | wowup-electron/src/app/components/options-addon-section/options-addon-section.component.ts:71 | the filter distributes over concatenation, keeping relative order |
| OptionsSection.EditableProviders | wowup-electron/src/app/components/options-addon-section/options-addon-section.component.ts:29 | only editable states are kept, in input order |
| OptionsSection.EditableProvidersMembership | wowup-electron/src/app/components/options-addon-section/options-addon-section.component.ts:29 | a state is shown iff it is in the input and editable |
| OptionsSection.EnabledProviders | wowup-electron/src/app/components/options-addon-section/options-addon-section.component.ts:70-72 | no longer than the input, and every state kept is enabled |
| OptionsSection.EnabledProvidersMembership | wowup-electron/src/app/components/options-addon-section/options-addon-section.component.ts:70-72 | a state is kept iff it is in the input and enabled |
| OptionsSection.EnabledProviderNames | wowup-electron/src/app/components/options-addon-section/options-addon-section.component.ts:74-76 | the names of the enabled states, one per state, in order |
| OptionsSection.EnabledProviderNamesMembership | wowup-electron/src/app/components/options-addon-section/options-addon-section.component.ts:70-76 | a name is listed iff some enabled state carries it |
| OptionsSection.ExportAddons | wowup-electron/src/app/components/options-addon-section/options-addon-section.component.ts:51-56 | no export without a selected installation; otherwise its name and one entry per addon, in order, with the addon's id, provider and name |
| OptionsSection.ForJson | wowup-electron/src/app/components/options-addon-section/options-addon-section.component.ts:54 | the entry for one addon: its id, provider name and name |
| OptionsSection.OptionsAddonSection.constructor | wowup-electron/src/app/components/options-addon-section/options-addon-section.component.ts:18-21 | no provider states, the form control null, no installations, none selected |
| OptionsSection.OptionsAddonSection.NgOnInit | wowup-electron/src/app/components/options-addon-section/options-addon-section.component.ts:28-30 | exactly the editable states are shown, and the form control holds their enabled names |
| OptionsSection.OptionsAddonSection.OnInstallations | wowup-electron/src/app/components/options-addon-section/options-addon-section.component.ts:33-37 | the installations are stored and the first is selected, or none when the list is empty |
| OptionsSection.OptionsAddonSection.OnProviderStateSelectionChange | wowup-electron/src/app/components/options-addon-section/options-addon-section.component.ts:40-49 | two writes per option, in order: an editable provider state with the option's name and selection, then enabling or disabling that provider |

## Left out

- The circuit breaker's state machine (the `opossum` library): opening, closing and the reset timer. Only the arguments the wrapper hands it are modelled.
- HTTP transport, rxjs `first()`/`timeout()` timing, and the breaker's open/close log handlers. Modelled by the request each call issues.
- `fire` and `internalAction`: they forward the action to the breaker; there is nothing to model past the `ThroughBreaker` tag.
- Network.ErrorFilter: how the breaker counts filtered errors belongs to `opossum`, which is not part of this model. The predicate is stated exactly as the code computes it. The code's comment says a 404 must not trip the breaker; `ErrorFilterCases` states that 404 is filtered.
- `getProtocol`, `stringIncludes`, the `AddonViewModel` constructor, `AppConfig` and the `ACCT_*` constants are not part of this model; they are parameters.
- Local storage, IPC (`initializePush`, `registerForPush`, `unregisterForPush`, `subscribe`) and the account API are external. Their outcomes are the `steps`, `pushSteps` and `lookup` parameters.
- Account.AccountService.ToggleAccountPush: the order of the individual push steps and the optional channel subscription are folded into one outcome.
- `login()`: it only opens an external link.
- The `accountPushEnabled` setter is not modelled as a separate entry point; its one use, in `toggleAccountPush`, is the preference write of `ToggleAccountPush`. The constructor's call to `initializePush` is not modelled.
- Subject timing (`switchMap` cancelling an earlier lookup) is not modelled. `HandleLoginProtocol` records in `lookupRequested` whether the lookup starts; the lookup's result is then passed to `OnAuthTokenChanged`.
- Strings.ToLower: lower-cases ASCII letters only; Unicode case mapping is not modelled.
- Strings.Greater: compares by character code point, not by UTF-16 code unit; the two orders differ only outside the Basic Multilingual Plane.
- Account.ParseLoginProtocol: `token.length` counts UTF-16 code units, while the model counts characters; the two differ for characters outside the Basic Multilingual Plane. `TriggersLookup` has the same gap.
- Account.AppProtocolName: the `APP_PROTOCOL_NAME` constant is not part of this model; its value "wowup" is taken from the link format in the doc comment of `handleLoginProtocol`.
- Account.BoolText: the preference store's `set` is not part of this model; it is taken to store `"true"` or `"false"`, which is what the `accountPushEnabled` getter compares with.
- MyAddons.CompareElement: only string-valued columns are modelled. Numeric columns and date columns are not; for `Date` values, `===` would compare object identity, not the instant.
- OrderBy.Sort: lodash `orderBy` is stable; the model proves the result sorted and a permutation, but not stable.
- MyAddons.ApplyToggle: the `saveAddon` call for each edited addon, and an exception it throws midway, are not modelled. The published rows are those after the whole loop.
- `onRefresh`'s awaited body (`syncAllClients`, `updateForInstallation`, `loadAddons`, `updateBadgeCount`) is external. Only the guard and the `finally` block are modelled.
- `updateBadgeCount` after the ignore toggle, and the `_operationErrorSrc` report, are not modelled.
- The single-item wrappers `onClickIgnoreAddon`, `onClickAutoUpdateAddon` and `onClickAutoUpdateAddonNotifications` just call the bulk handlers with one item, so they are not modelled separately.
- The page's debounced push handler, its 200 ms and 300 ms debounces and the `Promise.all` fan-out of `onUpdateAll` are timing and concurrency, and are not modelled.
- The page's dialogs, context menus, grid events, i18n, tab handling and badge count are UI.
- `exportAddonsAsJsonToClipboard`: `JSON.stringify` and the clipboard write are not modelled; `ExportAddons` is the object before serialization.
- `importAddonsFromJson` only reads the clipboard and returns true.
- `setAddonProviderState` and `setProviderEnabled` are external; the method returns the writes it issues, in order.

## Findings

| source | as written | input that shows it | evidently intended | confidence | as-written member | corrected member |
|---|---|---|---|---|---|---|
| wowup-electron/src/app/pages/my-addons/my-addons.component.ts:1239-1246 | `rowData.splice(findIndex(...), 1)`; `findIndex` gives -1 for an id that is not in the list, and `splice(-1, 1)` removes the last row | rows `[A]` with id "a", removal of id "b": the list becomes empty | an unknown id leaves the list unchanged | low, not executed: whether the addon service ever announces an id the page does not list is not part of this model | MyAddons.RemovedAsWrittenDropsLast | MyAddons.RemoveById |

`MyAddons.MyAddonsPage.OnAddonRemoved` follows the code as written. `MyAddons.RemoveUnknownIdExample` exhibits the concrete input.
