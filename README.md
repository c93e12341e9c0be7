# vardozz-webapp core, modelled in Dafny

vardozz-webapp is a Telegram Mini-App. It has two halves:

- an Express server, in front of a hosted database, that stores educational content per role, publishes scheduled posts when they fall due, and serves role, user, setting and tariff-price endpoints to admins;
- a React client that shows the course pages, the admin screens and the per-role content feed.

This project models the deterministic logic of both halves, and proves what that logic promises.

Conventions:

- The clock (`Date.now()`, `new Date()`) is an explicit `now: int` of milliseconds.
- A date string is `Clock.DateInput`: `Missing` (absent or empty), `Malformed` (`new Date` gives NaN) or `At(ms)`. A NaN time fails every comparison.
- Store queries and HTTP responses are inputs of the operations that make them. On the server, a store call is an input table, or its answer as a value, plus a failure flag for each error the endpoint checks. The tariff-price loop takes instead the position of the entry whose update the store refuses. The clean-up delete of a failed create gets a flag too: the endpoint ignores that delete's outcome, but the outcome decides the table. On the client a response is an `Api.Response`: `Data`, `NoData` or `Failed(message)`.
- Timers are explicit methods that the caller invokes in the model, for example `FireTimer`, `FireRelease` and `FireLoadingTimer`.
- JavaScript's string truthiness (`Text.Truthy`), `trim` (`Text.Trim`, with the ECMAScript white-space set), `includes`, `startsWith`, `find`, `findIndex` and `filter` are written out in `common.dfy`.

Files:

| file | modules |
|---|---|
| `content_server.dfy` | `ContentServer`: the auto-publish reconciler over the content table (a `map` in class `Store`), create and update validation and merge, link grouping, and the user-content listing with its two filter layers |
| `admin_api.dfy` | `AdminApi`: the admin gate, pagination ranges, role create, delete and assignment guards, and tariff-price validation with its update loop (class `TariffPriceTable`) |
| `users_cache.dfy`, `user_role_cache.dfy` | the two TTL caches of the client, as classes over an optional entry and over a map |
| `admin_users.dfy`, `admin_page.dfy`, `activity_stats.dfy` | the admin users list: pagination, cache hit, role change, relative times, the scroll trigger and percentages |
| `settings_hook.dfy`, `settings_editors.dfy` | the settings list, and the date and price editors' sanitisers, validators and save guards |
| `error_collector.dfy` | the error list |
| `content_client.dfy` | the content admin page: countdown, link editing, create validation, list updates |
| `user_content.dfy` | the learner's content page: merge of auto-published posts, display filter, render chain |
| `roles_page.dfy` | the roles page: fetch, refresh, dedupe-append after create |
| `access.dfy` | `useAdminCheck`, `useUserRole`, the main-screen buttons and the route guard |
| `navigation.dfy` | link routing (`safeNavigate`, `openExternalLink`, `Button`), the back-button effect and the back-button lock |
| `carousels.dfy` | the slide state machine shared by the Tariff, Inside and Roadmap pages (class `Carousel.Slider`), and each page's slides |

## Model

| member | source | states |
|---|---|---|
| ContentServer.OverdueIds | server/index.js:86-103 | the selected ids are exactly the rows with status 'scheduled', is_scheduled true and a parsed scheduled_at at or before now |
| ContentServer.IsCandidate | server/index.js:86-91 | the store query: status 'scheduled', is_scheduled true and scheduled_at not null |
| ContentServer.IsOverdue | server/index.js:99-103 | a candidate whose parsed scheduled_at is at or before now; a NaN date is never overdue |
| ContentServer.Publish | server/index.js:119-128 | the columns the bulk update writes: published, not scheduled, no scheduled_at, published_at = updated_at = now |
| ContentServer.Sweep | server/index.js:119-130 | an overdue row becomes published, with is_scheduled false, scheduled_at null and published_at = updated_at = now; every other row is unchanged and no key is added or removed |
| ContentServer.SecondSweepSelectsNothing | server/index.js:100-130 | a second sweep at the same now selects no row |
| ContentServer.SweepIdempotent | server/index.js:119-130 | sweeping twice at the same now equals sweeping once |
| ContentServer.OverdueStaysOverdue | server/index.js:100-103 | a row that is due stays due at any later time |
| ContentServer.DueUnsweptPostWaitsForSweep | server/index.js:1265-1302 | a due post not yet swept passes both time filters and is listed without a status query, but the status=published listing leaves it out |
| ContentServer.SweptRowIsVisible | server/index.js:1266-1302 | a swept row passes both listing filters at any later time and is published |
| ContentServer.Store.AutoPublishOverdue | server/index.js:58-144 | on a query or update error, or with nothing due, the count is 0 and the table is unchanged; otherwise the table is swept and the count is the number of due rows |
| ContentServer.LinkError | server/index.js:920-936 | no error iff link_type is 'article' or 'stream' and link_title and link_url are non-blank |
| ContentServer.FirstLinkError | server/index.js:919-936 | no error iff every link is valid; otherwise the error of the first invalid link, every link before it being valid |
| ContentServer.AllLinksValid | server/index.js:918-934 | every link has type article or stream, a non-blank title and a non-blank URL |
| ContentServer.FirstErrorShift | server/index.js:918-934 | the first invalid link past a valid head is the first invalid link of the tail, one place on |
| ContentServer.ScheduleError | server/index.js:939-954 | no error iff the item is unscheduled, the date is absent, or the date parses and is after now; an error is a 400 |
| ContentServer.ValidateCreate | server/index.js:901-954 | no error iff role_name and title are non-blank, links is non-empty and valid, and the schedule check passes; an error is a 400 |
| ContentServer.CreateValid | server/index.js:900-953 | a create request passes iff the role and title are non-blank, there is a valid link, and a scheduled date is absent or parses to a time after now |
| ContentServer.Description | server/index.js:971 | present iff the description is given and non-blank, and then trimmed |
| ContentServer.NewRow | server/index.js:967-986 | trimmed role and title; scheduled: is_scheduled true, the parsed scheduled_at kept, status defaults to 'scheduled', no published_at; otherwise: is_scheduled false, scheduled_at null, published_at = now; created_at = updated_at = now |
| ContentServer.NewLinks | server/index.js:1003-1008 | one link row per input, with the new content id and trimmed title and url |
| ContentServer.ValidateUpdate | server/index.js:1055-1070 | no error iff is_scheduled is not true or scheduled_at is absent, or the date parses and is after now; an error is a 400 |
| ContentServer.LogFailure | server/index.js:962 | the log line fails, with 500 'Internal server error', iff scheduled_at is present but unparseable |
| ContentServer.ValidateCreateAsWritten | server/index.js:955-965 | the create route as written: the validation error if any, otherwise the log-line failure |
| ContentServer.UnscheduledBadDateFailsCreate | server/index.js:955-965 | a valid unscheduled create with an unparseable scheduled_at passes validation but fails with 500 as written |
| ContentServer.BadDateExample | server/index.js:955-965 | one concrete create request that validation accepts and the route as written rejects |
| ContentServer.ValidateUpdateAsWritten | server/index.js:1071-1081 | the update route as written: the validation error if any, otherwise the log-line failure |
| ContentServer.UnscheduledBadDateFailsUpdate | server/index.js:1071-1081 | an update that is not scheduled and carries an unparseable scheduled_at passes validation but fails with 500 as written |
| ContentServer.UpdatePatch | server/index.js:1084-1101 | only supplied fields are copied, title and description trimmed; is_scheduled true forces published_at null; status 'published' together with is_scheduled false forces published_at = now, scheduled_at null and is_scheduled false |
| ContentServer.ApplyPatch | server/index.js:1103-1108 | every field the patch carries replaces the row's, and the others are kept |
| ContentServer.PublishedByUpdateIsVisible | server/index.js:1096-1101 | an update to status 'published' with is_scheduled false leaves the row visible to the app filter, with published_at = now |
| ContentServer.LinksFor | server/index.js:1322-1336 | exactly the links whose content_id is the id, in fetched order |
| ContentServer.LinksForAppend | server/index.js:1322-1336 | grouping distributes over concatenation, so the fetched order is kept |
| ContentServer.GroupLinks | server/index.js:864-873 | the dictionary has a key iff some link carries it, and holds exactly that content's links in order |
| ContentServer.AttachLinks | server/index.js:876-879 | each item keeps its row and gets exactly its links, or [] |
| ContentServer.StoreQuery | server/index.js:1265-1282 | exactly the rows of the role, with status 'published' or null when asked for published, that pass the store-side time filter; never more rows than the table |
| ContentServer.StoreQueryAppend | server/index.js:1265-1282 | the store query distributes over concatenation, so it keeps the table's order and each row's multiplicity |
| ContentServer.AppFilter | server/index.js:1293-1302 | exactly the rows that are unscheduled, or scheduled with a parsed time at or before now; never more rows than it is given |
| ContentServer.AppFilterAppend | server/index.js:1293-1302 | the application filter distributes over concatenation, so it keeps order and multiplicity |
| ContentServer.VisibleRows | server/index.js:1258-1302 | the two layers compose to: the role's rows, visible to the app filter, and published or without a status when asked for published; never more rows than the table |
| ContentServer.VisibleRowsAppend | server/index.js:1258-1302 | the listing of two tables joined is the two listings joined: the listing keeps the store's order |
| ContentServer.VisibleRowsOne | server/index.js:1258-1302 | a single row is listed once exactly when it has the role, passes the app filter and the status condition, and otherwise not at all |
| ContentServer.ListUserContent | server/index.js:1221-1357 | an unknown user or a blank role gives []; a failed user or content query gives 500; a failed link query gives 500 'Failed to fetch links from database' when some row is visible; otherwise exactly the visible rows, in order, each with its own links |
| ContentServer.StoreTimeFilter | server/index.js:1277-1280 | the store-side filter: not scheduled, no scheduled_at, or scheduled_at <= now |
| ContentServer.AppVisible | server/index.js:1293-1302 | the application filter: not scheduled, or a scheduled_at that parses and has been reached |
| ContentServer.Store.Create | server/index.js:897-1040 | with the corrected validation, a validation error is returned as is; a failed insert gives 500 'Failed to create content' and no change; a failed link insert gives 500 'Failed to create links' with the links unchanged and the new row deleted again, or left in the table when that delete fails; otherwise the row and its links are added and returned |
| ContentServer.Store.Update | server/index.js:1043-1178 | with the corrected validation, a blank id or a validation error gives 400; a missing row or an update error gives 500; otherwise the row is patched; supplied links replace the item's links, a failed delete leaving the old links with 500 'Failed to delete existing links' and a failed insert leaving none with 500 'Failed to create new links' |
| ContentServer.WithoutContent | server/index.js:1121-1124 | exactly the links of other items remain, in order, and never more than before |
| ContentServer.WithoutContentAppend | server/index.js:1121-1124 | deleting an item's links from two tables joined is deleting them from each |
| ContentServer.NoLinksLeft | server/index.js:1121-1124 | after the delete the item has no links |
| ContentServer.ReplacedLinks | server/index.js:1119-1146 | after delete and insert the item's links are exactly the new ones |
| AdminApi.IsAdminInStore | server/index.js:33-55 | admin iff the lookup found the user with the joined role named 'admin'; errors count as not admin |
| AdminApi.AdminGate | server/index.js:221-240 | 401 iff neither the header nor the query carries an id; proceed iff an id is given and the user is an admin; otherwise 403 |
| AdminApi.OrDefault | server/index.js:315-316 | `parseInt(x) \|\| d`: the value when present and non-zero, the default otherwise |
| AdminApi.PageRange | server/index.js:351 | the range starts at the offset (default 0) and spans limit (default 10) rows |
| AdminApi.DefaultPage | server/index.js:315-351 | no parameters, or zeros, give rows 0..9 |
| AdminApi.PagesTile | server/index.js:315-351 | for any positive limit, consecutive pages from any offset are adjacent, with no gap and no overlap |
| AdminApi.NormalizeRoleName | server/index.js:647 | the stored name is the trimmed name with every character lower-cased: empty iff the name is blank, no surrounding white space, already lower case, never longer than the name |
| AdminApi.NewRole | server/index.js:631-651 | a blank name gives 400; otherwise the trimmed, lower-cased name, the description or null, and the colour or '#28a745' |
| AdminApi.InsertRoleError | server/index.js:654-667 | a unique violation (23505) gives 400, any other insert error 500 |
| AdminApi.NormalizeIdempotent | server/index.js:647 | normalising a stored name changes nothing |
| AdminApi.CaseAndSpacesCollide | server/index.js:647 | ' Admin ' and 'admin' are stored as the same name, so the second insert hits the unique constraint |
| AdminApi.DeleteRoleDecision | server/index.js:681-739 | success iff the id is given, the usage check succeeds with no user and the delete succeeds; a role in use gives 400 |
| AdminApi.RoleAssignment | server/index.js:760-777 | an absent or blank role id maps to null; a non-blank id must exist (else 400) and is stored as given |
| AdminApi.ValidatePrices | server/index.js:1726-1738 | no error iff every entry has tariff_key, title, price, original_price and a non-negative tariff_index; an error is a 400 |
| AdminApi.PriceValid | server/index.js:1726-1738 | an entry is valid iff tariff_key, title, price and original_price are non-empty and tariff_index is a number at least 0 |
| AdminApi.Updated | server/index.js:1746-1753 | one update writes title, price, original_price, description or null and updated_at = now into the row, and keeps its key |
| AdminApi.Later | server/index.js:1743 | moving one entry on brings a store error one position nearer, and past it there is none |
| AdminApi.RunUpdates | server/index.js:1743-1766 | the entries are applied in order, each to the row with its key, stopping with an error at the first unknown key or at the entry the store refuses; the lemmas below give its properties |
| AdminApi.RunKeepsKeys | server/index.js:1743-1766 | the update loop never adds or removes a row |
| AdminApi.RunFailsIffUnknownKey | server/index.js:1743-1766 | the loop fails iff some entry names a key the table lacks or the store refuses one of the entries |
| AdminApi.RunReturnsEntries | server/index.js:1743-1766 | a complete run returns one updated row per entry, carrying the entry's key and values |
| AdminApi.TariffPriceTable.UpdatePrices | server/index.js:1708-1780 | invalid input gives 400 and no change; otherwise the rows are updated in order, and an unknown key or a store error gives exactly 500 'Failed to update tariff price' with the earlier updates kept |
| Text.Trim | server/index.js:900 | `trim`: empty iff the string is blank, never longer, and neither starting nor ending with white space |
| Text.TrimIsSlice | server/index.js:900 | a non-blank string trims to its slice from the first non-space character to the last |
| Text.ToLower | server/index.js:647 | `toLowerCase`, character by character, same length |
| Text.StartsWith | src/hooks/useTelegramNavigation.ts:43-45 | `startsWith`: the prefix is the string's first characters |
| Text.Contains | src/components/Content/Content.tsx:88 | `includes`: the sub-string starts at some position |
| Text.ContainsAt | src/components/Content/Content.tsx:88 | `includes` holds iff the sub-string is the slice of the string at some position |
| Lists.FirstIndex | src/shared/lib/usersCache.ts:54 | `findIndex`: none iff no element satisfies the test; otherwise the first index that does |
| Lists.Find | src/hooks/useSettings.ts:69 | `find`: none iff no element satisfies the test; otherwise the first element that does |
| Lists.Filter | server/index.js:1293 | `filter`: only elements that pass, every element that passes, never longer |
| Api.IsAccessDenied | src/hooks/useAdminUsers.ts:70 | an error message is an access denial iff it contains 'Access denied' or '403' |
| UsersCache.Fresh | src/shared/lib/usersCache.ts:15-27 | users are returned iff an entry exists and now is at or before expiresAt |
| UsersCache.AfterGet | src/shared/lib/usersCache.ts:21-24 | an expired entry is dropped; a fresh one is kept |
| UsersCache.Stored | src/shared/lib/usersCache.ts:30-36 | the entry holds the users, timestamp = now and expiresAt = now + 600000 |
| UsersCache.WithUser | src/shared/lib/usersCache.ts:49-58 | only the first user with the id is replaced; the length and the timestamps are kept; no entry or no match means no change |
| UsersCache.SecondsLeft | src/shared/lib/usersCache.ts:66-73 | 0 without an entry or once expired; otherwise the whole seconds left, rounded down |
| UsersCache.LastUpdate | src/shared/lib/usersCache.ts:61-63 | the timestamp when an entry exists (a zero timestamp reads as none) |
| UsersCache.StoredLifetime | src/shared/lib/usersCache.ts:12-36 | stored users are returned up to and including now = t + 600000, and not after |
| UsersCache.SecondsLeftOfStored | src/shared/lib/usersCache.ts:66-73 | the seconds left never exceed 600 and never grow as time passes |
| UsersCache.MissIsSticky | src/shared/lib/usersCache.ts:15-27 | after a miss the cache stays empty at every later time |
| UsersCache.UsersCacheManager.constructor | src/shared/lib/usersCache.ts:11 | the cache starts empty |
| UsersCache.UsersCacheManager.GetUsers | src/shared/lib/usersCache.ts:15-27 | returns the fresh users and drops an expired entry |
| UsersCache.UsersCacheManager.SetUsers | src/shared/lib/usersCache.ts:30-36 | replaces the entry by the stored users |
| UsersCache.UsersCacheManager.Clear | src/shared/lib/usersCache.ts:39-41 | the cache is empty |
| UsersCache.UsersCacheManager.HasUsers | src/shared/lib/usersCache.ts:44-46 | true iff getUsers would return users |
| UsersCache.UsersCacheManager.UpdateUser | src/shared/lib/usersCache.ts:49-58 | the entry becomes WithUser of the old one |
| UsersCache.UsersCacheManager.GetLastUpdateTime | src/shared/lib/usersCache.ts:61-63 | the stored timestamp, or none |
| UsersCache.UsersCacheManager.GetTimeToExpire | src/shared/lib/usersCache.ts:66-73 | whole seconds until expiry, 0 with no entry |
| UserRoleCache.Lookup | src/shared/lib/userRoleCache.ts:15-29 | a role is returned iff the id has an entry and now is at or before its expiresAt |
| UserRoleCache.AfterLookup | src/shared/lib/userRoleCache.ts:23-26 | only this id's entry is deleted, and only when expired |
| UserRoleCache.WithRole | src/shared/lib/userRoleCache.ts:32-38 | the id maps to (role, now, now + 300000); other ids are unchanged |
| UserRoleCache.SetThenLookup | src/shared/lib/userRoleCache.ts:12-38 | a role set at t is read back until t + 300000 and not after |
| UserRoleCache.OtherIdsUnaffected | src/shared/lib/userRoleCache.ts:15-43 | set, clear and expiry deletion of one id do not change what another id reads |
| UserRoleCache.ExpiryDeletionUnobservable | src/shared/lib/userRoleCache.ts:23-26 | deleting an expired entry changes no later answer |
| UserRoleCache.UserRoleCacheManager.constructor | src/shared/lib/userRoleCache.ts:11 | the cache starts empty |
| UserRoleCache.UserRoleCacheManager.GetRole | src/shared/lib/userRoleCache.ts:15-29 | returns the fresh role and deletes an expired entry |
| UserRoleCache.UserRoleCacheManager.SetRole | src/shared/lib/userRoleCache.ts:32-38 | stores the role with a five-minute lifetime |
| UserRoleCache.UserRoleCacheManager.ClearRole | src/shared/lib/userRoleCache.ts:41-43 | removes the id; it reads as null at every time |
| UserRoleCache.UserRoleCacheManager.ClearAll | src/shared/lib/userRoleCache.ts:46-48 | every id reads as null at every time |
| UserRoleCache.UserRoleCacheManager.HasRole | src/shared/lib/userRoleCache.ts:51-53 | true iff getRole would return a role |
| AdminUsers.RequestOffset | src/hooks/useAdminUsers.ts:47 | 0 on reset, the current offset otherwise |
| AdminUsers.CachedPage | src/hooks/useAdminUsers.ts:51-61 | the first ten cached users, or all of them when fewer |
| AdminUsers.CacheHitReportsOnePage | src/hooks/useAdminUsers.ts:51-95 | the entry a first page load stores, read back within ten minutes, serves that same page with its length as the total and no further pages, where the server reported more |
| AdminUsers.RoleName | src/hooks/useAdminUsers.ts:156-161 | the returned role's name, or '' |
| AdminUsers.WithRole | src/hooks/useAdminUsers.ts:156-161 | the user keeps its identity and gets the role id, role name and update time |
| AdminUsers.ReplaceById | src/hooks/useAdminUsers.ts:163-165 | same length; users with the id become the updated record, all others are kept |
| AdminUsers.ReplaceKeepsIds | src/hooks/useAdminUsers.ts:163-165 | the list of ids is unchanged |
| AdminUsers.AdminUsersState.constructor | src/hooks/useAdminUsers.ts:8-19 | empty list, initial loading, hasMore true, offset 0 |
| AdminUsers.AdminUsersState.FetchUsers | src/hooks/useAdminUsers.ts:24-105 | (stated as the two-state predicate `Fetched`) a reset or initial load replaces the list by the page and sets the offset to its length; a later load appends and advances; hasMore = request offset + page length < total; an initial unforced load with a non-empty cache serves the first ten cached users; an access-denied error sets accessDenied instead of error; no Telegram id gives its error and keeps the total and the cache |
| AdminUsers.AdminUsersState.LoadMoreUsers | src/hooks/useAdminUsers.ts:108-112 | nothing while loadingMore or without more pages; otherwise exactly the outcome of fetchUsers(false, false), so a page is appended, and a failure, an empty answer or a missing id are reported as fetchUsers reports them |
| AdminUsers.AdminUsersState.UpdateUserRole | src/hooks/useAdminUsers.ts:136-182 | a failure sets the error and changes nothing; success replaces the user by id in the list and in the cache, keeping the length |
| AdminPage.RelativeTime | src/components/Admin/Admin.tsx:20-55 | each bucket holds exactly its range of differences (under a minute, under an hour, under a day, under 7, 30 and 365 days, later), and its count n is the floor of the difference in its unit: n units <= difference < n + 1 units |
| AdminPage.FormatDateTime | src/components/Admin/Admin.tsx:12-57 | a missing date gives 'Не указано', an unparseable one 'Некорректная дата', otherwise the relative bucket of now minus the date |
| AdminPage.FutureIsJustNow | src/components/Admin/Admin.tsx:38-39 | any future date reads 'только что' |
| AdminPage.JustNowOnlyWithinAMinute | src/components/Admin/Admin.tsx:38-39 | 'только что' only within a minute before now (or later) |
| AdminPage.LoadMoreTrigger | src/components/Admin/Admin.tsx:118-129 | the scroll condition: within 1000 px of the bottom, more pages remain, and no load is in progress |
| AdminPage.HandleScroll | src/components/Admin/Admin.tsx:118-129 | nothing unless the distance from the bottom is at most 1000, hasMore holds and neither load is in progress; then exactly the outcome of fetchUsers(false, false) |
| ActivityStats.Percentage | src/components/Admin/UserActivityStats.tsx:57-59 | Math.round(value / total * 100) on exact rationals for a positive total, 0 otherwise; the lemmas below give its rounding and bounds |
| ActivityStats.PercentageIsNearest | src/components/Admin/UserActivityStats.tsx:57-59 | the result is within one half of 100·value/total, halves rounding up |
| ActivityStats.NoTotalIsZero | src/components/Admin/UserActivityStats.tsx:58 | a total at or below 0 gives 0 |
| ActivityStats.AllIsHundred | src/components/Admin/UserActivityStats.tsx:58 | value = total > 0 gives 100 |
| ActivityStats.NoneIsZero | src/components/Admin/UserActivityStats.tsx:58 | value 0 gives 0 |
| ActivityStats.PercentageMonotone | src/components/Admin/UserActivityStats.tsx:58 | for a fixed total the result does not decrease as the value grows |
| ActivityStats.PercentageBounds | src/components/Admin/UserActivityStats.tsx:58 | for 0 ≤ value ≤ total the result lies in [0, 100] |
| SettingsHook.SettingValue | src/hooks/useSettings.ts:68-71 | the value of the first setting with the key, none iff no setting has it |
| SettingsHook.WithValue | src/hooks/useSettings.ts:51-57 | same length; entries with the key take the value and the update time, all others are kept |
| SettingsHook.ReadYourWrite | src/hooks/useSettings.ts:51-71 | after an update the key reads as the new value whenever it exists |
| SettingsHook.OtherKeysUnchanged | src/hooks/useSettings.ts:51-71 | an update leaves every other key's value as it was |
| SettingsHook.Settings.constructor | src/hooks/useSettings.ts:6-8 | empty list, loading, no error |
| SettingsHook.Settings.FetchSettings | src/hooks/useSettings.ts:11-35 | data replaces the list; an error is recorded and the list is kept; loading ends |
| SettingsHook.Settings.UpdateSetting | src/hooks/useSettings.ts:37-66 | true iff the request succeeded, and then the list is WithValue of the old one; otherwise the list is unchanged and the error set |
| SettingsHook.Settings.GetSettingValue | src/hooks/useSettings.ts:68-71 | the value of the first setting with the key, none iff no setting has it |
| DateSettings.Sanitized | src/components/Admin/DateSettings.tsx:25-30 | the first five of the input's digits and dots, in order: a prefix of the filtered input, of length min(5, its length) |
| DateSettings.SanitizedIsStable | src/components/Admin/DateSettings.tsx:25-30 | sanitising a sanitised value changes nothing |
| DateSettings.DeadlineInput | src/components/Admin/DateSettings.tsx:23-45 | a 2-character value without '.' gets '.' appended; a 5-character value not shaped like `\d{1,2}\.\d{1,2}` is refused; the stored value has at most 5 digits and dots |
| DateSettings.InputValue | src/components/Admin/DateSettings.tsx:19-46 | other keys are stored unchanged; bonus_deadline goes through the deadline rules |
| DateSettings.ValidDate | src/components/Admin/DateSettings.tsx:48-65 | validateDateInput: five characters matching D.M with one or two digits each, day 1-31 and month 1-12 |
| DateSettings.ValidDateIsDayMonth | src/components/Admin/DateSettings.tsx:48-65 | valid iff the value is D.M, with one or two digits each, day 1..31, month 1..12 and length 5 |
| DateSettings.BackspaceRestoresDot | src/components/Admin/DateSettings.tsx:33-35 | deleting the dot from '02.' puts it straight back |
| DateSettings.SaveDecision | src/components/Admin/DateSettings.tsx:78-91 | save proceeds iff a user is known, a bonus_deadline value is empty or a valid date, and a bonus_text value is non-blank |
| DateSettings.EmptyDeadlineSaves | src/components/Admin/DateSettings.tsx:82 | the client's guards let an empty deadline through to the update request |
| DateSettings.AfterSave | src/components/Admin/DateSettings.tsx:97-100 | the editor is cleared only on success |
| PriceSettings.InputValue | src/components/Admin/PriceSettings.tsx:25-40 | other keys unchanged; tariff_price keeps only digits, '.' and ',' and at most the first 20 of them |
| PriceSettings.SanitizedIsStable | src/components/Admin/PriceSettings.tsx:29-36 | sanitising a sanitised price changes nothing |
| PriceSettings.Overlay | src/components/Admin/PriceSettings.tsx:111-115 | the edit's fields replace the price's, the id and key are kept |
| PriceSettings.SaveDecision | src/components/Admin/PriceSettings.tsx:89-106 | save proceeds iff a user and an edited price exist and title, price and original price are non-blank |
| PriceSettings.MergedPrices | src/components/Admin/PriceSettings.tsx:111-115 | same length; only entries with the edited id change, overlaid with the edit |
| PriceSettings.AfterSave | src/components/Admin/PriceSettings.tsx:120-125 | the edit state is cleared only on success |
| ErrorCollector.Without | src/hooks/useErrorCollector.ts:34-36 | exactly the entries with another id remain |
| ErrorCollector.WithoutDistributes | src/hooks/useErrorCollector.ts:34-36 | removal distributes over concatenation, so the kept entries stay in order |
| ErrorCollector.WithoutAbsent | src/hooks/useErrorCollector.ts:34-36 | removing an id nothing carries changes nothing |
| ErrorCollector.AddThenRemove | src/hooks/useErrorCollector.ts:14-36 | removing the id of the error just added drops it together with earlier entries of that id |
| ErrorCollector.Collector.constructor | src/hooks/useErrorCollector.ts:12 | the list starts empty |
| ErrorCollector.Collector.AddError | src/hooks/useErrorCollector.ts:14-32 | exactly one entry is appended, without deduplication |
| ErrorCollector.Collector.RemoveError | src/hooks/useErrorCollector.ts:34-36 | the list becomes Without of the old one |
| ErrorCollector.Collector.ClearAllErrors | src/hooks/useErrorCollector.ts:38-40 | the list is empty |
| ContentClient.SplitDay | src/components/Content/Content.tsx:323-325 | the difference splits into days, hours in 0..23 and minutes in 0..59 |
| ContentClient.TimeRemaining | src/components/Content/Content.tsx:314-334 | auto-publishing iff the difference is ≤ 0; days and hours iff at least a day; hours and minutes iff at least an hour; minutes otherwise; each count is the floor of its part |
| ContentClient.SetField | src/components/Content/Content.tsx:268-275 | only the named field changes |
| ContentClient.RemoveAt | src/components/Content/Content.tsx:261-266 | exactly the position is removed and the others keep their order |
| ContentClient.UpdateAt | src/components/Content/Content.tsx:268-275 | only the named field of the link at the position changes |
| ContentClient.AddThenRemove | src/components/Content/Content.tsx:254-266 | removing the link just added restores the links |
| ContentClient.EmptyForm | src/components/Content/Content.tsx:185-192 | the reset form keeps the role and is otherwise empty and unscheduled |
| ContentClient.CreateCheck | src/components/Content/Content.tsx:129-153 | the form passes iff the title is non-blank, links exist, and a scheduled form has a date that is not at or before now |
| ContentClient.PostData | src/components/Content/Content.tsx:159-175 | the request carries the form, with status 'scheduled' or 'published' and no date when unscheduled |
| ContentClient.FormDatePassesServer | src/components/Content/Content.tsx:129-175 | a form the client accepts, with a parseable or absent date, passes the server's schedule check |
| ContentClient.MalformedDateReachesServer | src/components/Content/Content.tsx:146-153 | an unparseable scheduled date passes the client and is refused by the server |
| ContentClient.UnscheduledMessageEndsWithFalse | src/components/Content/Content.tsx:195-198 | as written, an unscheduled post's success message ends in 'false' |
| ContentClient.CreatedMessage | src/components/Content/Content.tsx:195-198 | unscheduled: just the success text; scheduled with a date: the text and the scheduled time |
| ContentClient.CreatedMessageAsWritten | src/components/Content/Content.tsx:195-198 | the success message as the code builds it: an unscheduled post gets 'false' appended |
| ContentClient.CreatedMessageDiffersOnlyUnscheduled | src/components/Content/Content.tsx:195-198 | the corrected message differs from the written one exactly for unscheduled posts |
| ContentClient.ReplaceById | src/components/Content/Content.tsx:220-222 | same length; items with the id become the updated item |
| ContentClient.RemoveById | src/components/Content/Content.tsx:246 | exactly the items with other ids remain |
| ContentClient.RemoveByIdAppend | src/components/Content/Content.tsx:246 | removal distributes over concatenation, keeping order |
| ContentClient.RemoveAbsentId | src/components/Content/Content.tsx:246 | removing an absent id changes nothing |
| ContentClient.ContentManager.constructor | src/components/Content/Content.tsx:12-29 | empty list and form, nothing selected, nothing loading |
| ContentClient.ContentManager.AddLink | src/components/Content/Content.tsx:254-259 | one blank article link is appended and nothing else changes |
| ContentClient.ContentManager.RemoveLink | src/components/Content/Content.tsx:261-266 | the form's links become RemoveAt of the old ones |
| ContentClient.ContentManager.UpdateLink | src/components/Content/Content.tsx:268-275 | the form's links become UpdateAt of the old ones |
| ContentClient.ContentManager.HandleCreate | src/components/Content/Content.tsx:126-207 | a failed check sets its error and sends nothing; a created item is prepended, the form reset and the corrected message shown; a failure keeps list and form |
| ContentClient.ContentManager.HandleUpdate | src/components/Content/Content.tsx:209-229 | an updated item replaces its id and ends editing; a failure keeps the list |
| ContentClient.ContentManager.HandleDelete | src/components/Content/Content.tsx:231-252 | nothing without confirmation; a failure keeps the list; success removes the id |
| UserContentView.DisplayFilter | src/components/UserContent/UserContent.tsx:162-175 | exactly the items with no status or status 'published' remain |
| UserContentView.PublishedListingFullyShown | src/components/UserContent/UserContent.tsx:79-88 | on a listing fetched with status=published the display filter removes nothing |
| UserContentView.MergeOne | src/components/UserContent/UserContent.tsx:34-37 | same length and ids; the first local item with the post's id becomes the post; an unmatched post is not added |
| UserContentView.Merge | src/components/UserContent/UserContent.tsx:31-39 | same length and ids; every item is unchanged or a returned post; items no post matches are unchanged |
| UserContentView.LastPostIsApplied | src/components/UserContent/UserContent.tsx:33-38 | a post with a local match, not overridden by a later post with its id, is in the merged list |
| UserContentView.UserContentPage.constructor | src/components/UserContent/UserContent.tsx:11-14 | empty content and role, loading, no error |
| UserContentView.UserContentPage.FetchUserContent | src/components/UserContent/UserContent.tsx:67-95 | no user id sets the error; a failure sets the error; data replaces content and role; loading ends |
| UserContentView.UserContentPage.ApplyAutoPublished | src/components/UserContent/UserContent.tsx:29-41 | content changes only when published > 0, and then becomes the merge of the posts |
| UserContentView.UserContentPage.Render | src/components/UserContent/UserContent.tsx:113-175 | loading, then the error's message, then no role, then empty iff there is no content, then the filtered cards iff there is some, each view exactly under its condition |
| RolesPage.DedupeAppend | src/components/Roles/Roles.tsx:112-118 | the list is unchanged if the id is listed, otherwise the role is appended at the end |
| RolesPage.DedupeKeepsIdsDistinct | src/components/Roles/Roles.tsx:112-118 | distinct ids stay distinct |
| RolesPage.DedupeIdempotent | src/components/Roles/Roles.tsx:112-118 | a second delivery of the same role changes nothing |
| RolesPage.DedupeListsCreated | src/components/Roles/Roles.tsx:112-118 | the ids afterwards are the ids before plus the created one |
| RolesPage.Roles.constructor | src/components/Roles/Roles.tsx:12-24 | empty list, no error, the form's default colour '#28a745' |
| RolesPage.Roles.FetchAllRoles | src/components/Roles/Roles.tsx:43-83 | a non-admin gets accessDenied; no user id sets an error; an access-denied message sets accessDenied rather than error; data replaces the list |
| RolesPage.Roles.RefreshRoles | src/components/Roles/Roles.tsx:87-90 | the list is emptied, then is the fetched list or stays empty; a non-admin is denied, a missing id or a failed fetch sets the error, an access-denied failure sets accessDenied instead |
| RolesPage.Roles.HandleCreateRole | src/components/Roles/Roles.tsx:92-130 | a blank name is refused with no request; a failed create shows its message; a created role is dedupe-appended, the form reset, then the list refetched, with error and accessDenied set by the refetch's outcome as in FetchAllRoles; on a blank name, a failed create or no data the form stays open and accessDenied is unchanged |
| AdminAccess.DigitChar | src/hooks/useAdminCheck.ts:57 | the character of a decimal digit, whose digit value is that digit |
| AdminAccess.NatString | src/hooks/useAdminCheck.ts:57 | `String(n)` for n >= 0: non-empty decimal digits without a leading zero, whose decimal value is n |
| AdminAccess.IdKey | src/hooks/useAdminCheck.ts:57 | `String(id)`: the digits of the id, with a leading '-' exactly for a negative id |
| AdminAccess.IdKeyInjective | src/hooks/useAdminCheck.ts:57 | two ids with the same cache key are the same id |
| AdminAccess.IsAdminFor | src/hooks/useAdminCheck.ts:14-36 | isAdmin: an id is present and is an admin id, or the role is exactly 'ADMIN' or 'admin' |
| AdminAccess.ContentAccessFor | src/hooks/useAdminCheck.ts:40-47 | hasContentAccess: an id is present and the role is non-blank or is the admin role |
| AdminAccess.NoIdNoAccess | src/hooks/useAdminCheck.ts:14-47 | without a telegram id, neither admin nor content access |
| AdminAccess.AdminIdIsAdmin | src/hooks/useAdminCheck.ts:12-36 | an id in [748516935, 1750233627] is admin whatever the role |
| AdminAccess.OnlyExactAdminRole | src/hooks/useAdminCheck.ts:26 | for other ids, admin iff the role is exactly 'ADMIN' or 'admin'; 'Admin' is not |
| AdminAccess.ContentAccessIsNonBlankRole | src/hooks/useAdminCheck.ts:40-47 | content access iff an id is present and the trimmed role is non-empty |
| AdminAccess.Classify | src/hooks/useAdminCheck.ts:75-88 | a response without a user changes nothing; a user with role_id and a joined role names it; otherwise no role |
| AdminAccess.RoleAfter | src/hooks/useAdminCheck.ts:75-88 | the role stays, becomes the name, or becomes '' |
| AdminAccess.CacheAfter | src/hooks/useAdminCheck.ts:82-83 | only a named role is written to the cache |
| AdminAccess.AdminCheck.constructor | src/hooks/useAdminCheck.ts:7-8 | empty role, loading |
| AdminAccess.AdminCheck.FetchUserRole | src/hooks/useAdminCheck.ts:49-101 | no id ends loading; a fresh cached role is used without asking the server; otherwise the response decides the role and the cache; loading ends by timer |
| AdminAccess.AdminCheck.RefreshRole | src/hooks/useAdminCheck.ts:106-134 | the cache entry is cleared before the server is asked again; without a named role nothing is left cached |
| AdminAccess.AdminCheck.FireLoadingTimer | src/hooks/useAdminCheck.ts:94-96 | a pending timer ends loading |
| AdminAccess.AdminCheck.IsAdmin | src/hooks/useAdminCheck.ts:14-36 | the hook's isAdmin on its current id and role |
| AdminAccess.AdminCheck.HasContentAccess | src/hooks/useAdminCheck.ts:40-47 | the hook's hasContentAccess on its current id and role |
| UserRoleHook.HasRoleFor | src/hooks/useUserRole.ts:68 | hasRole with JavaScript's grouping: a non-blank role once loaded, or the admin role at any time |
| UserRoleHook.AdminRoleWhileLoading | src/hooks/useUserRole.ts:68 | 'ADMIN' and 'admin' count as a role even while loading |
| UserRoleHook.OtherRoleNeedsLoading | src/hooks/useUserRole.ts:68 | any other role counts iff loading is over and it is non-blank |
| UserRoleHook.UserRole.constructor | src/hooks/useUserRole.ts:7-9 | empty role, loading, no error |
| UserRoleHook.UserRole.FetchUserRole | src/hooks/useUserRole.ts:17-65 | a cache hit sets the role without asking the server; an error sets error and keeps the role; otherwise the response decides role and cache |
| UserRoleHook.UserRole.RefreshRole | src/hooks/useUserRole.ts:73-81 | the cached role is cleared, then the server is asked again |
| UserRoleHook.UserRole.HasRole | src/hooks/useUserRole.ts:68 | the hook's hasRole on its current loading flag and role |
| MainButtons.CachedFlags | src/components/Main/Main.tsx:33-48 | showAdmin iff an admin id or an admin cached role; showEducation iff a non-blank cached role |
| MainButtons.Effect | src/components/Main/Main.tsx:27-55 | no id leaves the flags; while loading the cache decides; afterwards isAdmin and hasContentAccess override |
| MainButtons.OverrideAgreesWithCache | src/components/Main/Main.tsx:45-54 | when the cached role is the loaded one, the override shows the same buttons |
| RouteGuard.Guard | src/components/ProtectedRoute/ProtectedRoute.tsx:16-69 | children iff admin, or done loading and not admin-only; nothing iff not admin and loading; the denial screen otherwise, with the id panel iff an id is present |
| RouteGuard.AdminIdNeverDenied | src/components/ProtectedRoute/ProtectedRoute.tsx:16-18 | an id in the admin list always sees the children |
| TelegramNavigation.OtherExternal | src/hooks/useTelegramNavigation.ts:64-73 | openLink in the Telegram app off mobile; the same window on mobile; otherwise a new window |
| TelegramNavigation.SafeNavigate | src/hooks/useTelegramNavigation.ts:42-76 | '/' paths go to the router; teletype.in links open a new window; t.me links follow the user agent; other http links follow OtherExternal; anything else does nothing |
| TelegramNavigation.OpenExternalLink | src/hooks/useTelegramNavigation.ts:79-104 | it always opens the url; teletype.in links open a new window; t.me links open a new window on tdesktop and the same window otherwise |
| TelegramNavigation.AgreeOffTelegram | src/hooks/useTelegramNavigation.ts:42-104 | on http links other than t.me the two functions agree |
| TelegramNavigation.DisagreeOnTelegram | src/hooks/useTelegramNavigation.ts:50-90 | on a t.me link they can disagree, one going by the user agent and the other by the platform |
| TelegramNavigation.AfterPath | src/hooks/useTelegramNavigation.ts:12-39 | the button is shown iff the path is neither '/' nor ''; an inner path registers one new callback; the root path unregisters only the stored one |
| TelegramNavigation.EarlierCallbackStaysRegistered | src/hooks/useTelegramNavigation.ts:16-36 | after two inner routes and a return home, the first callback is still registered |
| TelegramNavigation.BackButtonEffect.constructor | src/hooks/useTelegramNavigation.ts:8 | nothing registered |
| TelegramNavigation.BackButtonEffect.Run | src/hooks/useTelegramNavigation.ts:12-39 | without a WebApp nothing changes; otherwise the state becomes AfterPath of the old one |
| ButtonDispatch.ClassName | src/components/Button/Button.tsx:29 | a string style is appended to the base class |
| ButtonDispatch.Inline | src/components/Button/Button.tsx:30 | only an object style becomes the inline style |
| ButtonDispatch.StyleGoesOneWay | src/components/Button/Button.tsx:29-30 | a style never reaches both the class and the inline style |
| ButtonDispatch.HandleClick | src/components/Button/Button.tsx:32-70 | onClick wins; with no href nothing happens; the channel link uses openLink on tdesktop (a new window without it) and the same window otherwise; teletype.in opens a new window; the rest goes to openExternalLink or safeNavigate |
| ButtonDispatch.ClickOpensItsHref | src/components/Button/Button.tsx:32-70 | whatever the button opens is its own href |
| BackButtonLock.Lock.constructor | src/hooks/useTelegramBackButton.ts:11-13 | unlocked, button shown, no navigation |
| BackButtonLock.Lock.Click | src/hooks/useTelegramBackButton.ts:14-33 | locked: ignored; unlocked: one navigation to the target, the button hidden, the lock set and its timer pending; the invariant gives at most one navigation between releases |
| BackButtonLock.Lock.FireRelease | src/hooks/useTelegramBackButton.ts:29-32 | only the timer releases the lock, and it navigates nothing |
| Carousel.Forward | src/components/Tariff/Tariff.tsx:456 | (i+1) mod n stays in [0, n): i+1, or 0 from the last slide |
| Carousel.Backward | src/components/Tariff/Tariff.tsx:479 | (i-1+n) mod n stays in [0, n): i-1, or n-1 from the first slide |
| Carousel.ForwardBackward | src/components/Tariff/Tariff.tsx:452-496 | next and prev undo each other |
| Carousel.KeyTarget | src/components/Tariff/Tariff.tsx:503-509 | ArrowLeft moves back iff i > 0, ArrowRight forward iff i < n-1; keys never wrap |
| Carousel.LeftShown | src/components/Tariff/Tariff.tsx:717 | the left button is rendered iff the index is above 0 |
| Carousel.RightShown | src/components/Tariff/Tariff.tsx:736 | the right button is rendered iff the index is below n - 1 |
| Carousel.ButtonsMatchKeys | src/components/Tariff/Tariff.tsx:717-736 | the left button shows iff ArrowLeft would move, the right iff ArrowRight would |
| Carousel.ShouldTrigger | src/components/Tariff/Tariff.tsx:566-572 | a swipe fires iff the offset is more than 20 px either way, whatever the screen width |
| Carousel.SwipeTarget | src/components/Tariff/Tariff.tsx:577-605 | a drag to the right goes back iff i > 0, to the left forward iff i < n-1 |
| Carousel.SwipeMatchesKeys | src/components/Tariff/Tariff.tsx:503-605 | a fired swipe goes where the arrow key of its direction would |
| Carousel.Clamp | src/components/Tariff/Tariff.tsx:547-548 | the offset is limited to ±30% of the screen width and otherwise kept |
| Carousel.Progress | src/components/Tariff/Tariff.tsx:41-70 | the bar is in (0, 100] and full iff on the last slide |
| Carousel.Slider.constructor | src/components/Tariff/Tariff.tsx:247-263 | first slide, nothing animating, no swipe |
| Carousel.Slider.Next | src/components/Tariff/Tariff.tsx:452-473 | ignored while animating; otherwise the index moves forward modulo n and a step timer is pending |
| Carousel.Slider.Prev | src/components/Tariff/Tariff.tsx:475-496 | ignored while animating; otherwise the index moves back modulo n and a step timer is pending |
| Carousel.Slider.KeyDown | src/components/Tariff/Tariff.tsx:499-510 | ignored while animating or at the boundary; otherwise one step by the key, never wrapping |
| Carousel.Slider.TouchStart | src/components/Tariff/Tariff.tsx:519-529 | ignored while animating; otherwise the start point is taken and the swipe armed |
| Carousel.Slider.TouchMove | src/components/Tariff/Tariff.tsx:532-561 | ignored unless armed and idle; a horizontal drag of more than 20 px moves the clamped offset |
| Carousel.Slider.TouchEnd | src/components/Tariff/Tariff.tsx:563-613 | ignored unless armed and idle; otherwise animating, with a move to the swipe target when it fires, and the swipe disarmed |
| Carousel.Slider.FireTimer | src/components/Tariff/Tariff.tsx:457-472 | the oldest pending timer completes: a step ends the animation (bumping buttonKey on the Roadmap), a swipe commits its target, a release ends the animation |
| TariffCarousel.PlanAt | src/components/Tariff/Tariff.tsx:400-436 | position 1 gets the support features, 2 the group features, the rest the individual ones |
| TariffCarousel.CardFor | src/components/Tariff/Tariff.tsx:400-413 | a backend price becomes a card with its title, price and original price, the features of its position and its description or '' |
| TariffCarousel.Cards | src/components/Tariff/Tariff.tsx:400-436 | one card per backend price, or exactly the three fallback tariffs without prices |
| TariffCarousel.FallbackPlansByPosition | src/components/Tariff/Tariff.tsx:400-436 | the fallback cards carry the features of their positions |
| TariffCarousel.ProgressColor | src/components/Tariff/Tariff.tsx:45-52 | 0 → #4CAF50, 1 → #FFC107, 2 → #F44336, otherwise '' |
| TariffCarousel.FallbackSlidesColoured | src/components/Tariff/Tariff.tsx:45-52 | every fallback slide has a colour |
| InsideCarousel.SlideAt | src/components/Inside/Inside.tsx:610-625 | slides below the month count show that month; slide 3 shows the final card |
| InsideCarousel.EverySlideRenders | src/components/Inside/Inside.tsx:277-310 | each of the 4 steps renders something; the final card is the last step, exactly where the bar is full |
| RoadmapCarousel.SlideAt | src/components/Roadmap/Roadmap.tsx:519-530 | slides below 5 show their step card; slide 5 shows the final result |
| RoadmapCarousel.TariffButtonShown | src/components/Roadmap/Roadmap.tsx:551 | the TARIFF button is rendered iff the current slide is the one after the six steps |
| RoadmapCarousel.FinalSlideOffersTariffs | src/components/Roadmap/Roadmap.tsx:551 | the TARIFF button shows iff on the final result, where the right arrow is gone and the bar is full |
| RoadmapCarousel.PriceText | src/components/Roadmap/Roadmap.tsx:287-288 | the tariff_price setting between the fixed prefix and suffix when it is non-empty, '15.970' otherwise |
| RoadmapCarousel.PriceTextCarriesPrice | src/components/Roadmap/Roadmap.tsx:287-288 | the price line carries the tariff_price setting, or '15.970' when it is missing or empty |

The Inside and Roadmap pages use the same `Carousel.Slider`. Their counterparts are:

- `nextMonth`/`prevMonth` (src/components/Inside/Inside.tsx:337-381) and `nextStep`/`prevStep` (src/components/Roadmap/Roadmap.tsx:422-466) for the step moves;
- their key handlers (Inside.tsx:390-400, Roadmap.tsx:470-480);
- their touch handlers (Inside.tsx:464-580, Roadmap.tsx:313-419).

Each page builds the slider with its own count: `|Cards(prices)|` on the Tariff page, 4 on the Inside page and 6 on the Roadmap page. Only the Roadmap page bumps buttonKey.

## Left out

- Storage, HTTP and middleware: the hosted database and Express routing are not modelled. The content table is a `map` and the link table a `seq`. Query outcomes are inputs, as described at the top.
- The server's `setInterval` for the reconciler and concurrent sweeps are not modelled. Each sweep is one call of `AutoPublishOverdue`.
- Client timers are not scheduled; each firing is an explicit method. This covers the carousel step, swipe and release timers, the loading timers of `useAdminCheck`, the back-button lock, and the refresh intervals of the content pages.
- AdminUsers.AdminUsersState.UpdateUserRole: the delayed refetch after one second (src/hooks/useAdminUsers.ts:171-173) and the delayed clearing of the success message are not modelled. The caller may run `FetchUsers` afterwards.
- `fetchRoles` and `getCacheInfo` in src/hooks/useAdminUsers.ts are not modelled: a plain pass-through fetch and a diagnostics read.
- `handleDeleteRole` in src/components/Roles/Roles.tsx is not modelled. It is an HTTP call followed by a full refetch, which `FetchAllRoles` already covers.
- Exceptions thrown inside the client handlers are not modelled. The fetch wrapper turns every failure into an error value, so each response is `Data`, `NoData` or `Failed`.
- Locale and calendar formatting is not modelled: `toLocaleDateString` and `toLocaleTimeString`, the Moscow +3h date rendering of the content page, and ISO strings in logs. Times stay integer milliseconds, and `Stamped` carries the instant.
- ContentServer.NewRow: the scheduled_at string is stored as the client sent it. The model stores the parsed instant.
- The `!prices || !Array.isArray(prices)` check of the tariff-prices route is not modelled, because the input is already a sequence.
- Updated links on content update are not validated by the server, and a link without `link_title` would crash its `trim`. The model's `LinkInput` always has both strings.
- ActivityStats: `Math.round` is modelled on exact rationals. Floating-point rounding of `value / total * 100` is not modelled.
- Carousel: swipe geometry uses exact reals, and `window.innerWidth` is a parameter. The progress bar is a real percentage.
- Carousel: the first-render entrance animation, the DOM scroll-to-top after a move and the word-strike effect are not modelled.
- Carousel: React batches the state updates. The model applies the `currentSlide` sync effect in the same step that changes the index.
- TelegramNavigation: the user-agent regex and the device hook become the booleans of `Env`, and the Telegram WebApp calls become `Action` values.
- Carousel and TelegramNavigation: the description and highlight rendering of slides, and every other presentational part of the pages, are not modelled.
- UsersCache: `setUsers` stores a copy, and an aliased array never reaches the cache. Because the model's sequences are values, this holds by construction.
- `users_cache` and `user_role_cache` read `Date.now()`; the model passes `now` explicitly.
- The comment at server/index.js:1277-1278 says a post is shown once its publication time has arrived. The status filter above it (server/index.js:1272-1275) still drops a due post from the status=published listing until a sweep has flipped its status. The model follows the code, and `ContentServer.DueUnsweptPostWaitsForSweep` states the behaviour.
- The listing's `created_at` ordering is not modelled: the rows are given in the store's order.
- ContentServer.Store.Create: runs the corrected `ValidateCreate` of the second finding below. An unscheduled request with an unparseable scheduled_at is created here, where the code answers 500 from its log line; `ValidateCreateAsWritten` keeps the code's behaviour.
- ContentServer.Store.Update: runs the corrected `ValidateUpdate` in the same way. An unscheduled update with an unparseable scheduled_at succeeds here, where the code's log line (server/index.js:1078) answers 500; `ValidateUpdateAsWritten` keeps the code's behaviour.
- ContentClient.ContentManager.HandleCreate: shows the corrected `CreatedMessage` of the first finding below, so an unscheduled post's message lacks the trailing 'false' the code appends; `CreatedMessageAsWritten` keeps the code's text.
- Carousel.Slider: the slide count is fixed when the slider is built. On the Tariff page the card list changes from the 3 fallback tariffs to one card per price once the prices load, and the code keeps `currentTariffIndex` across that change, so the index can then point past the last card. The model does not follow a count that changes under a live slider.
- Text.ToLower, Text.LowerChar, AdminApi.NormalizeRoleName and AdminApi.NewRole: `toLowerCase` is modelled on exactly these capitals: U+0041-U+005A, U+00C0-U+00DE without U+00D7, U+0391-U+03A9 without U+03A2, and U+0400-U+042F. Every other character is kept unchanged. This includes the accented Greek capitals such as 'Ά' (U+0386), which `toLowerCase` does fold, the Latin Extended and Armenian capitals, and the full case mapping of 'İ' and the final sigma.
- DateSettings.EmptyDeadlineSaves: the server's settings endpoint (server/index.js:1636-1640) answers an empty value with 400 'Value is required', so an empty deadline that the client sends does not clear the setting. The settings endpoint is not part of this model.
- RouteGuard.Guard: `adminOnly` is a parameter. The component's default of true (src/components/ProtectedRoute/ProtectedRoute.tsx:11) is not modelled; the routes in src/App.tsx pass it explicitly.
- UserContentView.UserContentPage.ApplyAutoPublished: the posts the sweep endpoint returns are read from the content table alone (server/index.js:1375-1381) and carry no links, so in the code a merged post loses its links. The model merges the items it is given whole.
- Api.Response: `Failed(message)` counts as an error for any message. The code tests `if (result.error)`, so an empty error string would count as no error; the model does not distinguish it.
- AdminApi.RunUpdates, AdminApi.TariffPriceTable.UpdatePrices: a refused update writes nothing for that entry. Only the first refusal matters, since the loop stops there.

## Findings

| source | as written | input that shows it | evidently intended | confidence | as-written member | corrected member |
|---|---|---|---|---|---|---|
| src/components/Content/Content.tsx:195-198 | the success message appends `newContent.is_scheduled && newContent.scheduled_at && …`, which is the string 'false' for an unscheduled post | an unscheduled post: the message reads 'Пост успешно создан!false' | the scheduled time is added only for scheduled posts, and nothing is added otherwise | high (not executed) | ContentClient.CreatedMessageAsWritten | ContentClient.CreatedMessage |
| server/index.js:955-965 | the create log line calls `new Date(scheduled_at).toISOString()` on any present scheduled_at; on an unscheduled post an unparseable date throws a RangeError, and the catch answers 500 (the update route's log line at server/index.js:1078 does the same) | `is_scheduled: false, scheduled_at: "x"` with a valid title, role and link | the date is ignored for unscheduled posts and the item is created | high (not executed) | ContentServer.ValidateCreateAsWritten | ContentServer.ValidateCreate |
