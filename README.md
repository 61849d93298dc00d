# Sentinel Ops offline inspection queue, in Dafny

This project models the client side of Sentinel Ops, a fleet-maintenance
dashboard. Operators record inspections of machines. When the remote
database cannot be reached, an inspection is kept in a local queue on the
device, and a sync routine later resubmits what is queued.
The model covers:

- the data service (`src/api/service.ts`):
  - the UUID check and the row built by `submitLog`;
  - `createLog`, which submits at once or queues one local record;
  - `syncPendingLogs`, which drains the queue;
  - the photo upload and its file-name sanitiser;
  - the field selection of `updateAsset`;
- the single-in-flight guard around the sync and the connectivity badge
  (`src/App.tsx`);
- the pure rules of the components:
  - the inspection form's record and severities;
  - the asset search and status filter;
  - the dossier's checklist extraction and failure theme;
  - the history card's critical/warning split;
  - the fleet counts;
  - the notification list.

Modules follow the source files:

- `Wrappers` defines `Option` and `Result`.
- `JsValue`, `JsString` and `JsArray` give the JavaScript operations the
  code relies on: truthiness, property lookup, `Object.entries`,
  `toLowerCase`, `includes`, `endsWith`, `filter`, `find` and `some`.
- `Types` holds the records.
- `OfflineDb` is the local `logs` table, a class with a `map` field.
- `Backend` is what the client stored remotely: the `daily_logs` rows and
  the `checklist-photos` objects.
- `Service` holds the class `SentinelService` (`src/api/service.ts`).
- `App` holds the dashboard's sync guard (`src/App.tsx`).
- `ChecklistForm`, `AssetsView`, `InspectionDetail`, `AssetHistory`,
  `DashboardStats` and `NotificationCenter` each model the component of
  that name.

Everything outside the client is an input: the network, the server, the
storage bucket, the clock, `crypto.randomUUID`, `navigator.onLine` and the
signed-in user. A sync run receives `net: string -> Attempt`. This gives,
for each queued record id, the clock reading at its photo upload, the
storage reply, the insert reply and whether the local delete succeeds. Each
record is attempted once per run, so this covers every possible run. The
store walks pending records in ascending order of their ids. The model
allows any order, which includes that one: the loop picks any remaining id,
and a ghost out-parameter reports the order it used. Every property proved
for a run therefore holds for the store's order too.

On these points the model follows what the code does:

- No queued record is ever evicted. A record whose asset id is not a UUID
  stays queued forever (`Service.InvalidAssetIdNeverLeaves`).
- A failed photo upload returns `null` and does not block the submission
  (`Service.PhotoFailureDoesNotBlock`).
- `photo_url` is not sent with the row.
- No machine-hours update follows a successful submission.
- A record is deleted, not marked as synced, after its resubmission.

Two cross-component observations are proved:

- `InspectionDetail.AnswerArrayShowsNothing`: the dossier shows no checklist
  results for answers stored as an array of answer objects. That is the form
  the inspection form stores. Its theme then stays operational whatever the
  severities are.
- `AssetHistory.FormInspectionSummary`: the history card reads that same
  array correctly.

## Model

| member | source | states |
|---|---|---|
| Service.IsValidUuidIff | src/api/service.ts:219 | the pattern accepts exactly the 36-character strings with `-` at positions 8, 13, 18, 23 and a hex digit of either case everywhere else; an absent id (tested as `''`) is never valid |
| Service.BuildDbPayload | src/api/service.ts:219-229 | `asset_id` is present exactly when the asset id is UUID-shaped and is then that id; `operator_id` is present exactly when the operator id is present and UUID-shaped and is then that id; hours and answers are the entry's; the coordinates are those of the GPS fix if any; no photo URL is sent |
| Service.MatchesGroupsShape | src/api/service.ts:219 | for any list of group widths, matching hex groups joined by `-` is the same as the positional description (total length, dash positions, hex elsewhere) |
| Service.SampleAssetIds | src/api/service.ts:219 | a canonical lower-case UUID has the shape and `not-a-uuid` does not |
| Service.PayloadAcceptance | src/api/service.ts:221-233 | `asset_id` is kept exactly when it is a UUID and is then non-empty; the operator id never changes it; `operator_id` is kept only when it is a UUID, else it is `null` |
| Service.SentinelService.SubmitLog | src/api/service.ts:218-251 | a non-UUID asset id fails with "Invalid Asset ID" before any insert; an insert error fails with no row added; otherwise exactly the built row is appended and the entry comes back with the server's id and timestamp; the photo bucket is untouched |
| Service.UpdatePayload | src/api/service.ts:73-82 | the payload has distinct keys, only column keys, and every column's lookup is `ColumnValue`: a text field or the category or status sent only when truthy, `current_hours` whenever defined |
| Service.PiecesCover | src/api/service.ts:74-82 | after the first k field checks the payload holds exactly the first k columns' values and no other key |
| Service.UpdatePayloadFalsyValues | src/api/service.ts:75-81 | a reading of 0 hours is still sent while an empty name is not |
| Service.SanitizeFileName | src/api/service.ts:329 | same length as the name; each character kept if it is an ASCII letter, digit or `.`, else replaced by `_` |
| Service.SanitizedIsSafe | src/api/service.ts:329 | a sanitised name contains only letters, digits, `.` and `_` |
| Service.SanitizeIdempotent | src/api/service.ts:329 | sanitising twice equals sanitising once |
| Service.SanitizeKeepsSafeNames | src/api/service.ts:329 | a name of allowed characters is unchanged |
| Service.PhotoPath | src/api/service.ts:329 | its length is that of the folder, the timestamp's digits and the name, plus two separators; its contents are stated by `PhotoPathInFolder` and `PhotoPathsDistinct` |
| Service.PhotoPathInFolder | src/api/service.ts:329 | whatever the file name, the object path starts with `folder/` and has no further `/` |
| Service.PhotoPathsDistinct | src/api/service.ts:329 | two uploads to the same folder at different milliseconds get different paths, whatever the names |
| Service.SentinelService.UploadPhoto | src/api/service.ts:327-345 | the bucket gains the object only when the service accepts it and the path is free (`upsert: false`); the result is the public URL exactly then and `null` otherwise; no row is inserted |
| Service.SentinelService.SyncRecord | src/api/service.ts:297-322 | one iteration: the photo (if any) is attempted, the row without operator and photo URL is inserted if the asset id is valid and the server accepts, and the record is deleted exactly when it was delivered and the delete succeeds |
| Service.SentinelService.DrainSnapshot | src/api/service.ts:296-323 | over a snapshot, every record is visited once (`order` is a permutation of its ids); the count equals the number removed; the queue loses exactly the removed ids; rows and photos are those of the visits in that order |
| Service.SentinelService.SyncPendingLogs | src/api/service.ts:287-325 | offline: 0 and nothing read or changed; a storage fault while reading propagates with nothing changed; otherwise only unsynced records are considered and the result is the number removed, at most the number pending, with the queue minus exactly those |
| Service.RemovedAreDelivered | src/api/service.ts:315-319 | every removed record was delivered (valid asset id, insert accepted) and no more records are removed than were pending |
| Service.FailedRecordRetained | src/api/service.ts:320-322 | a pending record whose submission or deletion fails stays queued, unchanged |
| Service.PhotoFailureDoesNotBlock | src/api/service.ts:300-304 | whether a record is delivered, whether it is removed and the row it produces are the same whatever the storage service answers to its photo upload |
| Service.InvalidAssetIdNeverLeaves | src/api/service.ts:231-233 | a pending record whose asset id is not UUID-shaped is never removed by a run |
| Service.DrainEmptiesQueue | src/api/service.ts:290-319 | when every pending record is delivered and deleted, nothing pending is left |
| Service.InsertedRowsCount | src/api/service.ts:306-315 | a run inserts exactly one row per delivered record |
| Service.ThreeRecordRun | src/api/service.ts:296-324 | with three queued records, the middle one not a UUID, and a server that accepts all: the run removes the two good ones, reports 2 and keeps the bad one |
| Service.GpsLocationOf | src/api/service.ts:355-361 | a truthy `data.location` wins; otherwise, with no location text there is no location, and with text the result is an object holding the parsed `lat` and `lng` when both parse and no location when either is NaN |
| Service.HoursReadingOf | src/api/service.ts:351-353 | a truthy `data.items.horometer` gives its numeric value; a missing `items`, or a horometer that is absent, `null`, `false`, `0` or `""`, gives 0 |
| Service.QueuedRecord | src/api/service.ts:391-400 | the fallback record has the fresh id, the payload's asset id, answers and photo file, the hours reading and GPS fix chosen from the payload as in the online path, no operator, `synced` false and the current time |
| Service.SentinelService.CreateLog | src/api/service.ts:347-402 | offline, without a user, with a non-UUID asset id or when the insert fails, exactly one fresh record is queued, unless the local add fails, which is the only error returned; otherwise nothing is queued; when online with a user the photo is attempted and the row inserted as `submitLog` would |
| Service.QueuedRecordNextSync | src/api/service.ts:391-398 | a record queued by the fallback leaves at the next run exactly when its asset id is a UUID, the insert succeeds and the delete succeeds |
| OfflineDb.Pending | src/api/service.ts:290 | the pending records are exactly the stored ones with `synced` false, unchanged |
| OfflineDb.AddPending | src/api/offline_db.ts:10 | adding an unsynced record under a fresh key adds exactly that one pending record |
| OfflineDb.RemovePending | src/api/service.ts:318 | deleting records removes them from the pending ones and changes no other |
| OfflineDb.LogTable.Add | src/api/offline_db.ts:10 | the add succeeds exactly when the key is free and storage works, and then stores the record under its id |
| OfflineDb.LogTable.Delete | src/api/service.ts:318 | a successful delete removes the key; a failed one changes nothing |
| OfflineDb.LogTable.PendingSnapshot | src/api/service.ts:290 | the snapshot is the pending records, or a failure with nothing read |
| Backend.UploadStep | src/api/service.ts:330-332 | an existing path or a refused upload leaves the bucket unchanged; an accepted upload to a free path stores the content there |
| Backend.RemoteStore.Insert | src/api/service.ts:235-244 | an accepted insert appends the row and returns the server's id and timestamp; a failed one changes nothing |
| Backend.RemoteStore.Upload | src/api/service.ts:330-334 | the upload succeeds exactly when accepted and the path is free, and the bucket follows `UploadStep` |
| Types.AnswerToJson | src/types/mobile_checklist.ts:1-7 | an answer is stored as an object whose `severity` property is the severity's name |
| App.BadgeFor | src/App.tsx:76-82 | exactly one badge: offline (with the count) when offline, else syncing (with the count) when the count is positive, else "Sync OK" |
| App.Dashboard.constructor | src/App.tsx:14-16 | the count starts at 0, the guard is clear and connectivity is the initial reading |
| App.Dashboard.BeginRun | src/App.tsx:29-30 | the run starts exactly when the guard was clear, and the guard is held afterwards |
| App.Dashboard.FinishRun | src/App.tsx:32-40 | the sync runs only when online; the count is refreshed exactly when neither the sync nor the count query throws; the guard is always released; offline or when reading the queue fails, the queue, rows and photos are unchanged; otherwise the queue loses exactly the removed records and the rows and photos are those of the visits in the reported order |
| App.Dashboard.RunSync | src/App.tsx:28-41 | while another run holds the guard, the outcome is "skipped" and nothing changes; otherwise the outcome, the count, the queue, the rows and the photos are as `FinishRun` states |
| App.Dashboard.OverlappingRuns | src/App.tsx:28-41 | a call made while a run is suspended is skipped and changes nothing, and its count has no effect; the suspended run then completes with the outcome, count, queue, rows and photos of a run alone |
| App.Dashboard.HandleOnline | src/App.tsx:48-53 | the online event marks the dashboard online and then runs the sync: skipped while a run is in flight, with nothing changed; otherwise completed exactly when the queue is read and the count query answers, with the queue, rows and photos as a single online run leaves them |
| App.Dashboard.HandleOffline | src/App.tsx:54 | the offline event only marks the dashboard offline |
| ChecklistForm.OilSeverity | src/components/ChecklistForm.tsx:40 | the oil answer is critical exactly for `critical`, and never a warning |
| ChecklistForm.NoiseSeverity | src/components/ChecklistForm.tsx:41 | the noise answer is a warning exactly for `yes`, and never critical |
| ChecklistForm.LeakSeverity | src/components/ChecklistForm.tsx:42 | the leak answer is critical exactly for `major`, and never a warning |
| ChecklistForm.BuildAnswers | src/components/ChecklistForm.tsx:39-43 | exactly three answers, oil, noises and leaks, in that order, with the selected values, their severities and no photo or notes |
| ChecklistForm.AnswersJson | src/components/ChecklistForm.tsx:39-43 | the stored answers are an array of the three answer objects |
| ChecklistForm.BuildRecord | src/components/ChecklistForm.tsx:34-46 | the record has the fresh id, the asset's id, the hours entered, the answers, the current time, no operator, no location, no photo blob and `synced` false |
| ChecklistForm.PerformanceNotRecorded | src/components/ChecklistForm.tsx:39-43 | the performance option never changes the recorded answers |
| ChecklistForm.DefaultsAreAllOk | src/components/ChecklistForm.tsx:14-19 | a form submitted with its initial options records only `ok` severities |
| ChecklistForm.Form.constructor | src/components/ChecklistForm.tsx:13-21 | the form opens with the asset's hours, the default options, no photo and not submitting |
| ChecklistForm.Form.HandlePhoto | src/components/ChecklistForm.tsx:23-27 | choosing files keeps the first one; choosing none keeps the previous photo |
| ChecklistForm.Form.HandleSubmit | src/components/ChecklistForm.tsx:29-66 | on a successful add, exactly the built record is queued and success then close are signalled; on a failed add nothing is queued and only the alert is raised; `submitting` ends false either way |
| AssetsView.FilteredAssets | src/components/AssetsView.tsx:18-29 | the result keeps the original order, and an asset is in it exactly when its name or internal id contains the query ignoring case and it passes the status filter |
| AssetsView.EmptyQueryShowsAll | src/components/AssetsView.tsx:19-24 | no query with the `all` filter shows every asset, in order |
| AssetsView.SearchIgnoresQueryCase | src/components/AssetsView.tsx:19-20 | lower-casing the query does not change which assets match |
| AssetsView.StatusFiltersRefineAll | src/components/AssetsView.tsx:24-27 | every status filter shows an ordered sub-list of what `all` shows |
| AssetsView.StatusFiltersDisjoint | src/components/AssetsView.tsx:25-27 | no asset is in two of the `active`, `maintenance` and `critical` results |
| AssetsView.UnknownFilterIsAll | src/components/AssetsView.tsx:28 | an unrecognised filter value shows what `all` shows |
| AssetsView.CriticalCardsAndFilter | src/components/AssetsView.tsx:25-55 | a card drawn as critical (status down) is shown under the `critical` filter, while a warning asset passes that filter without being drawn as critical |
| AssetsView.CardFlagsOf | src/components/AssetsView.tsx:54-56 | critical exactly for down, maintenance exactly for maintenance, electric exactly for an "Electric" model or a transport asset |
| InspectionDetail.LogData | src/components/InspectionDetail.tsx:12 | truthy answers are used as they are; missing or falsy ones become an empty object |
| InspectionDetail.Inspected | src/components/InspectionDetail.tsx:14 | a truthy `items` property replaces the data, otherwise the data itself is inspected |
| InspectionDetail.ChecklistItems | src/components/InspectionDetail.tsx:21-26 | the results are the entries in `Object.entries` order that are neither metadata keys nor `_comment` keys nor object values, and all such entries |
| InspectionDetail.HiddenKeys | src/components/InspectionDetail.tsx:23-25 | a metadata or comment key is never shown, whatever its value |
| InspectionDetail.ThemeMatchesColors | src/components/InspectionDetail.tsx:29-33 | the critical theme is on exactly when some shown result is drawn red |
| InspectionDetail.StatusColorOf | src/components/InspectionDetail.tsx:156-157 | red exactly for `fail` and `critical`, green exactly for `pass`, grey otherwise |
| InspectionDetail.CommentFor | src/components/InspectionDetail.tsx:159 | the comment of item k is whatever the inspected object holds under `k_comment` |
| InspectionDetail.MissingAnswersShowNothing | src/components/InspectionDetail.tsx:12-14 | a log without truthy answers shows the empty placeholder and the operational theme |
| InspectionDetail.AnswerArrayShowsNothing | src/components/InspectionDetail.tsx:21-26 | answers stored as an array of objects show no results and the operational theme |
| AssetHistory.Classify | src/components/AssetHistory.tsx:44-49 | a non-array gives two empty lists; for an array, each list keeps the order and holds exactly the answers of its severity; an array holding `null` fails to render |
| AssetHistory.ListsDisjoint | src/components/AssetHistory.tsx:44-49 | no answer is in both lists; together they are no longer than the answers |
| AssetHistory.BorderOf | src/components/AssetHistory.tsx:58 | red exactly when something is critical; yellow exactly when nothing is critical and something warns |
| AssetHistory.GreenIffAllClear | src/components/AssetHistory.tsx:94 | the border is green exactly when the "sin novedades" note is shown, which is when both lists are empty |
| AssetHistory.FormInspectionSummary | src/components/AssetHistory.tsx:44-58 | an inspection recorded by the form shows as critical exactly for a critical oil level or a major leak, with a warning exactly when noises were heard, and green otherwise |
| DashboardStats.WithStatus | src/components/DashboardStats.tsx:13-15 | exactly the assets of that status, kept in their original order as a sub-list |
| DashboardStats.Stats | src/components/DashboardStats.tsx:12-22 | `total` is the asset count, each bucket counts its status, and `criticalAlerts` is exactly the number of unresolved critical alerts (so at most the alert count, and positive exactly when one exists) |
| DashboardStats.StatusPartition | src/components/DashboardStats.tsx:12-15 | the five status counts add up to the number of assets |
| DashboardStats.ChartedWithinTotal | src/components/DashboardStats.tsx:12-15 | `active + maintenance + offline <= total`, the gap being exactly the warning and down assets |
| DashboardStats.UnchartedMachineShows | src/components/DashboardStats.tsx:12-15 | one warning or down asset makes the charted sum strictly less than the total |
| NotificationCenter.ActiveAlerts | src/components/NotificationCenter.tsx:19 | exactly the unresolved alerts, in their original order |
| NotificationCenter.HeaderCount | src/components/NotificationCenter.tsx:25 | the header shows the number of unresolved alerts, at most the number of alerts |
| NotificationCenter.EmptyStateIff | src/components/NotificationCenter.tsx:30 | the empty state shows exactly when every alert is resolved |
| NotificationCenter.ResolveLowersCount | src/components/NotificationCenter.tsx:19-25 | resolving one open alert lowers the header count by exactly one |
| NotificationCenter.CriticalAmongListed | src/components/NotificationCenter.tsx:19 | the dashboard's open critical alerts never outnumber the alerts listed here |
| NotificationCenter.AssetName | src/components/NotificationCenter.tsx:38 | the name of the first asset with the alert's asset id, or `Desconocido` when there is none or its name is empty; never empty |

## Left out

- Authentication (`signIn`, `signOut`, `getCurrentUser`) is left out. The user context of `_getUserContext` is an input: the user's id, or none when the lookup throws. The organisation id it also returns is unused by `createLog`.
- The read-side queries (`getAssets`, `getAlerts`, `getAssetLogs`, the row mappers) and `seedData` are left out. They are remote calls; `seedData` also reloads the page.
- `getPendingLogsCount` is an input, the count the dashboard receives. The query it runs matches the boolean `synced` field against `0`, so the model does not claim the count equals the number of unsynced records.
- `Number(...)` parsing of the horometer and of the `"lat,lng"` text, and `isNaN`, are inputs; only the rules that choose between them are modelled. NaN is not a modelled number.
- Floating point is not modelled: numbers are reals. The dashboard's percentages are not modelled either.
- `toLowerCase` folds only ASCII letters; Unicode case mappings are not modelled.
- `Object.entries` lists object entries in stored order; the integer-key-first ordering of JavaScript objects and duplicate keys are not modelled.
- The store yields pending records in ascending key order. The model over-approximates this by allowing any order and reporting the one used, so ascending order itself is not stated.
- Service.SanitizeFileName: works on characters. The source's regular expression replaces each UTF-16 code unit, so a character outside the Basic Multilingual Plane becomes two `_` there and one here.
- Console logging (`console.log`, `console.warn`, `console.error`) is not modelled; it has no effect on state.
- Event-listener and timer wiring, React state plumbing and everything the components only render (dates, icons, styles, photo links, the history's empty message) are left out.
- Service.UpdatePayload: modelled as a function returning the payload's entries in source order, not as the method that adds fields one at a time. The server's reply to the update is not modelled.
- Service.SentinelService.SyncPendingLogs: the asynchronous interleaving of other code during its awaits is not modelled. Each run is sequential, and the guard in `App` is what keeps runs apart.
- App.Dashboard.FinishRun: the pending count comes from the count query as an input; it is not tied to the queue's contents.
- AssetHistory.Classify: only `null` elements make the render throw. Reading `severity` of any other non-object gives `undefined`, which matches neither list.
