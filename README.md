# iRMC online update, modelled in Dafny

This project models the decision logic of the online-update resource of the
Terraform provider for Fujitsu/Fsas iRMC servers. The provider talks to the
iRMC's Redfish service and works through these steps:

1. It checks that the eLCM license is installed.
2. It reuses a recent update collection or triggers a new online-update check.
3. It fetches the collection with bounded retries.
4. It splits the collection's designations into the updates to install and the updates to deselect, according to the user's `update_list`.
5. It POSTs one deselect request per unwanted update.
6. It builds the execute payload (`Immediately`, or `Once` at a schedule time).
7. It triggers execution and possibly waits on the resulting task.

The iRMC never appears in the model. Each remote call is replaced by the answer it gave, handed in as a parameter:

- a single response for a single call;
- a function from the attempt number to the response for calls made in a loop;
- the task waiter's and the task-log fetch's reports for a task wait.

Modules:

- `Wrappers`: `Option`, `Result` and `Outcome`.
- `GoStrings`: Go's `strings.TrimSpace`, using the white-space set of `unicode.IsSpace`.
- `Models`: the records of internal/models/online_update.go. The framework's null, unknown and known attribute values are made explicit.
- `Redfish`: response shapes, the action payload, the accepted-status set and the error kinds.
- `UpdateHelper`: internal/provider/update_helper.go, covering endpoints, the license gate, the check trigger, the collection fetch and its retry loop, the task-outcome rule and cache freshness.
- `Selection`: `PrepareUpdateLists`, as a method that follows the Go loops, specified by pure functions (`Classify`, `Scan`, `SelectionOf`, `Wanted`, `Split`) about which the lemmas are proved.
- `OnlineUpdateResource`: the rest of internal/provider/resource_online_update.go. It covers the execute payload, the execute trigger, the deselect loop, the execute/wait decision, and `Create` split into its check phase and its execute phase.

Some behaviour of the code is modelled as written:

- `update_list` has three states (null, unknown, known). `PrepareUpdateLists` treats unknown like null (select everything). `Create`'s execute test looks only at null. A non-empty collection is executed in both cases, because select-all selects every item.
- The execute trigger rejects an empty `Location` header. A successful execute therefore always has a task to poll, and the ten-second fallback sleep in `Create` cannot happen (`ExecuteFallbackUnreachable`, and `ExecutePhaseSpec` includes `!run.waited.SleepSeconds?`).
- `BuildExecutePayload` treats a null or unknown operation time as `Immediately`. `Create`'s wait test compares `ValueString()`, which is empty for such values, so it does not wait. The schema's default of `Immediately` keeps a null value from reaching `Create`; the model keeps both tests as written.
- `DeselectUpdates` runs before `BuildExecutePayload`. Operation time `Once` without a schedule time is therefore reported only after the deselect POSTs were sent.
- A known but empty schedule time satisfies `Once`. `StartDate` is then the empty string.

## Model

| member | source | states |
|---|---|---|
| GoStrings.TrimSpace | internal/provider/resource_online_update.go:346 | the trimmed entry is a slice of the entry with only white space before and after it; it is empty exactly when the entry is white space only, and otherwise starts and ends with a non-space character |
| GoStrings.TrimSpaceUnique | internal/provider/resource_online_update.go:346 | any slice with only white space around it and none at its own ends is the trimmed entry, so the properties above define trimming completely |
| GoStrings.TrimSpacePadded | internal/provider/resource_online_update.go:346 | one space on each side of an entry whose ends are not white space is removed, as in `" Others "` |
| GoStrings.TrimSpaceIdempotent | internal/provider/resource_online_update.go:346 | trimming a trimmed entry changes nothing |
| Selection.Read | internal/provider/resource_online_update.go:353-361 | defines how a trimmed, non-blank entry reads: the keyword `Others`, else a designation when it contains `/`, else an allow-listed component, else unrecognised |
| Selection.ScanCollects | internal/provider/resource_online_update.go:339-362 | the first loop records a designation or component exactly when some entry reads as it, sets `applyOthers` exactly when some entry is the keyword, and sets `noneEmptyRequest` exactly when some entry is not blank |
| Selection.ClassifyBlank | internal/provider/resource_online_update.go:346-349 | an entry is skipped as empty exactly when it is white space only |
| Selection.ReadOthers | internal/provider/resource_online_update.go:353-354 | a trimmed entry is the keyword exactly when it equals `Others` |
| Selection.ReadDesignation | internal/provider/resource_online_update.go:355-356 | a trimmed entry requests designation `d` exactly when it equals `d` and contains `/` |
| Selection.ReadComponent | internal/provider/resource_online_update.go:357-358 | a trimmed entry requests component `c` exactly when it equals `c`, `c` is allow-listed, contains no `/` and is not `Others` |
| Selection.PrepareUpdateLists | internal/provider/resource_online_update.go:327-402 | the two loops return, as `selected` and `deselected`, the designations whose item is and is not wanted under the selection the list asks for, in collection order |
| Selection.Wanted | internal/provider/resource_online_update.go:375-391 | defines whether an item is selected: always in select-all mode, otherwise when its designation or its component was requested, or when `Others` was requested and its component is not allow-listed |
| Selection.SelectAllIff | internal/provider/resource_online_update.go:330-366 | select-all mode is on exactly when `update_list` is null or unknown or every entry is blank after trimming |
| Selection.SelectAllSplit | internal/provider/resource_online_update.go:376-398 | in select-all mode `selected` is every designation in collection order and `deselected` is empty |
| Selection.NullOrBlankListSelectsAll | internal/provider/resource_online_update.go:342-398 | a null, unknown or all-blank list selects every designation in order and deselects none |
| Selection.SplitKeepsOrder | internal/provider/resource_online_update.go:371-399 | each side lists, in strictly increasing collection position, exactly the items with that selection |
| Selection.SplitPartitions | internal/provider/resource_online_update.go:371-399 | the two sides' lengths add up to the collection's size and their multisets add up to the collection's designations |
| Selection.SplitDisjoint | internal/provider/resource_online_update.go:371-399 | with unique designations no designation is both selected and deselected |
| Selection.ExplicitSelectionIff | internal/provider/resource_online_update.go:353-391 | outside select-all an item is selected exactly when a trimmed entry with `/` is its designation, a trimmed allow-listed entry is its component, or `Others` was requested and its component is not allow-listed |
| Selection.ComponentNamedOthersOnlyByDesignation | internal/provider/resource_online_update.go:387-390 | an item whose component is literally `Others` is selected by an explicit list only through its own designation |
| Selection.UnrecognizedEntryOnlyEndsSelectAll | internal/provider/resource_online_update.go:359-366 | an unrecognised entry matches nothing and raises no error, but turns select-all into an explicit request for nothing |
| Selection.NothingRequestedDeselectsAll | internal/provider/resource_online_update.go:375-398 | an explicit request for nothing selects nothing and deselects every designation in order |
| Selection.SingleEntrySelection | internal/provider/resource_online_update.go:345-366 | a list of one entry asks for exactly what that entry reads as: select-all when blank, every non-allow-listed component for `Others`, one designation, one component, or nothing for an unrecognised entry |
| UpdateHelper.GetOnlineUpdateEndpoints | internal/provider/update_helper.go:41-55 | the three action URLs are one prefix `/redfish/v1/Systems/0/Oem/<ns>/eLCM/Actions/<token>eLCM.` followed by `OnlineUpdate`, `OnlineUpdateGetCollection` or `OnlineUpdateModifyCollection` |
| UpdateHelper.EndpointsDistinct | internal/provider/update_helper.go:41-55 | the three action URLs are pairwise different |
| UpdateHelper.GetLicenseEndpoint | internal/provider/update_helper.go:57-62 | the license URL carries the OEM namespace chosen by the vendor flag |
| UpdateHelper.GetSystemOemEndpoint | internal/provider/update_helper.go:64-69 | the system URL carries the OEM namespace chosen by the vendor flag |
| UpdateHelper.SameNamespaceEverywhere | internal/provider/update_helper.go:41-69 | all five URLs carry the same namespace right after their fixed head: FSAS for Fsas systems, TS_FUJITSU otherwise |
| UpdateHelper.CheckELCMLicense | internal/provider/update_helper.go:71-100 | passes exactly when the status is 200, the body decodes and some key is named exactly `eLCM`; each other case is its own error |
| UpdateHelper.TriggerOnlineUpdateCheck | internal/provider/update_helper.go:102-126 | statuses 200/201/202/204 succeed with the `Location` header, which may be empty; a transport error or other status fails |
| UpdateHelper.FetchOutcome | internal/provider/update_helper.go:128-189 | transport error, non-200 status or undecodable body are errors; `InProgress` is not ready; otherwise one item per element, in order, fields and date copied |
| UpdateHelper.GetOnlineUpdateCollection | internal/provider/update_helper.go:128-189 | the loop that builds the items returns the classification above |
| UpdateHelper.RetryFrom | internal/provider/update_helper.go:191-206 | the retry loop never makes more than `retries` fetches |
| UpdateHelper.RetryStopsAtFirstAnswer | internal/provider/update_helper.go:191-206 | every fetch before the last was in progress; an error or a collection is that of the last fetch |
| UpdateHelper.RetryExhausted | internal/provider/update_helper.go:191-206 | the loop reports "not ready after N retries" exactly when every attempt was in progress (vacuously when `retries <= 0`), after exactly one fetch per attempt |
| UpdateHelper.GetOnlineUpdateCollectionWithRetry | internal/provider/update_helper.go:191-206 | the counting loop returns what the retry specification returns and sleeps once per in-progress answer |
| UpdateHelper.CheckOnlineUpdateStatus | internal/provider/update_helper.go:208-218 | passes exactly when the waiter reports success without error; a failure carries the waiter's error and the fetched task log's text, or no log when the fetch failed |
| UpdateHelper.CollectionCacheValid | internal/provider/update_helper.go:220-238 | defines cache freshness: a two-attempt fetch yields a collection whose date parses and lies less than six hours before now |
| UpdateHelper.CacheValidAfterAtMostTwoFetches | internal/provider/update_helper.go:220-238 | the cache is valid exactly when the first fetch, or the second after an in-progress first, yields a collection whose date parses and is less than 6 h (21600 s) before now |
| UpdateHelper.IsCollectionCacheValid | internal/provider/update_helper.go:220-238 | returns the freshness verdict and never an error |
| OnlineUpdateResource.BuildExecutePayload | internal/provider/resource_online_update.go:404-427 | mode is always `ExecuteUpdate`; scheduling type is the operation time or `Immediately`; error exactly for `Once` without a known schedule time; start date present exactly for `Once` and equal to the schedule time; warning exactly when a schedule time is given otherwise |
| OnlineUpdateResource.TriggerOnlineUpdateExecute | internal/provider/resource_online_update.go:429-452 | succeeds exactly with status 200/201/202/204 and a non-empty `Location`; equals the check trigger's rule with an empty location turned into an error |
| OnlineUpdateResource.DeselectFrom | internal/provider/resource_online_update.go:296-322 | the deselect specification, from position `i` on, sends at most one request per remaining designation |
| OnlineUpdateResource.DeselectStopsAtFirstRejection | internal/provider/resource_online_update.go:289-325 | one `{Designation, Execution: "deselected"}` request per designation, in order; passes exactly when all are answered 200/204; otherwise stops right after the first rejected one, naming its designation and status |
| OnlineUpdateResource.DeselectUpdates | internal/provider/resource_online_update.go:289-325 | the POST loop returns the outcome and sends the requests of the deselect specification |
| OnlineUpdateResource.ShouldExecute | internal/provider/resource_online_update.go:227 | defines the execute test: `update_list` is null or something is selected |
| OnlineUpdateResource.NoMatchWarning | internal/provider/resource_online_update.go:250 | defines the warning's condition: `update_list` not null, a non-empty collection, nothing selected and something deselected |
| OnlineUpdateResource.ExecuteWait | internal/provider/resource_online_update.go:237-248 | only a known `Immediately` waits: it polls the task when there is a location, else sleeps 10 s; `Once`, null and unknown never wait |
| OnlineUpdateResource.ExecutesIffSomethingSelected | internal/provider/resource_online_update.go:227 | execution happens exactly when `update_list` is null or some item is wanted; in select-all mode whenever the collection is not empty |
| OnlineUpdateResource.SkippedExecutionWarns | internal/provider/resource_online_update.go:249-253 | the "no matching updates" warning is given exactly when a non-empty collection is not executed |
| OnlineUpdateResource.ExecuteFallbackUnreachable | internal/provider/resource_online_update.go:239-247 | after a successful execute trigger the ten-second fallback never happens |
| OnlineUpdateResource.ExecutePhase | internal/provider/resource_online_update.go:201-258 | (as `ExecutePhaseSpec`) an empty collection does nothing; otherwise the deselect requests are those of the deselect specification, the execute POST goes to the action URL exactly when deselecting and building the payload succeeded and execution is due, the wait follows the operation time, the fallback never happens, and the warning and outcome are as in the code |
| OnlineUpdateResource.CheckPhase | internal/provider/resource_online_update.go:163-199 | (as `CheckPhaseSpec`) the license is read at the vendor's license URL and no license stops everything; once it is granted the collection is read at the vendor's collection URL; a fresh cache is fetched with 3 attempts 1 s apart; otherwise the check POST goes to the action URL, a failed trigger or failed task ends the phase with its error and no fetch or sleep, the task is awaited (or 5 s pass without a location), and the collection is fetched with 12 attempts 5 s apart |
| OnlineUpdateResource.Create | internal/provider/resource_online_update.go:136-259 | the check phase runs as `CheckPhaseSpec` states for these answers; the execute phase runs exactly when it returned a collection, and then as `ExecutePhaseSpec` states at the vendor's endpoints; the outcome is the check error or the execute phase's outcome; the id is stored, as the online-update action URL, exactly when the whole run succeeds |

## Left out

- HTTP transport and JSON decoding are not modelled: the gofish client, status codes and bodies are inputs, and closing a body is not modelled.
- `WaitForRedfishTaskEnd`, `FetchRedfishTaskLog`, `IsFsasCheck` and `ConnectTargetSystem` are not part of this model. Their results are inputs: the task waiter's report, the task log, the vendor flag.
- The values of the constants FSAS, TS_FUJITSU and FTS are defined in a file that is not part of this model; they are the fields of `VendorNames`.
- `mutexPool.Lock`/`Unlock` exist only for concurrency and are not modelled.
- `time.Sleep` is not performed: sleeps appear as counts and seconds in the results. `time.Now`, and the parsing of RFC 3339 dates (section 5.6 of RFC 3339), are inputs: `now` in seconds and a `parse` function. Durations are whole seconds, not nanoseconds.
- `types.List.ElementsAs` failing on a malformed `update_list` (resource_online_update.go:332-336, 210-214) is not modelled: a known list is already a sequence of strings.
- Items of the collection carry plain strings; the framework's null item fields, whose `ValueString()` would be empty, do not occur because the fetch builds every field as a known value.
- `tflog` messages are not modelled. The warnings that matter are booleans: `BuildExecutePayload`'s ignored schedule time and `Create`'s "no matching updates".
- The Terraform schema, validators, plan modifiers, `Metadata`, `Configure`, `Read`, `Update` and `Delete` of the resource are framework glue and are not modelled.
- internal/provider/data_check_online_update.go repeats the check phase of `Create` with other retry budgets; it is not modelled beyond sharing the helpers.
- `BuildExecutePayload` takes an `isFsas` argument it does not use; the model omits it.
- The cache probe and the later collection fetches are answered by two separate functions (`IrmcAnswers.probe`, `IrmcAnswers.fetch`), not by one server whose state carries over.
- OnlineUpdateResource.CheckPhase: does not say which error a failed license check reports (that is `CheckELCMLicense`'s contract), and does not count the sleeps of the cache probe, whose fetches are not part of `CheckRun`.
- UpdateHelper.RetryFrom: its own contract only bounds the number of fetches; what the loop returns is stated by `RetryStopsAtFirstAnswer` and `RetryExhausted`.
- Go strings are UTF-8 bytes; here they are sequences of code points, so invalid UTF-8 in `update_list` is not modelled.
