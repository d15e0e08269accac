/**
 * The online-update resource (internal/provider/resource_online_update.go):
 * the body of the execute action, the execute trigger, the loop that
 * deselects unwanted updates, and `Create`'s two phases, which first obtain an
 * update collection and then deselect, execute and possibly wait. The iRMC is
 * replaced by the responses it gives.
 */
module OnlineUpdateResource {
  import opened Wrappers
  import opened Models
  import opened Redfish
  import opened UpdateHelper
  import Selection

  // ---------------------------------------------------------------------------
  // The execute payload
  // ---------------------------------------------------------------------------

  const ExecuteUpdateMode := "ExecuteUpdate"
  const Immediately := "Immediately"
  const Once := "Once"

  /**
   * The body of the execute action, and whether `BuildExecutePayload` warned
   * that a schedule time was given without operation time `Once`.
   */
  datatype ExecutePayload = ExecutePayload(payload: OnlineUpdatePayload, scheduleTimeIgnored: bool)

  /**
   * `BuildExecutePayload`: the scheduling type is the operation time, or
   * `Immediately` when that is null or unknown; `Once` needs a known schedule
   * time, which becomes the start date; any other type sends no start date and
   * warns when a schedule time was given.
   */
  function BuildExecutePayload(plan: ResourcePlan): (r: Result<ExecutePayload, Error>)
    ensures r.Failure? <==> plan.operationTime == KnownString(Once) && !plan.scheduleTime.KnownString?
    ensures r.Failure? ==> r.error == ScheduleTimeRequired
    ensures r.Success? ==> r.value.payload.executionMode == ExecuteUpdateMode
    ensures r.Success? ==>
      r.value.payload.schedulingType == if plan.operationTime.KnownString? then plan.operationTime.value else Immediately
    ensures r.Success? ==> (r.value.payload.startDate.Some? <==> plan.operationTime == KnownString(Once))
    ensures r.Success? && r.value.payload.startDate.Some? ==> r.value.payload.startDate.value == plan.scheduleTime.value
    ensures r.Success? ==>
      (r.value.scheduleTimeIgnored <==> plan.operationTime != KnownString(Once) && plan.scheduleTime.KnownString?)
  {
    var operationTimeType := if plan.operationTime.KnownString? then plan.operationTime.value else Immediately;
    if operationTimeType == Once then
      if plan.scheduleTime.KnownString? then
        Success(ExecutePayload(OnlineUpdatePayload(ExecuteUpdateMode, operationTimeType, Some(plan.scheduleTime.value)), false))
      else
        Failure(ScheduleTimeRequired)
    else
      Success(ExecutePayload(OnlineUpdatePayload(ExecuteUpdateMode, operationTimeType, None), plan.scheduleTime.KnownString?))
  }

  // ---------------------------------------------------------------------------
  // The execute trigger
  // ---------------------------------------------------------------------------

  /**
   * `TriggerOnlineUpdateExecute`'s reading of the POST response: the statuses
   * 200/201/202/204 with a non-empty `Location` header yield the task location.
   * It is the check trigger's rule except that an empty location is an error.
   */
  function TriggerOnlineUpdateExecute(response: PostResult): (r: Result<string, Error>)
    ensures r.Success? <==> response.Posted? && Accepted(response.status) && response.location != ""
    ensures r.Success? ==> r.value == response.location
    ensures r == if TriggerOnlineUpdateCheck(response) == Success("") then Failure(LocationMissing)
                 else TriggerOnlineUpdateCheck(response)
  {
    match response
    case PostFailed => Failure(RequestFailed)
    case Posted(status, location) =>
      if status != StatusAccepted && status != StatusOK && status != StatusNoContent && status != StatusCreated then
        Failure(UnexpectedStatus(status))
      else if location == "" then
        Failure(LocationMissing)
      else
        Success(location)
  }

  // ---------------------------------------------------------------------------
  // Deselecting updates
  // ---------------------------------------------------------------------------

  const DeselectedExecution := "deselected"

  /** One entry of `UpdateCollectionModifications`. */
  datatype Modification = Modification(designation: string, execution: string)

  /** A POST to the modify-collection action. */
  datatype ModifyRequest = ModifyRequest(endpoint: string, updateCollectionModifications: seq<Modification>)

  /** The request that deselects one designation. */
  function DeselectRequest(endpoint: string, designation: string): ModifyRequest {
    ModifyRequest(endpoint, [Modification(designation, DeselectedExecution)])
  }

  /** A deselect POST succeeds with status 200 or 204 only. */
  predicate DeselectAccepted(response: PostResult) {
    response.Posted? && (response.status == StatusOK || response.status == StatusNoContent)
  }

  /** The error naming the designation whose deselect failed, with the status when one arrived. */
  function DeselectError(designation: string, response: PostResult): Error {
    DeselectFailed(designation, if response.Posted? then Some(response.status) else None)
  }

  /** What the deselect loop returns, and the requests it sent, in order. */
  datatype Deselection = Deselection(outcome: Outcome<Error>, sent: seq<ModifyRequest>)

  /**
   * The deselect loop from position `i` on, against a server whose answer to
   * the `k`-th POST is `server(k)`: each designation is POSTed in turn, and the
   * first answer that is not accepted ends the loop with its error.
   */
  function DeselectFrom(endpoint: string, designations: seq<string>, server: nat -> PostResult, i: nat): (d: Deselection)
    requires i <= |designations|
    ensures |d.sent| <= |designations| - i
    decreases |designations| - i
  {
    if i == |designations| then Deselection(Pass, [])
    else
      var request := DeselectRequest(endpoint, designations[i]);
      if !DeselectAccepted(server(i)) then
        Deselection(Fail(DeselectError(designations[i], server(i))), [request])
      else
        var rest := DeselectFrom(endpoint, designations, server, i + 1);
        rest.(sent := [request] + rest.sent)
  }

  /**
   * The loop sends one deselect request per designation, in order, to the
   * given endpoint; it passes exactly when every POST is accepted, and
   * otherwise stops right after the first rejected POST, naming its
   * designation and status.
   */
  lemma {:induction false} DeselectStopsAtFirstRejection(
    endpoint: string, designations: seq<string>, server: nat -> PostResult, i: nat)
    requires i <= |designations|
    ensures var d := DeselectFrom(endpoint, designations, server, i);
      && (forall k :: 0 <= k < |d.sent| ==> d.sent[k] == DeselectRequest(endpoint, designations[i + k]))
      && (forall k :: i <= k < i + |d.sent| - 1 ==> DeselectAccepted(server(k)))
      && (d.outcome.Pass? <==> forall k :: i <= k < |designations| ==> DeselectAccepted(server(k)))
      && (d.outcome.Pass? ==> |d.sent| == |designations| - i)
      && (d.outcome.Fail? ==>
            && 0 < |d.sent|
            && !DeselectAccepted(server(i + |d.sent| - 1))
            && d.outcome.error == DeselectError(designations[i + |d.sent| - 1], server(i + |d.sent| - 1)))
    decreases |designations| - i
  {
    if i < |designations| && DeselectAccepted(server(i)) {
      DeselectStopsAtFirstRejection(endpoint, designations, server, i + 1);
    }
  }

  /**
   * `DeselectUpdates`: POSTs a deselect request for each designation and
   * returns at the first transport error or status other than 200/204.
   */
  method DeselectUpdates(endpoint: string, designations: seq<string>, server: nat -> PostResult)
    returns (r: Outcome<Error>, sent: seq<ModifyRequest>)
    ensures Deselection(r, sent) == DeselectFrom(endpoint, designations, server, 0)
  {
    sent := [];
    if |designations| == 0 {
      return Pass, sent;
    }
    for i := 0 to |designations|
      invariant |sent| == i
      invariant DeselectFrom(endpoint, designations, server, 0) ==
        var d := DeselectFrom(endpoint, designations, server, i); d.(sent := sent + d.sent)
    {
      var designation := designations[i];
      var res := server(i);
      var request := DeselectRequest(endpoint, designation);
      ghost var rest := DeselectFrom(endpoint, designations, server, i + 1);
      assert DeselectAccepted(res) ==> sent + ([request] + rest.sent) == (sent + [request]) + rest.sent;
      sent := sent + [request];
      if res.PostFailed? {
        return Fail(DeselectFailed(designation, None)), sent;
      }
      if res.status != StatusOK && res.status != StatusNoContent {
        return Fail(DeselectFailed(designation, Some(res.status))), sent;
      }
    }
    return Pass, sent;
  }

  // ---------------------------------------------------------------------------
  // The execute decision
  // ---------------------------------------------------------------------------

  /** Execution is triggered when something is selected or `update_list` is null. */
  predicate ShouldExecute(updateList: ListValue, selected: seq<string>) {
    |selected| > 0 || updateList.NullList?
  }

  /** How `Create` waits after a successful execute trigger. */
  datatype Wait = NoWait | PollTask(location: string, timeout: int) | SleepSeconds(seconds: int)

  const ExecuteFallbackSleep := 10

  /**
   * Only operation time `Immediately` waits: on the task when there is a
   * location, ten seconds otherwise. `Once`, null and unknown never wait.
   */
  function ExecuteWait(operationTime: StringValue, location: string): (w: Wait)
    ensures w != NoWait <==> operationTime == KnownString(Immediately)
    ensures w.PollTask? <==> operationTime == KnownString(Immediately) && location != ""
    ensures w.PollTask? ==> w.location == location && w.timeout == DefaultOnlineUpdateTimeout
    ensures w.SleepSeconds? ==> w.seconds == ExecuteFallbackSleep
  {
    if operationTime.ValueString() == Immediately then
      if location != "" then PollTask(location, DefaultOnlineUpdateTimeout) else SleepSeconds(ExecuteFallbackSleep)
    else
      NoWait
  }

  /** The warning that an explicit `update_list` matched none of the available updates. */
  predicate NoMatchWarning(updateList: ListValue, items: seq<UpdateItem>, selected: seq<string>, deselected: seq<string>) {
    !updateList.NullList? && |items| > 0 && |selected| == 0 && |deselected| > 0
  }

  /** The designations `PrepareUpdateLists` selects for this plan. */
  function Selected(plan: ResourcePlan, collection: UpdateCollection): seq<string> {
    Selection.Split(Selection.SelectionOf(plan.updateList), collection.items, true)
  }

  /** The designations `PrepareUpdateLists` deselects for this plan. */
  function Deselected(plan: ResourcePlan, collection: UpdateCollection): seq<string> {
    Selection.Split(Selection.SelectionOf(plan.updateList), collection.items, false)
  }

  /** One side of the split is empty exactly when no item has that selection. */
  lemma SplitEmptyIff(sel: Selection.Selection, items: seq<UpdateItem>, want: bool)
    ensures Selection.Split(sel, items, want) == [] <==>
      forall k :: 0 <= k < |items| ==> Selection.Wanted(sel, items[k]) != want
  {
    Selection.SplitKeepsOrder(sel, items, want);
    var ps := Selection.Positions(sel, items, want);
    if Selection.Split(sel, items, want) != [] {
      assert Selection.Wanted(sel, items[ps[0]]) == want;
    }
  }

  /**
   * `Create` executes exactly when `update_list` is null or some available
   * update is selected; in select-all mode that is whenever the collection is
   * not empty.
   */
  lemma ExecutesIffSomethingSelected(plan: ResourcePlan, collection: UpdateCollection)
    ensures ShouldExecute(plan.updateList, Selected(plan, collection)) <==>
      || plan.updateList.NullList?
      || exists k :: 0 <= k < |collection.items| && Selection.Wanted(Selection.SelectionOf(plan.updateList), collection.items[k])
    ensures Selection.SelectionOf(plan.updateList).SelectAll? ==>
      (ShouldExecute(plan.updateList, Selected(plan, collection)) <==> plan.updateList.NullList? || |collection.items| > 0)
  {
    var sel := Selection.SelectionOf(plan.updateList);
    SplitEmptyIff(sel, collection.items, true);
    if sel.SelectAll? && |collection.items| > 0 {
      assert Selection.Wanted(sel, collection.items[0]);
    }
  }

  /**
   * Whenever a non-empty collection is not executed, the "no matching updates"
   * warning is given: nothing is selected, so every designation is deselected.
   */
  lemma SkippedExecutionWarns(plan: ResourcePlan, collection: UpdateCollection)
    ensures NoMatchWarning(plan.updateList, collection.items, Selected(plan, collection), Deselected(plan, collection))
            <==> |collection.items| > 0 && !ShouldExecute(plan.updateList, Selected(plan, collection))
  {
    Selection.SplitPartitions(Selection.SelectionOf(plan.updateList), collection.items);
  }

  /** A successful execute trigger always has a location, so the ten-second fallback never happens. */
  lemma ExecuteFallbackUnreachable(operationTime: StringValue, response: PostResult)
    requires TriggerOnlineUpdateExecute(response).Success?
    ensures !ExecuteWait(operationTime, TriggerOnlineUpdateExecute(response).value).SleepSeconds?
  {
  }

  /** A request to the online-update action. */
  datatype ActionRequest = ActionRequest(endpoint: string, payload: OnlineUpdatePayload)

  /** The part of `Create` after a collection is obtained, as it behaves for one set of answers. */
  datatype ExecuteRun = ExecuteRun(
    outcome: Outcome<Error>,
    deselects: seq<ModifyRequest>,
    executed: Option<ActionRequest>,
    waited: Wait,
    noMatchWarning: bool)

  /**
   * What `Create` does from the collection on, for these answers: an empty
   * collection ends it; otherwise the unwanted updates are deselected, the
   * payload is built, and the update is executed (at the online-update action)
   * when something is selected or `update_list` is null, then waited on
   * according to the operation time. The ten-second fallback never happens,
   * and the "no matching updates" warning is given exactly when a non-empty
   * collection is not executed.
   */
  predicate ExecutePhaseSpec(
    plan: ResourcePlan, collection: UpdateCollection, endpoints: OnlineUpdateEndpoints,
    modifyServer: nat -> PostResult, executeResponse: PostResult, wait: TaskWait, log: TaskLog, run: ExecuteRun)
  {
    var d := DeselectFrom(endpoints.modifyCollectionEndpoint, Deselected(plan, collection), modifyServer, 0);
    var trigger := TriggerOnlineUpdateExecute(executeResponse);
    && (|collection.items| == 0 ==> run == ExecuteRun(Pass, [], None, NoWait, false))
    && (|collection.items| > 0 ==> run.deselects == d.sent)
    && (run.executed.Some? <==>
          |collection.items| > 0 && d.outcome.Pass? && BuildExecutePayload(plan).Success?
          && ShouldExecute(plan.updateList, Selected(plan, collection)))
    && (run.executed.Some? ==>
          run.executed.value == ActionRequest(endpoints.checkEndpoint, BuildExecutePayload(plan).value.payload))
    && run.waited == (if run.executed.Some? && trigger.Success? then ExecuteWait(plan.operationTime, trigger.value) else NoWait)
    && !run.waited.SleepSeconds?
    && (run.noMatchWarning <==>
          |collection.items| > 0 && d.outcome.Pass? && BuildExecutePayload(plan).Success?
          && !ShouldExecute(plan.updateList, Selected(plan, collection)))
    && run.outcome ==
        if |collection.items| == 0 then Pass
        else if d.outcome.Fail? then d.outcome
        else if BuildExecutePayload(plan).Failure? then Fail(BuildExecutePayload(plan).error)
        else if run.executed.None? then Pass
        else if trigger.Failure? then Fail(trigger.error)
        else if run.waited.PollTask? then CheckOnlineUpdateStatus(wait, log)
        else Pass
  }

  /**
   * `Create` from the collection on. `modifyServer` answers the deselect POSTs
   * in order, `executeResponse` the execute POST, and `wait` and `log` are what
   * the task waiter and the task-log fetch report.
   */
  method ExecutePhase(
    plan: ResourcePlan, collection: UpdateCollection, endpoints: OnlineUpdateEndpoints,
    modifyServer: nat -> PostResult, executeResponse: PostResult, wait: TaskWait, log: TaskLog)
    returns (run: ExecuteRun)
    ensures ExecutePhaseSpec(plan, collection, endpoints, modifyServer, executeResponse, wait, log, run)
  {
    if |collection.items| == 0 {
      return ExecuteRun(Pass, [], None, NoWait, false);
    }
    var selected, deselected := Selection.PrepareUpdateLists(plan.updateList, collection);
    var deselect, sent := DeselectUpdates(endpoints.modifyCollectionEndpoint, deselected, modifyServer);
    if deselect.Fail? {
      return ExecuteRun(deselect, sent, None, NoWait, false);
    }
    var built := BuildExecutePayload(plan);
    if built.Failure? {
      return ExecuteRun(Fail(built.error), sent, None, NoWait, false);
    }
    var shouldExecute := |selected| > 0 || plan.updateList.NullList?;
    if shouldExecute {
      var request := ActionRequest(endpoints.checkEndpoint, built.value.payload);
      var trigger := TriggerOnlineUpdateExecute(executeResponse);
      if trigger.Failure? {
        return ExecuteRun(Fail(trigger.error), sent, Some(request), NoWait, false);
      }
      var location := trigger.value;
      if plan.operationTime.ValueString() == Immediately {
        if location != "" {
          var status := CheckOnlineUpdateStatus(wait, log);
          return ExecuteRun(status, sent, Some(request), PollTask(location, DefaultOnlineUpdateTimeout), false);
        } else {
          return ExecuteRun(Pass, sent, Some(request), SleepSeconds(ExecuteFallbackSleep), false);
        }
      }
      return ExecuteRun(Pass, sent, Some(request), NoWait, false);
    } else {
      SkippedExecutionWarns(plan, collection);
      var warn := !plan.updateList.NullList? && |collection.items| > 0 && |selected| == 0 && |deselected| > 0;
      return ExecuteRun(Pass, sent, None, NoWait, warn);
    }
  }


  // ---------------------------------------------------------------------------
  // Create
  // ---------------------------------------------------------------------------

  const CachedRetries := 3
  const CachedRetryDelay := 1
  const FreshRetries := 12
  const FreshRetryDelay := 5
  const CheckFallbackSleep := 5

  /**
   * The iRMC's answers during one `Create`, in the order they are asked for:
   * the license resource, the cache probe's fetches, the check POST, the check
   * task's waiter and log, the collection fetches, the deselect POSTs, the
   * execute POST, and the execute task's waiter and log.
   */
  datatype IrmcAnswers = IrmcAnswers(
    licenses: Response<seq<LicenseKey>>,
    probe: nat -> Response<RawCollection>,
    checkResponse: PostResult,
    checkWait: TaskWait,
    checkLog: TaskLog,
    fetch: nat -> Response<RawCollection>,
    deselect: nat -> PostResult,
    executeResponse: PostResult,
    executeWait: TaskWait,
    executeLog: TaskLog)

  /** The part of `Create` that obtains the collection, as it behaves for one set of answers. */
  datatype CheckRun = CheckRun(
    result: Result<UpdateCollection, Error>,
    licenseUrl: string,
    collectionUrl: Option<string>,
    checkTriggered: Option<ActionRequest>,
    polled: Option<string>,
    fetches: nat,
    sleptSeconds: int)

  /**
   * What `Create` does up to the collection, for these answers: the license
   * resource is read first and must show the eLCM license; the collection
   * action is then probed and fetched. A collection refreshed less than six
   * hours ago is fetched with 3 attempts one second apart; otherwise a new
   * check is triggered, its task is waited on (or five seconds pass when it
   * has no location), and the collection is fetched with 12 attempts five
   * seconds apart. `parse` reads RFC 3339 dates and `now` is the current
   * time, both in seconds.
   */
  predicate CheckPhaseSpec(names: VendorNames, isFsas: bool, answers: IrmcAnswers, parse: string -> Option<int>, now: int, run: CheckRun) {
    var endpoints := GetOnlineUpdateEndpoints(names, isFsas);
    var trigger := TriggerOnlineUpdateCheck(answers.checkResponse);
    var status := CheckOnlineUpdateStatus(answers.checkWait, answers.checkLog);
    var fallback := if run.polled.None? then CheckFallbackSleep else 0;
    && run.licenseUrl == GetLicenseEndpoint(names, isFsas)
    && (run.collectionUrl.Some? <==> LicenseGranted(answers.licenses))
    && (run.collectionUrl.Some? ==> run.collectionUrl.value == endpoints.collectionEndpoint)
    && (!LicenseGranted(answers.licenses) ==>
          run.result.Failure? && run == CheckRun(run.result, run.licenseUrl, None, None, None, 0, 0))
    && (LicenseGranted(answers.licenses) && CollectionCacheValid(answers.probe, parse, now) ==>
          && run.checkTriggered.None? && run.polled.None?
          && Attempts(run.result, run.fetches) == RetryFrom(answers.fetch, CachedRetries, 0)
          && run.sleptSeconds == CachedRetryDelay * RetrySleeps(RetryFrom(answers.fetch, CachedRetries, 0), CachedRetries))
    && (run.checkTriggered.Some? <==> LicenseGranted(answers.licenses) && !CollectionCacheValid(answers.probe, parse, now))
    && (run.checkTriggered.Some? ==> run.checkTriggered.value == ActionRequest(endpoints.checkEndpoint, CheckPayload))
    && (run.checkTriggered.Some? && trigger.Failure? ==>
          run.result == Failure(trigger.error) && run.polled.None? && run.fetches == 0 && run.sleptSeconds == 0)
    && (run.polled.Some? <==> run.checkTriggered.Some? && trigger.Success? && trigger.value != "")
    && (run.polled.Some? ==> run.polled.value == trigger.value)
    && (run.polled.Some? && status.Fail? ==>
          run.result == Failure(status.error) && run.fetches == 0 && run.sleptSeconds == 0)
    && (run.checkTriggered.Some? && trigger.Success? && (run.polled.None? || status.Pass?) ==>
          && Attempts(run.result, run.fetches) == RetryFrom(answers.fetch, FreshRetries, 0)
          && run.sleptSeconds == fallback + FreshRetryDelay * RetrySleeps(RetryFrom(answers.fetch, FreshRetries, 0), FreshRetries))
  }

  /** `Create` up to the collection. */
  method CheckPhase(
    names: VendorNames, isFsas: bool, answers: IrmcAnswers, parse: string -> Option<int>, now: int)
    returns (run: CheckRun)
    ensures CheckPhaseSpec(names, isFsas, answers, parse, now, run)
  {
    var licenseUrl := GetLicenseEndpoint(names, isFsas);
    var license := CheckELCMLicense(answers.licenses);
    if license.Fail? {
      return CheckRun(Failure(license.error), licenseUrl, None, None, None, 0, 0);
    }
    var endpoints := GetOnlineUpdateEndpoints(names, isFsas);
    var collectionUrl := Some(endpoints.collectionEndpoint);
    var cached := IsCollectionCacheValid(answers.probe, parse, now);
    if cached {
      var collection, fetches, sleeps := GetOnlineUpdateCollectionWithRetry(answers.fetch, CachedRetries);
      return CheckRun(collection, licenseUrl, collectionUrl, None, None, fetches, CachedRetryDelay * sleeps);
    }
    var request := ActionRequest(endpoints.checkEndpoint, CheckPayload);
    var trigger := TriggerOnlineUpdateCheck(answers.checkResponse);
    if trigger.Failure? {
      return CheckRun(Failure(trigger.error), licenseUrl, collectionUrl, Some(request), None, 0, 0);
    }
    var taskLocation := trigger.value;
    var polled: Option<string> := None;
    var slept := 0;
    if taskLocation != "" {
      polled := Some(taskLocation);
      var status := CheckOnlineUpdateStatus(answers.checkWait, answers.checkLog);
      if status.Fail? {
        return CheckRun(Failure(status.error), licenseUrl, collectionUrl, Some(request), polled, 0, 0);
      }
    } else {
      slept := CheckFallbackSleep;
    }
    var collection, fetches, sleeps := GetOnlineUpdateCollectionWithRetry(answers.fetch, FreshRetries);
    return CheckRun(collection, licenseUrl, collectionUrl, Some(request), polled, fetches, slept + FreshRetryDelay * sleeps);
  }

  /**
   * `Create`: the check phase, then the execute phase on the collection it
   * returned. On success the resource's `id` is the online-update action's
   * endpoint; on an error no state is stored.
   */
  method Create(names: VendorNames, isFsas: bool, plan: ResourcePlan, answers: IrmcAnswers, parse: string -> Option<int>, now: int)
    returns (outcome: Outcome<Error>, id: Option<string>, check: CheckRun, execute: Option<ExecuteRun>)
    ensures id.Some? <==> outcome.Pass?
    ensures id.Some? ==> id.value == GetOnlineUpdateEndpoints(names, isFsas).checkEndpoint
    ensures execute.Some? <==> check.result.Success?
    ensures check.result.Failure? ==> outcome == Fail(check.result.error)
    ensures execute.Some? ==> outcome == execute.value.outcome
    ensures CheckPhaseSpec(names, isFsas, answers, parse, now, check)
    ensures execute.Some? ==>
      ExecutePhaseSpec(plan, check.result.value, GetOnlineUpdateEndpoints(names, isFsas),
        answers.deselect, answers.executeResponse, answers.executeWait, answers.executeLog, execute.value)
  {
    check := CheckPhase(names, isFsas, answers, parse, now);
    if check.result.Failure? {
      return Fail(check.result.error), None, check, None;
    }
    var endpoints := GetOnlineUpdateEndpoints(names, isFsas);
    var run := ExecutePhase(plan, check.result.value, endpoints,
      answers.deselect, answers.executeResponse, answers.executeWait, answers.executeLog);
    execute := Some(run);
    if run.outcome.Fail? {
      return run.outcome, None, check, execute;
    }
    return Pass, Some(endpoints.checkEndpoint), check, execute;
  }
}
