/**
 * internal/provider/update_helper.go: endpoint resolution for the two OEM
 * namespaces, the eLCM license gate, the online-update check trigger, the
 * collection fetch with its bounded retry, the task-outcome rule and the
 * collection-cache freshness test. Every remote call is replaced by the
 * response it returned, handed in as a parameter.
 */
module UpdateHelper {
  import opened Wrappers
  import opened Models
  import opened Redfish

  /** CACHE_DURATION: a collection younger than six hours (in seconds) is reused. */
  const CacheDuration: int := 6 * 60 * 60

  /** DEFAULT_ONLINEUPDATE_TIMEOUT, handed to the task waiter. */
  const DefaultOnlineUpdateTimeout: int := 6000

  /** The number of fetches `IsCollectionCacheValid` allows itself. */
  const CacheProbeRetries: int := 2

  // ---------------------------------------------------------------------------
  // Endpoint resolution
  // ---------------------------------------------------------------------------

  /** The values of the constants FSAS, TS_FUJITSU and FTS. */
  datatype VendorNames = VendorNames(fsas: string, tsFujitsu: string, fts: string)

  /** The OEM namespace of the URL path: FSAS on an Fsas system, TS_FUJITSU otherwise. */
  function OemNamespace(names: VendorNames, isFsas: bool): string {
    if isFsas then names.fsas else names.tsFujitsu
  }

  /** The prefix of the action names: FSAS on an Fsas system, FTS otherwise. */
  function ActionToken(names: VendorNames, isFsas: bool): string {
    if isFsas then names.fsas else names.fts
  }

  /** The pieces of the URL templates. */
  const SystemsOem := "/redfish/v1/Systems/0/Oem/"
  const ManagersOem := "/redfish/v1/Managers/iRMC/Oem/"
  const ELcmActions := "/eLCM/Actions/"
  const ELcmDot := "eLCM."
  const LicensesPath := "/iRMCConfiguration/Licenses"
  const SystemPath := "/System"
  const OnlineUpdateAction := "OnlineUpdate"
  const GetCollectionAction := "OnlineUpdateGetCollection"
  const ModifyCollectionAction := "OnlineUpdateModifyCollection"

  /** What the three online-update action URLs have in common. */
  function ActionPrefix(names: VendorNames, isFsas: bool): string {
    SystemsOem + OemNamespace(names, isFsas) + ELcmActions + ActionToken(names, isFsas) + ELcmDot
  }

  datatype OnlineUpdateEndpoints = OnlineUpdateEndpoints(
    checkEndpoint: string,
    collectionEndpoint: string,
    modifyCollectionEndpoint: string)

  /** The URLs of the three online-update actions: one shared prefix, three action names. */
  function GetOnlineUpdateEndpoints(names: VendorNames, isFsas: bool): (e: OnlineUpdateEndpoints)
    ensures e.checkEndpoint == ActionPrefix(names, isFsas) + OnlineUpdateAction
    ensures e.collectionEndpoint == ActionPrefix(names, isFsas) + GetCollectionAction
    ensures e.modifyCollectionEndpoint == ActionPrefix(names, isFsas) + ModifyCollectionAction
  {
    if isFsas then
      OnlineUpdateEndpoints(
        SystemsOem + names.fsas + ELcmActions + names.fsas + ELcmDot + OnlineUpdateAction,
        SystemsOem + names.fsas + ELcmActions + names.fsas + ELcmDot + GetCollectionAction,
        SystemsOem + names.fsas + ELcmActions + names.fsas + ELcmDot + ModifyCollectionAction)
    else
      OnlineUpdateEndpoints(
        SystemsOem + names.tsFujitsu + ELcmActions + names.fts + ELcmDot + OnlineUpdateAction,
        SystemsOem + names.tsFujitsu + ELcmActions + names.fts + ELcmDot + GetCollectionAction,
        SystemsOem + names.tsFujitsu + ELcmActions + names.fts + ELcmDot + ModifyCollectionAction)
  }

  /** The three actions never share a URL, whatever the vendor names are. */
  lemma EndpointsDistinct(names: VendorNames, isFsas: bool)
    ensures var e := GetOnlineUpdateEndpoints(names, isFsas);
      e.checkEndpoint != e.collectionEndpoint
      && e.checkEndpoint != e.modifyCollectionEndpoint
      && e.collectionEndpoint != e.modifyCollectionEndpoint
  {
    assert |OnlineUpdateAction| == 12 && |GetCollectionAction| == 25 && |ModifyCollectionAction| == 28;
  }

  /** The license resource of the iRMC, under the vendor's OEM namespace. */
  function GetLicenseEndpoint(names: VendorNames, isFsas: bool): (e: string)
    ensures e == ManagersOem + OemNamespace(names, isFsas) + LicensesPath
  {
    if isFsas then
      ManagersOem + names.fsas + LicensesPath
    else
      ManagersOem + names.tsFujitsu + LicensesPath
  }

  /** The OEM system resource, under the vendor's OEM namespace. */
  function GetSystemOemEndpoint(names: VendorNames, isFsas: bool): (e: string)
    ensures e == SystemsOem + OemNamespace(names, isFsas) + SystemPath
  {
    if isFsas then
      SystemsOem + names.fsas + SystemPath
    else
      SystemsOem + names.tsFujitsu + SystemPath
  }

  /** The middle part of `a + b + c` is `b`. */
  lemma Infix(a: string, b: string, c: string)
    ensures (a + b + c)[|a|..|a| + |b|] == b
  {
    assert (a + b + c)[|a|..|a| + |b|] == (a + b)[|a|..];
  }

  /**
   * The license endpoint, the system endpoint and the action endpoints all
   * carry the same OEM namespace right after their fixed head, so the vendor
   * flag alone decides every URL.
   */
  lemma {:induction false} SameNamespaceEverywhere(names: VendorNames, isFsas: bool)
    ensures var ns := OemNamespace(names, isFsas);
      && GetLicenseEndpoint(names, isFsas)[|ManagersOem|..|ManagersOem| + |ns|] == ns
      && GetSystemOemEndpoint(names, isFsas)[|SystemsOem|..|SystemsOem| + |ns|] == ns
      && GetOnlineUpdateEndpoints(names, isFsas).checkEndpoint[|SystemsOem|..|SystemsOem| + |ns|] == ns
      && GetOnlineUpdateEndpoints(names, isFsas).collectionEndpoint[|SystemsOem|..|SystemsOem| + |ns|] == ns
      && GetOnlineUpdateEndpoints(names, isFsas).modifyCollectionEndpoint[|SystemsOem|..|SystemsOem| + |ns|] == ns
  {
    var ns := OemNamespace(names, isFsas);
    var e := GetOnlineUpdateEndpoints(names, isFsas);
    var rest := ELcmActions + ActionToken(names, isFsas) + ELcmDot;
    Infix(ManagersOem, ns, LicensesPath);
    Infix(SystemsOem, ns, SystemPath);
    assert e.checkEndpoint == SystemsOem + ns + (rest + OnlineUpdateAction);
    Infix(SystemsOem, ns, rest + OnlineUpdateAction);
    assert e.collectionEndpoint == SystemsOem + ns + (rest + GetCollectionAction);
    Infix(SystemsOem, ns, rest + GetCollectionAction);
    assert e.modifyCollectionEndpoint == SystemsOem + ns + (rest + ModifyCollectionAction);
    Infix(SystemsOem, ns, rest + ModifyCollectionAction);
  }

  // ---------------------------------------------------------------------------
  // License gate
  // ---------------------------------------------------------------------------

  /** The license key name that unlocks online updates. */
  const ELcmLicense := "eLCM"

  /** One entry of the `Keys` array of the license resource. */
  datatype LicenseKey = LicenseKey(Name: string)

  /** True when one of `keys` is named exactly "eLCM". */
  predicate HasELcmKey(keys: seq<LicenseKey>) {
    exists i :: 0 <= i < |keys| && keys[i].Name == ELcmLicense
  }

  /** The license response shows the eLCM license: status 200, a decoded body, and an "eLCM" key. */
  predicate LicenseGranted(response: Response<seq<LicenseKey>>) {
    response.Received? && response.status == StatusOK && response.body.Some? && HasELcmKey(response.body.value)
  }

  /**
   * `CheckELCMLicense`: one GET of the license resource. It passes exactly when
   * the status is 200, the body decodes and some key is named "eLCM"; each other
   * case is its own error.
   */
  method CheckELCMLicense(response: Response<seq<LicenseKey>>) returns (r: Outcome<Error>)
    ensures r.Pass? <==> LicenseGranted(response)
    ensures response.TransportError? ==> r == Fail(RequestFailed)
    ensures response.Received? && response.status != StatusOK ==> r == Fail(UnexpectedStatus(response.status))
    ensures response.Received? && response.status == StatusOK && response.body.None? ==> r == Fail(DecodeFailed)
    ensures response.Received? && response.status == StatusOK && response.body.Some? && !HasELcmKey(response.body.value)
      ==> r == Fail(LicenseNotFound)
  {
    if response.TransportError? {
      return Fail(RequestFailed);
    }
    if response.status != StatusOK {
      return Fail(UnexpectedStatus(response.status));
    }
    if response.body.None? {
      return Fail(DecodeFailed);
    }
    var keys := response.body.value;
    for i := 0 to |keys|
      invariant forall j :: 0 <= j < i ==> keys[j].Name != ELcmLicense
    {
      if keys[i].Name == ELcmLicense {
        return Pass;
      }
    }
    return Fail(LicenseNotFound);
  }

  // ---------------------------------------------------------------------------
  // Check trigger
  // ---------------------------------------------------------------------------

  /** The body that asks the iRMC to look for updates now. */
  const CheckPayload := OnlineUpdatePayload("CheckForUpdate", "Immediately", None)

  /**
   * `TriggerOnlineUpdateCheck`'s reading of the POST response: the statuses
   * 200/201/202/204 succeed and yield the `Location` header, which may be empty
   * (no task to poll); a transport error or any other status is an error.
   */
  function TriggerOnlineUpdateCheck(response: PostResult): (r: Result<string, Error>)
    ensures r.Success? <==> response.Posted? && Accepted(response.status)
    ensures r.Success? ==> r.value == response.location
    ensures response.PostFailed? ==> r == Failure(RequestFailed)
    ensures response.Posted? && !Accepted(response.status) ==> r == Failure(UnexpectedStatus(response.status))
  {
    match response
    case PostFailed => Failure(RequestFailed)
    case Posted(status, location) =>
      if status != StatusOK && status != StatusAccepted && status != StatusCreated && status != StatusNoContent then
        Failure(UnexpectedStatus(status))
      else
        Success(location)
  }

  // ---------------------------------------------------------------------------
  // Collection fetch
  // ---------------------------------------------------------------------------

  /** One element of `UpdateCollection` in the JSON answer, with the JSON key names. */
  datatype RawUpdate = RawUpdate(
    Designation: string,
    Component: string,
    SubComponent: string,
    Current: string,
    New: string,
    Severity: string,
    Status: string,
    Reboot: string,
    Downloaded: bool,
    Execution: string,
    RelNotePath: string)

  /** The JSON answer of the get-collection action. */
  datatype RawCollection = RawCollection(
    Status: string,
    LastStatusChangeDate: string,
    UpdateCollection: seq<RawUpdate>)

  /** The `Status` value by which the server says the check is still running. */
  const InProgressStatus := "InProgress"

  /** What one fetch of the collection yields: an error, "still in progress", or the collection. */
  datatype Fetch = FetchFailed(error: Error) | InProgress | Ready(collection: UpdateCollection)

  /** The item built from one JSON element: every field carried over under its model name. */
  function ToItem(u: RawUpdate): UpdateItem {
    UpdateItem(u.Designation, u.Component, u.SubComponent, u.Current, u.New, u.Severity,
               u.Status, u.Reboot, u.Downloaded, u.Execution, u.RelNotePath)
  }

  /** `item` holds exactly the values of `u`, field by field. */
  predicate CopiedFrom(item: UpdateItem, u: RawUpdate) {
    && item.designation == u.Designation && item.component == u.Component
    && item.subComponent == u.SubComponent && item.currentVersion == u.Current
    && item.newVersion == u.New && item.severity == u.Severity && item.status == u.Status
    && item.rebootRequired == u.Reboot && item.downloaded == u.Downloaded
    && item.executionStatus == u.Execution && item.relNotePath == u.RelNotePath
  }

  /**
   * How `GetOnlineUpdateCollection` classifies one response: a transport error,
   * a status other than 200 or an undecodable body is an error; the status
   * "InProgress" means not ready; anything else yields one item per JSON
   * element, in order, with the date copied.
   */
  function FetchOutcome(response: Response<RawCollection>): (f: Fetch)
    ensures f.FetchFailed? <==> response.TransportError? || response.status != StatusOK || response.body.None?
    ensures f.FetchFailed? ==> !f.error.NotReady?
    ensures f.InProgress? <==>
      response.Received? && response.status == StatusOK && response.body.Some? && response.body.value.Status == InProgressStatus
    ensures f.Ready? ==> var raw := response.body.value;
      && f.collection.lastStatusChangeDate == raw.LastStatusChangeDate
      && |f.collection.items| == |raw.UpdateCollection|
      && forall k :: 0 <= k < |raw.UpdateCollection| ==> CopiedFrom(f.collection.items[k], raw.UpdateCollection[k])
  {
    match response
    case TransportError => FetchFailed(RequestFailed)
    case Received(status, body) =>
      if status != StatusOK then FetchFailed(UnexpectedStatus(status))
      else if body.None? then FetchFailed(DecodeFailed)
      else if body.value.Status == InProgressStatus then InProgress
      else
        var raw := body.value.UpdateCollection;
        Ready(UpdateCollection(body.value.LastStatusChangeDate,
                               seq(|raw|, k requires 0 <= k < |raw| => ToItem(raw[k]))))
  }

  /** `GetOnlineUpdateCollection`: one POST to the get-collection action, its items built in a loop. */
  method GetOnlineUpdateCollection(response: Response<RawCollection>) returns (f: Fetch)
    ensures f == FetchOutcome(response)
  {
    if response.TransportError? {
      return FetchFailed(RequestFailed);
    }
    if response.status != StatusOK {
      return FetchFailed(UnexpectedStatus(response.status));
    }
    if response.body.None? {
      return FetchFailed(DecodeFailed);
    }
    var result := response.body.value;
    if result.Status == InProgressStatus {
      return InProgress;
    }
    var updates: seq<UpdateItem> := [];
    for i := 0 to |result.UpdateCollection|
      invariant |updates| == i
      invariant forall k :: 0 <= k < i ==> updates[k] == ToItem(result.UpdateCollection[k])
    {
      updates := updates + [ToItem(result.UpdateCollection[i])];
    }
    return Ready(UpdateCollection(result.LastStatusChangeDate, updates));
  }

  // ---------------------------------------------------------------------------
  // Bounded retry
  // ---------------------------------------------------------------------------

  /** What the retry loop returns, and how many fetches it made to get there. */
  datatype Attempts = Attempts(result: Result<UpdateCollection, Error>, fetches: nat)

  /**
   * The retry loop from attempt `i` on, against a server whose answer to the
   * `k`-th fetch is `server(k)`: an error or a ready collection ends it at once,
   * "InProgress" moves on to the next attempt, and once `retries` attempts are
   * spent the result is "not ready after `retries` retries".
   */
  function RetryFrom(server: nat -> Response<RawCollection>, retries: int, i: nat): (a: Attempts)
    ensures i <= a.fetches
    ensures a.fetches == i || a.fetches <= retries
    decreases retries - i
  {
    if i >= retries then Attempts(Failure(NotReady(retries)), i)
    else
      match FetchOutcome(server(i))
      case FetchFailed(e) => Attempts(Failure(e), i + 1)
      case InProgress => RetryFrom(server, retries, i + 1)
      case Ready(c) => Attempts(Success(c), i + 1)
  }

  /**
   * The retry loop stops at the first answer that is not "InProgress": every
   * earlier fetch was in progress, an error is that fetch's own error, and a
   * collection is the one that fetch returned.
   */
  lemma {:induction false} RetryStopsAtFirstAnswer(server: nat -> Response<RawCollection>, retries: int, i: nat)
    ensures var a := RetryFrom(server, retries, i);
      && (forall k :: i <= k < a.fetches - 1 ==> FetchOutcome(server(k)).InProgress?)
      && (a.result.Success? ==> a.fetches > i && FetchOutcome(server(a.fetches - 1)) == Ready(a.result.value))
      && (a.result.Failure? && !a.result.error.NotReady? ==>
            a.fetches > i && FetchOutcome(server(a.fetches - 1)) == FetchFailed(a.result.error))
    decreases retries - i
  {
    if i < retries && FetchOutcome(server(i)).InProgress? {
      RetryStopsAtFirstAnswer(server, retries, i + 1);
    }
  }

  /**
   * The loop gives up with "not ready" exactly when every one of its attempts
   * was in progress (vacuously so when `retries <= 0`); it then made one fetch
   * per attempt and no more.
   */
  lemma {:induction false} RetryExhausted(server: nat -> Response<RawCollection>, retries: int, i: nat)
    ensures var a := RetryFrom(server, retries, i);
      (a.result == Failure(NotReady(retries))) <==> (forall k :: i <= k < retries ==> FetchOutcome(server(k)).InProgress?)
    ensures var a := RetryFrom(server, retries, i);
      a.result == Failure(NotReady(retries)) ==> a.fetches == if i < retries then retries else i
    decreases retries - i
  {
    if i < retries {
      RetryExhausted(server, retries, i + 1);
    }
  }

  /**
   * How often the retry loop slept: after every fetch that answered
   * "InProgress", which is every fetch when it gave up, and all but the last
   * one otherwise.
   */
  function RetrySleeps(a: Attempts, retries: int): int {
    if a.result == Failure(NotReady(retries)) then a.fetches else a.fetches - 1
  }

  /**
   * `GetOnlineUpdateCollectionWithRetry`: up to `retries` fetches, sleeping the
   * delay after each "InProgress" answer. It also reports how many fetches it
   * made and how many times it slept.
   */
  method GetOnlineUpdateCollectionWithRetry(server: nat -> Response<RawCollection>, retries: int)
    returns (r: Result<UpdateCollection, Error>, fetches: nat, sleeps: nat)
    ensures Attempts(r, fetches) == RetryFrom(server, retries, 0)
    ensures sleeps == RetrySleeps(Attempts(r, fetches), retries)
  {
    var i: nat := 0;
    sleeps := 0;
    while i < retries
      invariant RetryFrom(server, retries, i) == RetryFrom(server, retries, 0)
      invariant sleeps == i
      decreases retries - i
    {
      var collection := GetOnlineUpdateCollection(server(i));
      if collection.FetchFailed? {
        return Failure(collection.error), i + 1, sleeps;
      }
      if collection.InProgress? {
        sleeps := sleeps + 1;
        i := i + 1;
        continue;
      }
      return Success(collection.collection), i + 1, sleeps;
    }
    return Failure(NotReady(retries)), i, sleeps;
  }

  // ---------------------------------------------------------------------------
  // Task outcome
  // ---------------------------------------------------------------------------

  /** What the task waiter reports: whether the task ended successfully, and its error if any. */
  datatype TaskWait = TaskWait(finishedSuccessfully: bool, err: Option<string>)

  /** The task log fetched after a failure, when the fetch itself succeeded. */
  datatype TaskLog = LogUnavailable | TaskLog(text: string)

  /**
   * `CheckOnlineUpdateStatus`: passes exactly when the waiter reports success
   * without an error; otherwise the error carries the waiter's error and, when
   * it could be fetched, the task log.
   */
  function CheckOnlineUpdateStatus(wait: TaskWait, log: TaskLog): (r: Outcome<Error>)
    ensures r.Pass? <==> wait.finishedSuccessfully && wait.err.None?
    ensures r.Fail? ==> r.error.TaskFailed? && r.error.cause == wait.err
    ensures r.Fail? ==> r.error.log == if log.TaskLog? then Some(log.text) else None
  {
    if wait.err.Some? || !wait.finishedSuccessfully then
      match log
      case LogUnavailable => Fail(TaskFailed(wait.err, None))
      case TaskLog(text) => Fail(TaskFailed(wait.err, Some(text)))
    else
      Pass
  }

  // ---------------------------------------------------------------------------
  // Collection cache
  // ---------------------------------------------------------------------------

  /**
   * Whether an existing collection may be reused: a two-attempt fetch returns a
   * collection, `parse` (an RFC 3339 date-time reader giving seconds) accepts
   * its date, and that date is less than six hours before `now`.
   */
  function CollectionCacheValid(server: nat -> Response<RawCollection>, parse: string -> Option<int>, now: int): bool {
    match RetryFrom(server, CacheProbeRetries, 0).result
    case Failure(_) => false
    case Success(c) =>
      match parse(c.lastStatusChangeDate)
      case None => false
      case Some(t) => now - t < CacheDuration
  }

  /** The date of a ready collection parses and lies less than six hours before `now` (or after it). */
  predicate FreshCollection(f: Fetch, parse: string -> Option<int>, now: int) {
    f.Ready? && parse(f.collection.lastStatusChangeDate).Some?
    && now - parse(f.collection.lastStatusChangeDate).value < CacheDuration
  }

  /**
   * The cache is valid exactly when the first fetch, or the second after a
   * first "InProgress", returns a fresh collection. Every fetch error, an
   * unparsable date, an old date, or two "InProgress" answers make it invalid.
   */
  lemma {:induction false} CacheValidAfterAtMostTwoFetches(
    server: nat -> Response<RawCollection>, parse: string -> Option<int>, now: int)
    ensures CollectionCacheValid(server, parse, now) <==>
      || FreshCollection(FetchOutcome(server(0)), parse, now)
      || (FetchOutcome(server(0)).InProgress? && FreshCollection(FetchOutcome(server(1)), parse, now))
  {
    assert RetryFrom(server, CacheProbeRetries, 2).result.Failure?;
    if FetchOutcome(server(0)).InProgress? {
      assert RetryFrom(server, CacheProbeRetries, 0) == RetryFrom(server, CacheProbeRetries, 1);
    }
  }

  /**
   * `IsCollectionCacheValid`: never an error; any failure of the fetch reads as
   * "not valid".
   */
  method IsCollectionCacheValid(server: nat -> Response<RawCollection>, parse: string -> Option<int>, now: int)
    returns (valid: bool)
    ensures valid == CollectionCacheValid(server, parse, now)
  {
    var existing, _, _ := GetOnlineUpdateCollectionWithRetry(server, CacheProbeRetries);
    if existing.Failure? {
      return false;
    }
    var lastCheckTime := parse(existing.value.lastStatusChangeDate);
    if lastCheckTime.Some? && now - lastCheckTime.value < CacheDuration {
      return true;
    }
    return false;
  }
}
