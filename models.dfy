/**
 * The records of internal/models/online_update.go, with the framework's
 * nullable attribute values made explicit.
 */
module Models {

  /** A framework string attribute: null, not yet known (computed later), or a known value. */
  datatype StringValue = NullString | UnknownString | KnownString(value: string) {
    /** `ValueString()`: the value when known, the empty string otherwise. */
    function ValueString(): string {
      if KnownString? then value else ""
    }
  }

  /** A framework list-of-strings attribute: null, unknown, or a known list. */
  datatype ListValue = NullList | UnknownList | KnownList(elements: seq<string>)

  /** The part of `OnlineUpdateResourceModel` the update workflow reads. */
  datatype ResourcePlan = ResourcePlan(
    updateList: ListValue,
    operationTime: StringValue,
    scheduleTime: StringValue)

  /** `OnlineUpdateCheckItem`: one available update as the server reports it. */
  datatype UpdateItem = UpdateItem(
    designation: string,
    component: string,
    subComponent: string,
    currentVersion: string,
    newVersion: string,
    severity: string,
    status: string,
    rebootRequired: string,
    downloaded: bool,
    executionStatus: string,
    relNotePath: string)

  /** `OnlineUpdateCheck`: a snapshot of the available updates and the time it was last refreshed. */
  datatype UpdateCollection = UpdateCollection(
    lastStatusChangeDate: string,
    items: seq<UpdateItem>)

  /** The designations of `items`, in collection order. */
  function Designations(items: seq<UpdateItem>): seq<string> {
    seq(|items|, k requires 0 <= k < |items| => items[k].designation)
  }

  /**
   * No designation occurs twice. The collection is built from the iRMC's
   * answer as it is; this is an assumption about the server, on which the
   * selected and deselected lists being disjoint depends.
   */
  predicate UniqueDesignations(items: seq<UpdateItem>) {
    forall i, j :: 0 <= i < j < |items| ==> items[i].designation != items[j].designation
  }
}
