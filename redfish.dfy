/**
 * What the update workflow exchanges with the iRMC's Redfish service: responses
 * as the workflow sees them (the HTTP client and JSON decoding are abstracted
 * away), the body of the online-update action, and the kinds of error it reports.
 */
module Redfish {
  import opened Wrappers

  const StatusOK: int := 200
  const StatusCreated: int := 201
  const StatusAccepted: int := 202
  const StatusNoContent: int := 204

  /** The statuses both online-update triggers (check and execute) accept as success. */
  predicate Accepted(status: int) {
    status == StatusOK || status == StatusCreated || status == StatusAccepted || status == StatusNoContent
  }

  /**
   * A request whose body the workflow decodes: either the transport failed, or
   * a status arrived with a body that did (Some) or did not (None) decode.
   */
  datatype Response<B> = TransportError | Received(status: int, body: Option<B>)

  /**
   * A POST whose body the workflow does not decode. `location` is the `Location`
   * header, the empty string when the header is absent.
   */
  datatype PostResult = PostFailed | Posted(status: int, location: string)

  /** The JSON body of the `OnlineUpdate` action; `startDate` is present only for scheduled runs. */
  datatype OnlineUpdatePayload = OnlineUpdatePayload(
    executionMode: string,
    schedulingType: string,
    startDate: Option<string>)

  /** The kinds of error the workflow reports; each aborts the operation. */
  datatype Error =
    | RequestFailed                                  // the HTTP client returned an error
    | UnexpectedStatus(code: int)                    // a status the call does not accept
    | DecodeFailed                                   // the body is not the expected JSON
    | LicenseNotFound                                // no "eLCM" key on the iRMC
    | NotReady(retries: int)                         // the collection stayed "InProgress"
    | TaskFailed(cause: Option<string>, log: Option<string>)  // the remote task failed or timed out
    | LocationMissing                                // the execute call returned no task location
    | ScheduleTimeRequired                           // operation time `Once` without a schedule time
    | DeselectFailed(designation: string, status: Option<int>)  // a deselect POST failed (None: transport)
}
