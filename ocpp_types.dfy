/** Values shared by the OCPP 1.6 remote start/stop operations: the error
    outcomes that the controller throws as exceptions, the request parameters
    it builds, and the communication task it polls. */
module OcppTypes {

  datatype Option<T> = None | Some(value: T)

  /** The reasons an operation of the controller fails (each one an exception
      in the controller). */
  datatype Failure =
    | NoTransactions      // the charge box has no active transaction
    | NotAssociated       // the selected transaction's tag is not in the caller's group
    | MissingRecord       // a tag of the group has no overview record
    | UnknownTransaction  // the selected transaction has no details in the repository
    | NoResult            // the task's result map has no entry for the charge box
    | NullResponse        // the charge box's result carries no response
    | NotAccepted         // the charge box answered something other than "Accepted"

  datatype Result<T> = Ok(value: T) | Err(error: Failure)

  type TagId = string

  /** The literal response code of an accepting charge point. */
  const Accepted: string := "Accepted"

  datatype OcppTransport = Soap | Json

  /** One addressed charge point: the transport to use and its charge box id. */
  datatype ChargePointSelect = ChargePointSelect(transport: OcppTransport, chargeBoxId: string)

  /** Parameters of a remote start request (section 5.11 of OCPP 1.6). */
  datatype RemoteStartParams = RemoteStartParams(
    idTag: TagId,
    connectorId: nat,
    targets: seq<ChargePointSelect>)

  /** Parameters of a remote stop request (section 5.12 of OCPP 1.6). */
  datatype RemoteStopParams = RemoteStopParams(
    transactionId: int,
    targets: seq<ChargePointSelect>)

  /** What one charge point answered: the response code, or none (null). */
  datatype RequestResult = RequestResult(response: Option<string>)

  /** A dispatched communication task as the controller reads it: whether it
      is finished and its result per charge box id. */
  datatype TaskState = TaskState(finished: bool, results: map<string, RequestResult>)

  /** The exit condition of the controller's polling loop: the loop sleeps
      while the task is unfinished or holds more than one result. */
  predicate WaitIsOver(task: TaskState)
  {
    task.finished && |task.results| <= 1
  }

  /** The single JSON target that both operations address. */
  function JsonTarget(chargeBoxId: string): seq<ChargePointSelect>
  {
    [ChargePointSelect(Json, chargeBoxId)]
  }
}
