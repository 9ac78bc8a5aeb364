/**
 * One-shot getters and commands (`src/api_impl.rs`): how a request is built
 * and how the transport's answer is classified into a value or one of the
 * errors of `KachakaApiError`.
 *
 * The awaited tonic call is the parameter `rpc`: the robot's answer to the
 * request it is given. Stating results in terms of `rpc(request)` for an
 * explicit `request` says which request each operation sends.
 */
module ApiImpl {
  import opened Wrappers
  import opened KachakaApi
  import Types
  import Conversion
  import opened Options

  type ApiOutcome<T> = Result<T, Types.KachakaApiError>

  // ---------------------------------------------------------- classification

  /**
   * `parse_rpc_response_with_result`: a transport failure is a communication
   * error; a delivered response is accepted only when it carries a result that
   * reports success; a result reporting failure becomes an API error with the
   * server's code; a missing result is a null result.
   */
  function ParseRpcResponseWithResult<T>(response: RpcOutcome<T>, getResult: T -> Option<ApiResult>): (r: ApiOutcome<T>)
    ensures response.Failed? ==> r == Err(Types.CommunicationError(response.status))
    ensures response.Delivered? ==>
              match getResult(response.inner)
              case None => r == Err(Types.NullResult)
              case Some(result) =>
                if result.success then r == Ok(response.inner)
                else r == Err(Types.ApiError(Types.KachakaError(result.errorCode)))
  {
    match response
    case Failed(status) => Err(Types.CommunicationError(status))
    case Delivered(inner) =>
      match getResult(inner)
      case None => Err(Types.NullResult)
      case Some(result) =>
        if result.success then Ok(inner)
        else Err(Types.ApiError(Types.KachakaError(result.errorCode)))
  }

  /** `parse_getter_response`: the delivered message unchanged, or a communication error. */
  function ParseGetterResponse<T>(response: RpcOutcome<T>): (r: ApiOutcome<T>)
    ensures r.Ok? <==> response.Delivered?
    ensures r.Ok? ==> r.value == response.inner
    ensures r.Err? ==> r.error == Types.CommunicationError(response.status)
  {
    match response
    case Delivered(inner) => Ok(inner)
    case Failed(status) => Err(Types.CommunicationError(status))
  }

  /**
   * A command call succeeds exactly when converting its result with
   * `Result::from` succeeds, and an API error carries the error that
   * conversion produces: the two classifications of a server verdict agree.
   */
  lemma RpcClassificationAgreesWithConversion<T>(response: RpcOutcome<T>, getResult: T -> Option<ApiResult>)
    requires response.Delivered? && getResult(response.inner).Some?
    ensures var converted := Conversion.FromApiResult(getResult(response.inner).value);
            var r := ParseRpcResponseWithResult(response, getResult);
            && (r.Ok? <==> converted.Ok?)
            && (r.Err? ==> r.error == Types.ApiError(converted.error))
  {
  }

  /** A getter never reports an API error or a null result: only the transport can fail it. */
  lemma GetterErrorsAreCommunicationErrors<T>(response: RpcOutcome<T>)
    ensures ParseGetterResponse(response).Err? ==> ParseGetterResponse(response).error.CommunicationError?
  {
  }

  /** A getter is a command call whose every response reports success. */
  lemma GetterIsAlwaysSuccessfulRpc<T>(response: RpcOutcome<T>, getResult: T -> Option<ApiResult>)
    requires forall t :: getResult(t).Some? && getResult(t).value.success
    ensures ParseGetterResponse(response) == ParseRpcResponseWithResult(response, getResult)
  {
  }

  /** The error kinds a command call yields: exactly one of the four outcomes holds. */
  lemma RpcOutcomeKinds<T>(response: RpcOutcome<T>, getResult: T -> Option<ApiResult>)
    ensures var r := ParseRpcResponseWithResult(response, getResult);
            && (r.Err? && r.error.CommunicationError? <==> response.Failed?)
            && (r.Err? && r.error.NullResult? <==> response.Delivered? && getResult(response.inner).None?)
            && (r.Err? && r.error.ApiError? <==>
                  response.Delivered? && getResult(response.inner).Some? && !getResult(response.inner).value.success)
            && (r.Ok? <==>
                  response.Delivered? && getResult(response.inner).Some? && getResult(response.inner).value.success)
  {
  }

  // ----------------------------------------------------------------- getters

  /** The request every getter sends: the caller's cursor in the metadata. */
  function GetRequestWithCursor(cursor: Int64): GetRequest
  {
    GetRequest(Some(Metadata(cursor)))
  }

  /** `get_robot_serial_number`. */
  function GetRobotSerialNumber(rpc: GetRequest -> RpcOutcome<GetRobotSerialNumberResponse>, cursor: Int64): (r: ApiOutcome<string>)
    ensures var out := rpc(GetRequest(Some(Metadata(cursor))));
            && (r.Ok? <==> out.Delivered?)
            && (r.Ok? ==> r.value == out.inner.serialNumber)
            && (r.Err? ==> r.error == Types.CommunicationError(out.status))
  {
    MapOk(ParseGetterResponse(rpc(GetRequestWithCursor(cursor))), (resp: GetRobotSerialNumberResponse) => resp.serialNumber)
  }

  /** `get_robot_version`. */
  function GetRobotVersion(rpc: GetRequest -> RpcOutcome<GetRobotVersionResponse>, cursor: Int64): (r: ApiOutcome<string>)
    ensures var out := rpc(GetRequest(Some(Metadata(cursor))));
            && (r.Ok? <==> out.Delivered?)
            && (r.Ok? ==> r.value == out.inner.version)
            && (r.Err? ==> r.error == Types.CommunicationError(out.status))
  {
    MapOk(ParseGetterResponse(rpc(GetRequestWithCursor(cursor))), (resp: GetRobotVersionResponse) => resp.version)
  }

  /**
   * `get_robot_pose`: after a delivered response, exactly one of "converted
   * pose" and "null result" happens, according to whether the pose is present.
   */
  function GetRobotPose(rpc: GetRequest -> RpcOutcome<GetRobotPoseResponse>, cursor: Int64): (r: ApiOutcome<Types.Pose>)
    ensures var out := rpc(GetRequest(Some(Metadata(cursor))));
            && (out.Failed? ==> r == Err(Types.CommunicationError(out.status)))
            && (out.Delivered? && out.inner.pose.None? ==> r == Err(Types.NullResult))
            && (out.Delivered? && out.inner.pose.Some? ==> r.Ok?)
            && (r.Ok? ==> out.Delivered? && out.inner.pose.Some?
                          && r.value.x == out.inner.pose.value.x
                          && r.value.y == out.inner.pose.value.y
                          && r.value.theta == out.inner.pose.value.theta)
  {
    match ParseGetterResponse(rpc(GetRequestWithCursor(cursor)))
    case Err(e) => Err(e)
    case Ok(poseResult) =>
      match poseResult.pose
      case Some(pose) => Ok(Conversion.FromPose(pose))
      case None => Err(Types.NullResult)
  }

  /** A delivered battery report whose status number the conversion accepts (it panics otherwise). */
  predicate BatteryReportConvertible(out: RpcOutcome<GetBatteryInfoResponse>)
  {
    out.Delivered? ==> Conversion.IsKnownPowerSupplyCode(out.inner.powerSupplyStatus)
  }

  /** `get_battery_info`. */
  function GetBatteryInfo(rpc: GetRequest -> RpcOutcome<GetBatteryInfoResponse>, cursor: Int64): (r: ApiOutcome<Types.BatteryInfo>)
    requires BatteryReportConvertible(rpc(GetRequest(Some(Metadata(cursor)))))
    ensures var out := rpc(GetRequest(Some(Metadata(cursor))));
            && (r.Ok? <==> out.Delivered?)
            && (r.Ok? ==> r.value.remainingPercentage == out.inner.remainingPercentage
                          && (r.value.powerSupplyStatus == Types.Charging <==> out.inner.powerSupplyStatus == 1))
            && (r.Err? ==> r.error == Types.CommunicationError(out.status))
  {
    match ParseGetterResponse(rpc(GetRequestWithCursor(cursor)))
    case Err(e) => Err(e)
    case Ok(resp) =>
      Ok(Types.BatteryInfo(Conversion.FromPowerSupplyCode(resp.powerSupplyStatus), resp.remainingPercentage))
  }

  /** A delivered command state the conversion accepts (it panics otherwise). */
  predicate CommandStateReportConvertible(out: RpcOutcome<GetCommandStateResponse>)
  {
    out.Delivered? ==> Conversion.IsConvertibleCommandState(out.inner)
  }

  /** `get_command_state`. */
  function GetCommandState(rpc: GetRequest -> RpcOutcome<GetCommandStateResponse>, cursor: Int64): (r: ApiOutcome<Types.CommandState>)
    requires CommandStateReportConvertible(rpc(GetRequest(Some(Metadata(cursor)))))
    ensures var out := rpc(GetRequest(Some(Metadata(cursor))));
            && (r.Ok? <==> out.Delivered?)
            && (r.Ok? && r.value.Running? ==> Some(r.value.command) == out.inner.command
                                              && r.value.commandId == out.inner.commandId)
            && (r.Err? ==> r.error == Types.CommunicationError(out.status))
  {
    match ParseGetterResponse(rpc(GetRequestWithCursor(cursor)))
    case Err(e) => Err(e)
    case Ok(resp) => Ok(Conversion.FromCommandStateResponse(resp))
  }

  /** A delivered last-command-result response carries metadata (the code unwraps it). */
  predicate LastCommandResultHasMetadata(out: RpcOutcome<GetLastCommandResultResponse>)
  {
    out.Delivered? ==> out.inner.metadata.Some?
  }

  /** `get_last_command_result_with_cursor`: the response's cursor and its converted result. */
  function GetLastCommandResultWithCursor(rpc: GetRequest -> RpcOutcome<GetLastCommandResultResponse>, cursor: Int64)
    : (r: ApiOutcome<(Int64, Option<Types.CommandResult>)>)
    requires LastCommandResultHasMetadata(rpc(GetRequest(Some(Metadata(cursor)))))
    ensures var out := rpc(GetRequest(Some(Metadata(cursor))));
            && (r.Ok? <==> out.Delivered?)
            && (r.Ok? ==> r.value.0 == out.inner.metadata.value.cursor
                          && (r.value.1.Some? <==> out.inner.result.Some? && out.inner.command.Some?))
            && (r.Err? ==> r.error == Types.CommunicationError(out.status))
  {
    match ParseGetterResponse(rpc(GetRequestWithCursor(cursor)))
    case Err(e) => Err(e)
    case Ok(resp) => Ok((resp.metadata.value.cursor, Conversion.FromLastCommandResultResponse(resp)))
  }

  /** `get_last_command_result`: the same call with the cursor dropped. */
  function GetLastCommandResult(rpc: GetRequest -> RpcOutcome<GetLastCommandResultResponse>, cursor: Int64)
    : (r: ApiOutcome<Option<Types.CommandResult>>)
    requires LastCommandResultHasMetadata(rpc(GetRequest(Some(Metadata(cursor)))))
    ensures var full := GetLastCommandResultWithCursor(rpc, cursor);
            && (r.Ok? <==> full.Ok?)
            && (r.Ok? ==> r.value == full.value.1)
            && (r.Err? ==> r.error == full.error)
  {
    MapOk(GetLastCommandResultWithCursor(rpc, cursor), (p: (Int64, Option<Types.CommandResult>)) => p.1)
  }

  // ---------------------------------------------------------------- commands

  /** The request `start_command` sends: the command payload, wrapped, and the options verbatim. */
  function StartCommandRequestFor(command: CommandPayload, options: StartCommandOptions): (req: StartCommandRequest)
    ensures req.command == Some(Command(Some(command)))
    ensures CarriesOptions(req, options)
  {
    StartCommandRequest(
      Some(Command(Some(command))),
      options.cancelAll,
      options.deferrable,
      options.lockOnEnd,
      options.title,
      options.ttsOnSuccess)
  }

  /** Every option field appears unchanged in the request. */
  predicate CarriesOptions(req: StartCommandRequest, options: StartCommandOptions)
  {
    && req.cancelAll == options.cancelAll
    && req.deferrable == options.deferrable
    && req.lockOnEnd == options.lockOnEnd
    && req.title == options.title
    && req.ttsOnSuccess == options.ttsOnSuccess
  }

  /** The request is determined by the command and the options: no other input reaches it. */
  lemma StartCommandRequestDetermined(command: CommandPayload, options: StartCommandOptions, req: StartCommandRequest)
    requires req.command == Some(Command(Some(command))) && CarriesOptions(req, options)
    ensures req == StartCommandRequestFor(command, options)
  {
  }

  type StartCommandRpc = StartCommandRequest -> RpcOutcome<StartCommandResponse>

  /**
   * `start_command`: sends the request built from the command and the
   * options, and on success returns the id the server gave the command.
   */
  function StartCommand(rpc: StartCommandRpc, command: CommandPayload, options: StartCommandOptions): (r: ApiOutcome<string>)
    ensures var out := rpc(StartCommandRequestFor(command, options));
            && (r.Ok? <==> out.Delivered? && out.inner.result.Some? && out.inner.result.value.success)
            && (r.Ok? ==> r.value == out.inner.commandId)
            && (out.Failed? ==> r == Err(Types.CommunicationError(out.status)))
            && (out.Delivered? && out.inner.result.None? ==> r == Err(Types.NullResult))
            && (out.Delivered? && out.inner.result.Some? && !out.inner.result.value.success ==>
                  r == Err(Types.ApiError(Types.KachakaError(out.inner.result.value.errorCode))))
  {
    var response := rpc(StartCommandRequestFor(command, options));
    MapOk(ParseRpcResponseWithResult(response, (resp: StartCommandResponse) => resp.result),
          (resp: StartCommandResponse) => resp.commandId)
  }

  /** `move_shelf`. */
  function MoveShelf(rpc: StartCommandRpc, shelfId: string, locationId: string, options: StartCommandOptions): (r: ApiOutcome<string>)
    ensures r == StartCommand(rpc, MoveShelfCommand(shelfId, locationId), options)
  {
    StartCommand(rpc, MoveShelfCommand(shelfId, locationId), options)
  }

  /** `return_shelf`. */
  function ReturnShelf(rpc: StartCommandRpc, shelfId: string, options: StartCommandOptions): (r: ApiOutcome<string>)
    ensures r == StartCommand(rpc, ReturnShelfCommand(shelfId), options)
  {
    StartCommand(rpc, ReturnShelfCommand(shelfId), options)
  }

  /** `undock_shelf`: the shelf to undock is left empty. */
  function UndockShelf(rpc: StartCommandRpc, options: StartCommandOptions): (r: ApiOutcome<string>)
    ensures r == StartCommand(rpc, UndockShelfCommand(""), options)
  {
    StartCommand(rpc, UndockShelfCommand(""), options)
  }

  /** `move_to_location`. */
  function MoveToLocation(rpc: StartCommandRpc, locationId: string, options: StartCommandOptions): (r: ApiOutcome<string>)
    ensures r == StartCommand(rpc, MoveToLocationCommand(locationId), options)
  {
    StartCommand(rpc, MoveToLocationCommand(locationId), options)
  }

  /** `return_home`. */
  function ReturnHome(rpc: StartCommandRpc, options: StartCommandOptions): (r: ApiOutcome<string>)
    ensures r == StartCommand(rpc, ReturnHomeCommand, options)
  {
    StartCommand(rpc, ReturnHomeCommand, options)
  }

  /** `dock_shelf`. */
  function DockShelf(rpc: StartCommandRpc, options: StartCommandOptions): (r: ApiOutcome<string>)
    ensures r == StartCommand(rpc, DockShelfCommand, options)
  {
    StartCommand(rpc, DockShelfCommand, options)
  }

  /** `speak`. */
  function Speak(rpc: StartCommandRpc, text: string, options: StartCommandOptions): (r: ApiOutcome<string>)
    ensures r == StartCommand(rpc, SpeakCommand(text), options)
  {
    StartCommand(rpc, SpeakCommand(text), options)
  }

  /** `move_to_pose`. */
  function MoveToPose(rpc: StartCommandRpc, x: F64, y: F64, yaw: F64, options: StartCommandOptions): (r: ApiOutcome<string>)
    ensures r == StartCommand(rpc, MoveToPoseCommand(x, y, yaw), options)
  {
    StartCommand(rpc, MoveToPoseCommand(x, y, yaw), options)
  }

  /** `lock`. */
  function Lock(rpc: StartCommandRpc, durationSec: F64, options: StartCommandOptions): (r: ApiOutcome<string>)
    ensures r == StartCommand(rpc, LockCommand(durationSec), options)
  {
    StartCommand(rpc, LockCommand(durationSec), options)
  }

  /** `move_forward`. */
  function MoveForward(rpc: StartCommandRpc, distanceMeter: F64, speed: F64, options: StartCommandOptions): (r: ApiOutcome<string>)
    ensures r == StartCommand(rpc, MoveForwardCommand(distanceMeter, speed), options)
  {
    StartCommand(rpc, MoveForwardCommand(distanceMeter, speed), options)
  }

  /** `rotate_in_place`. */
  function RotateInPlace(rpc: StartCommandRpc, angleRadian: F64, options: StartCommandOptions): (r: ApiOutcome<string>)
    ensures r == StartCommand(rpc, RotateInPlaceCommand(angleRadian), options)
  {
    StartCommand(rpc, RotateInPlaceCommand(angleRadian), options)
  }

  /** `dock_any_shelf_with_registration`: always docks facing forward. */
  function DockAnyShelfWithRegistration(rpc: StartCommandRpc, locationId: string, options: StartCommandOptions): (r: ApiOutcome<string>)
    ensures r == StartCommand(rpc, DockAnyShelfWithRegistrationCommand(true, locationId), options)
  {
    StartCommand(rpc, DockAnyShelfWithRegistrationCommand(true, locationId), options)
  }

  /** `cancel_command`: succeeds with no value exactly when the server reports success. */
  function CancelCommand(rpc: EmptyRequest -> RpcOutcome<CancelCommandResponse>): (r: ApiOutcome<()>)
    ensures var out := rpc(EmptyRequest);
            && (r.Ok? <==> out.Delivered? && out.inner.result.Some? && out.inner.result.value.success)
            && (out.Failed? ==> r == Err(Types.CommunicationError(out.status)))
            && (out.Delivered? && out.inner.result.None? ==> r == Err(Types.NullResult))
            && (out.Delivered? && out.inner.result.Some? && !out.inner.result.value.success ==>
                  r == Err(Types.ApiError(Types.KachakaError(out.inner.result.value.errorCode))))
  {
    MapOk(ParseRpcResponseWithResult(rpc(EmptyRequest), (resp: CancelCommandResponse) => resp.result),
          (_: CancelCommandResponse) => ())
  }

  /** `proceed`: succeeds with no value exactly when the server reports success. */
  function Proceed(rpc: EmptyRequest -> RpcOutcome<ProceedResponse>): (r: ApiOutcome<()>)
    ensures var out := rpc(EmptyRequest);
            && (r.Ok? <==> out.Delivered? && out.inner.result.Some? && out.inner.result.value.success)
            && (out.Failed? ==> r == Err(Types.CommunicationError(out.status)))
            && (out.Delivered? && out.inner.result.None? ==> r == Err(Types.NullResult))
            && (out.Delivered? && out.inner.result.Some? && !out.inner.result.value.success ==>
                  r == Err(Types.ApiError(Types.KachakaError(out.inner.result.value.errorCode))))
  {
    MapOk(ParseRpcResponseWithResult(rpc(EmptyRequest), (resp: ProceedResponse) => resp.result),
          (_: ProceedResponse) => ())
  }
}
