/**
 * The `From` conversions from protocol messages to domain values
 * (`src/conversion.rs`). Several of them `unwrap` or `panic!` on inputs they
 * do not handle; those inputs are excluded by a precondition, which is the
 * obligation the code leaves to its callers.
 */
module Conversion {
  import opened Wrappers
  import KachakaApi
  import opened Types

  /** `Result<(), KachakaError>::from(kachaka_api::Result)`. */
  function FromApiResult(result: KachakaApi.ApiResult): (r: Result<(), KachakaError>)
    ensures r.Ok? <==> result.success
    ensures r.Err? ==> r.error.errorCode == result.errorCode
  {
    if result.success then Ok(()) else Err(KachakaError(result.errorCode))
  }

  /** `Pose::from(kachaka_api::Pose)`. */
  function FromPose(pose: KachakaApi.Pose): (p: Pose)
    ensures p.x == pose.x && p.y == pose.y && p.theta == pose.theta
  {
    Pose(pose.x, pose.y, pose.theta)
  }

  /** The protocol statuses the domain type can represent; any other one panics. */
  predicate IsKnownPowerSupplyStatus(status: KachakaApi.PowerSupplyStatus)
  {
    status == KachakaApi.Charging || status == KachakaApi.Discharging
  }

  /** `PowerSupplyStatus::from(kachaka_api::PowerSupplyStatus)`. */
  function FromPowerSupplyStatus(status: KachakaApi.PowerSupplyStatus): (r: PowerSupplyStatus)
    requires IsKnownPowerSupplyStatus(status)
    ensures r == Charging <==> status == KachakaApi.Charging
    ensures r == Discharging <==> status == KachakaApi.Discharging
  {
    match status
    case Charging => Charging
    case Discharging => Discharging
  }

  /** The wire numbers `PowerSupplyStatus::from(i32)` accepts without panicking. */
  predicate IsKnownPowerSupplyCode(code: KachakaApi.Int32)
  {
    var decoded := KachakaApi.PowerSupplyStatusFromCode(code);
    decoded.Some? && IsKnownPowerSupplyStatus(decoded.value)
  }

  /** `PowerSupplyStatus::from(i32)`: decode the wire number, then convert. */
  function FromPowerSupplyCode(code: KachakaApi.Int32): (r: PowerSupplyStatus)
    requires IsKnownPowerSupplyCode(code)
    ensures r == Charging <==> code == 1
    ensures r == Discharging <==> code == 2
  {
    FromPowerSupplyStatus(KachakaApi.PowerSupplyStatusFromCode(code).value)
  }

  /** The wire numbers accepted are exactly those of Charging and Discharging. */
  lemma KnownPowerSupplyCodes(code: KachakaApi.Int32)
    ensures IsKnownPowerSupplyCode(code) <==> code == 1 || code == 2
  {
  }

  /**
   * The responses `CommandState::from` handles: the state number decodes, and a
   * running command comes with the command it runs.
   */
  predicate IsConvertibleCommandState(response: KachakaApi.GetCommandStateResponse)
  {
    var decoded := KachakaApi.CommandStateFromCode(response.state);
    decoded.Some? && (decoded.value == KachakaApi.Running ==> response.command.Some?)
  }

  /** `CommandState::from(GetCommandStateResponse)`. */
  function FromCommandStateResponse(response: KachakaApi.GetCommandStateResponse): (r: CommandState)
    requires IsConvertibleCommandState(response)
    ensures r.Unspecified? <==> KachakaApi.CommandStateFromCode(response.state) == Some(KachakaApi.StateUnspecified)
    ensures r.Pending? <==> KachakaApi.CommandStateFromCode(response.state) == Some(KachakaApi.Pending)
    ensures r.Running? <==> KachakaApi.CommandStateFromCode(response.state) == Some(KachakaApi.Running)
    ensures r.Running? ==> Some(r.command) == response.command && r.commandId == response.commandId
  {
    match KachakaApi.CommandStateFromCode(response.state).value
    case StateUnspecified => Unspecified
    case Pending => Pending
    case Running => Running(response.command.value, response.commandId)
  }

  /** `Option<CommandResult>::from(GetLastCommandResultResponse)`. */
  function FromLastCommandResultResponse(response: KachakaApi.GetLastCommandResultResponse): (r: Option<CommandResult>)
    ensures r.Some? <==> response.result.Some? && response.command.Some?
    ensures r.Some? ==> r.value.command == response.command.value
    ensures r.Some? ==> r.value.result == FromApiResult(response.result.value)
  {
    match response.result
    case None => None
    case Some(result) =>
      match response.command
      case None => None
      case Some(command) => Some(CommandResult(command, FromApiResult(result)))
  }

  /**
   * A last command result succeeded exactly when the server's result says so,
   * and otherwise carries the server's error code.
   */
  lemma LastCommandResultOutcome(response: KachakaApi.GetLastCommandResultResponse)
    requires response.result.Some? && response.command.Some?
    ensures FromLastCommandResultResponse(response).Some?
    ensures FromLastCommandResultResponse(response).value.result.Ok? <==> response.result.value.success
    ensures FromLastCommandResultResponse(response).value.result.Err? ==>
              FromLastCommandResultResponse(response).value.result.error.errorCode == response.result.value.errorCode
  {
  }
}
