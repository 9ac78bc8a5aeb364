/**
 * The client's own domain types (`src/types.rs`): the error taxonomy and the
 * values the conversions produce. The shapes of `Pose`, `PowerSupplyStatus`,
 * `BatteryInfo`, `CommandState` and `CommandResult` follow their
 * construction in `src/conversion.rs` and `src/api_impl.rs`.
 */
module Types {
  import opened Wrappers
  import KachakaApi

  /** A domain failure reported by the server. */
  datatype KachakaError = KachakaError(errorCode: KachakaApi.Int32)

  /** Every way a client call can fail. */
  datatype KachakaApiError =
    | CommunicationError(status: KachakaApi.Status)
    | ApiError(error: KachakaError)
    | NullResult

  datatype Pose = Pose(x: KachakaApi.F64, y: KachakaApi.F64, theta: KachakaApi.F64)

  /** Unlike the protocol enum, the domain type has no "unspecified" value. */
  datatype PowerSupplyStatus = Charging | Discharging

  datatype BatteryInfo = BatteryInfo(powerSupplyStatus: PowerSupplyStatus, remainingPercentage: KachakaApi.F64)

  datatype CommandState =
    | Unspecified
    | Pending
    | Running(command: KachakaApi.Command, commandId: string)

  datatype CommandResult = CommandResult(command: KachakaApi.Command, result: Result<(), KachakaError>)
}
