/**
 * The protocol messages the client exchanges with the robot (the generated
 * `kachaka_api` types), reduced to the fields the client reads or writes, and
 * the transport's answer to one call.
 *
 * The `.proto` definitions that generate these types are not part of this
 * model: their shapes follow the field accesses in the client, and where the
 * client decodes an enum from its wire number, the numbering is the protocol's
 * usual one (0 = unspecified, then the declared values in order).
 */
module KachakaApi {
  import opened Wrappers

  /** Protobuf `int32` and `int64`. */
  type Int32 = x: int | -0x8000_0000 <= x < 0x8000_0000
  type Int64 = x: int | -0x8000_0000_0000_0000 <= x < 0x8000_0000_0000_0000

  /** A protobuf `double`: only ever copied here, so no IEEE arithmetic is modelled. */
  type F64 = real

  /** Fields of a message that the client carries without looking into them. */
  type Payload = seq<int>

  // ---------------------------------------------------------------- transport

  /** `tonic::Status`: opaque to the client, which only passes it on. */
  datatype Status = Status(code: int, message: string)

  /** `Result<tonic::Response<T>, tonic::Status>`: what one awaited RPC yields. */
  datatype RpcOutcome<T> = Delivered(inner: T) | Failed(status: Status)

  // ------------------------------------------------------------ common parts

  /** `kachaka_api::Result`: the server's verdict on a command call. */
  datatype ApiResult = ApiResult(success: bool, errorCode: Int32)

  /** The long-poll watermark carried by getter requests and responses. */
  datatype Metadata = Metadata(cursor: Int64)

  datatype GetRequest = GetRequest(metadata: Option<Metadata>)

  datatype EmptyRequest = EmptyRequest

  datatype Pose = Pose(x: F64, y: F64, theta: F64)

  // ------------------------------------------------------------------- enums

  datatype PowerSupplyStatus = PowerSupplyUnspecified | Charging | Discharging

  /** `PowerSupplyStatus::try_from(i32)`: defined exactly on the declared numbers. */
  function PowerSupplyStatusFromCode(code: Int32): Option<PowerSupplyStatus>
  {
    if code == 0 then Some(PowerSupplyUnspecified)
    else if code == 1 then Some(Charging)
    else if code == 2 then Some(Discharging)
    else None
  }

  datatype CommandState = StateUnspecified | Pending | Running

  /** `CommandState::try_from(i32)`. */
  function CommandStateFromCode(code: Int32): Option<CommandState>
  {
    if code == 0 then Some(StateUnspecified)
    else if code == 1 then Some(Pending)
    else if code == 2 then Some(Running)
    else None
  }

  // ---------------------------------------------------------------- commands

  /** The `command::Command` oneof: one payload per robot command the client can start. */
  datatype CommandPayload =
    | MoveShelfCommand(targetShelfId: string, destinationLocationId: string)
    | ReturnShelfCommand(targetShelfId: string)
    | UndockShelfCommand(targetShelfId: string)
    | MoveToLocationCommand(targetLocationId: string)
    | ReturnHomeCommand
    | DockShelfCommand
    | SpeakCommand(text: string)
    | MoveToPoseCommand(x: F64, y: F64, yaw: F64)
    | LockCommand(durationSec: F64)
    | MoveForwardCommand(distanceMeter: F64, speed: F64)
    | RotateInPlaceCommand(angleRadian: F64)
    | DockAnyShelfWithRegistrationCommand(dockForward: bool, targetLocationId: string)

  /** `kachaka_api::Command`, the message wrapping the oneof. */
  datatype Command = Command(command: Option<CommandPayload>)

  /** `kachaka_api::LockOnEnd`: passed through untouched. */
  datatype LockOnEnd = LockOnEnd(fields: Payload)

  datatype StartCommandRequest = StartCommandRequest(
    command: Option<Command>,
    cancelAll: bool,
    deferrable: bool,
    lockOnEnd: Option<LockOnEnd>,
    title: string,
    ttsOnSuccess: string)

  datatype StartCommandResponse = StartCommandResponse(result: Option<ApiResult>, commandId: string)
  datatype CancelCommandResponse = CancelCommandResponse(result: Option<ApiResult>)
  datatype ProceedResponse = ProceedResponse(result: Option<ApiResult>)

  // ------------------------------------------------------- getter responses

  datatype GetRobotSerialNumberResponse = GetRobotSerialNumberResponse(serialNumber: string)
  datatype GetRobotVersionResponse = GetRobotVersionResponse(version: string)
  datatype GetRobotPoseResponse = GetRobotPoseResponse(pose: Option<Pose>)
  datatype GetBatteryInfoResponse = GetBatteryInfoResponse(powerSupplyStatus: Int32, remainingPercentage: F64)
  datatype GetCommandStateResponse = GetCommandStateResponse(state: Int32, command: Option<Command>, commandId: string)
  datatype GetLastCommandResultResponse = GetLastCommandResultResponse(
    metadata: Option<Metadata>,
    result: Option<ApiResult>,
    command: Option<Command>)

  // ---------------------------------------------------------------- layout

  /** A named place on the map; `details` are the remaining fields, kept verbatim. */
  datatype Location = Location(id: string, name: string, details: Payload)

  /** A shelf the robot can carry; `details` are the remaining fields, kept verbatim. */
  datatype Shelf = Shelf(id: string, name: string, details: Payload)
}
