# A verified model of the kachaka-api Rust client core

The Rust client talks to a Kachaka robot over gRPC. This project models four parts of it in Dafny and proves what each one promises:

- **Shelf/location resolver** (`src/shelf_location_resolver.rs`). A `LayoutCollection` holds a list of entities and two indices, from id to position and from name to position. `LayoutCollection::new` builds both in one loop. When a key occurs twice, the later position wins. `ShelfLocationResolver` keeps one collection of locations and one of shelves. Each item from a watch stream rebuilds one whole collection and leaves the other one alone. The queries read the current collections.
- **Response classification and requests** (`src/api_impl.rs`). An RPC outcome is sorted into a value, `CommunicationError`, `ApiError(code)` or `NullResult`. The getters send the caller's cursor in the request metadata. `start_command` copies the options into its request, and each command builder fixes one command payload.
- **Conversions** (`src/conversion.rs`). These are the `From` mappings from protocol messages to domain values. Where a mapping panics, the model has a precondition instead.
- **`StartCommandOptions`** (`src/options.rs`). This is the default value plus one setter per field, modelled as record updates on an immutable value.

Files and modules:

- `wrappers.dfy` (`Wrappers`): `Option` and `Result`.
- `kachaka_api.dfy` (`KachakaApi`): the protocol messages, and the transport outcome `RpcOutcome` (a delivered response or a `Status`).
- `types.dfy` (`Types`): the domain types.
- `options.dfy` (`Options`), `conversion.dfy` (`Conversion`) and `api_impl.dfy` (`ApiImpl`): one module per source file.
- `shelf_location_resolver.dfy`: two modules, `Layout` (the collection) and `Resolver` (the class).

The awaited RPC is a function parameter `rpc`, which gives the robot's answer to a request. Each contract speaks of `rpc(request)` for one explicit request, and so also says which request is sent.

Points where the model reads the source in a particular way:

- The update loop calls `unwrap()` on every item it takes from a watch stream (`src/shelf_location_resolver.rs:83`, `:91`), so an error item panics. The model follows the code. `UpdateLocations`, `UpdateShelves`, `Apply` and `RunUpdateLoop` require the item to be `Ok`.
- The `.proto` definitions are not part of this model. Message shapes follow the fields the client reads and writes. For enums decoded from a number, the model assumes this numbering: `PowerSupplyStatus` is 0 unspecified, 1 charging, 2 discharging; `CommandState` is 0 unspecified, 1 pending, 2 running.
- The model gives `Pose`, `PowerSupplyStatus`, `BatteryInfo`, `CommandState` and `CommandResult` the shapes that `src/conversion.rs` and `src/api_impl.rs` build.
- `f64` values are `real` and are only copied, never computed with.
- Ids and names are Rust `String`s, modelled as Dafny strings. `HashMap` is a Dafny `map`.

## Model

| member | source | states |
|---|---|---|
| Options.Default | src/options.rs:3-10 | the default value has empty `title` and `tts_on_success`, `cancel_all` and `deferrable` false, and no `lock_on_end` |
| Options.New | src/options.rs:13-15 | `new()` is the default value |
| Options.Title | src/options.rs:17-20 | sets `title` to the argument and leaves the other four fields unchanged |
| Options.TtsOnSuccess | src/options.rs:22-25 | sets `tts_on_success` and leaves the other four fields unchanged |
| Options.CancelAll | src/options.rs:27-30 | sets `cancel_all` and leaves the other four fields unchanged |
| Options.Deferrable | src/options.rs:32-35 | sets `deferrable` and leaves the other four fields unchanged |
| Options.LockOnEnd | src/options.rs:37-40 | sets `lock_on_end` and leaves the other four fields unchanged |
| Options.SettersIdempotent | src/options.rs:17-40 | applying a setter twice with the same value is the same as applying it once |
| Options.SettersCommute | src/options.rs:17-40 | setters of different fields commute, for all ten pairs |
| Options.LastSetterWins | src/options.rs:17-40 | when any of the five fields is set twice, the later value replaces the earlier one |
| Conversion.FromApiResult | src/conversion.rs:4-13 | `Ok(())` if and only if `success`; otherwise `Err` with the same `error_code` |
| Conversion.FromPose | src/conversion.rs:16-24 | copies `x`, `y` and `theta` field for field |
| Conversion.FromPowerSupplyStatus | src/conversion.rs:26-34 | defined only for Charging and Discharging (any other value panics); Charging maps to Charging and Discharging to Discharging, in both directions |
| Conversion.FromPowerSupplyCode | src/conversion.rs:36-42 | defined only for numbers that decode to Charging or Discharging; gives Charging exactly for 1 and Discharging exactly for 2 |
| Conversion.KnownPowerSupplyCodes | src/conversion.rs:36-41 | the numbers the `i32` conversion accepts without panicking are exactly 1 and 2 |
| Conversion.FromCommandStateResponse | src/conversion.rs:44-55 | defined when the state number decodes and a running state has a command; the result's variant matches the decoded state in both directions; `Running` carries the response's command and `command_id` |
| Conversion.FromLastCommandResultResponse | src/conversion.rs:57-66 | `Some` if and only if both `result` and `command` are present; then `command` is passed through and `result` is the converted `Result` |
| Conversion.LastCommandResultOutcome | src/conversion.rs:57-66 | when both parts are present, the command result is `Ok` exactly when the server's result reports success, and otherwise has the server's error code |
| ApiImpl.ParseRpcResponseWithResult | src/api_impl.rs:7-27 | transport error gives `CommunicationError` whatever the payload; missing result gives `NullResult`; success gives `Ok` of the unchanged response; failure gives `ApiError` with the result's `error_code` |
| ApiImpl.ParseGetterResponse | src/api_impl.rs:29-36 | `Ok` of the unchanged inner message if and only if the response was delivered; otherwise `CommunicationError` with the transport's status |
| ApiImpl.RpcClassificationAgreesWithConversion | src/api_impl.rs:13-20 | when a delivered response has a result, the command classification is `Ok` exactly when `Result::from` (src/conversion.rs:4-13) is `Ok`, and an `ApiError` carries the same `KachakaError` |
| ApiImpl.GetterErrorsAreCommunicationErrors | src/api_impl.rs:29-36 | a getter fails only with a `CommunicationError` |
| ApiImpl.GetterIsAlwaysSuccessfulRpc | src/api_impl.rs:7-36 | the getter classification equals the command classification when every result reports success |
| ApiImpl.RpcOutcomeKinds | src/api_impl.rs:11-26 | each of the four outcome kinds occurs exactly under its own condition on the transport outcome and the result |
| ApiImpl.GetRobotSerialNumber | src/api_impl.rs:39-48 | sends the given cursor; returns `serial_number` if and only if the response was delivered, otherwise a `CommunicationError` |
| ApiImpl.GetRobotVersion | src/api_impl.rs:50-59 | sends the given cursor; returns `version` if and only if the response was delivered, otherwise a `CommunicationError` |
| ApiImpl.GetRobotPose | src/api_impl.rs:61-75 | sends the given cursor; transport failure gives `CommunicationError`; a delivered response without a pose gives `NullResult`; one with a pose gives `Ok` of that pose, field for field |
| ApiImpl.GetBatteryInfo | src/api_impl.rs:77-89 | sends the given cursor; requires a delivered status number the conversion accepts; `Ok` if and only if delivered, with the same percentage and Charging exactly for status 1 |
| ApiImpl.GetCommandState | src/api_impl.rs:91-100 | sends the given cursor; requires a convertible delivered state; `Ok` if and only if delivered, and a running state carries the response's command and id |
| ApiImpl.GetLastCommandResultWithCursor | src/api_impl.rs:102-112 | sends the given cursor; requires metadata on a delivered response (it is unwrapped); returns the response's cursor and a result that is present exactly when `result` and `command` are both present |
| ApiImpl.GetLastCommandResult | src/api_impl.rs:114-121 | the same outcome as the call with the cursor, without the cursor |
| ApiImpl.StartCommandRequestFor | src/api_impl.rs:129-138 | the request wraps the command payload, and `cancel_all`, `deferrable`, `lock_on_end`, `title` and `tts_on_success` equal the option fields |
| ApiImpl.StartCommandRequestDetermined | src/api_impl.rs:129-138 | any request with that command and those option fields is the request `start_command` builds, so no other input reaches it |
| ApiImpl.StartCommand | src/api_impl.rs:124-145 | sends the request built from the command and the options; `Ok` if and only if the reply has a successful result, and then the value is the reply's `command_id`; otherwise the error kind follows the classification |
| ApiImpl.MoveShelf | src/api_impl.rs:147-162 | starts `MoveShelfCommand` with the given shelf and destination, and the options unchanged |
| ApiImpl.ReturnShelf | src/api_impl.rs:164-177 | starts `ReturnShelfCommand` with the given shelf |
| ApiImpl.UndockShelf | src/api_impl.rs:179-191 | starts `UndockShelfCommand` with an empty `target_shelf_id` |
| ApiImpl.MoveToLocation | src/api_impl.rs:193-206 | starts `MoveToLocationCommand` with the given location |
| ApiImpl.ReturnHome | src/api_impl.rs:208-218 | starts `ReturnHomeCommand` |
| ApiImpl.DockShelf | src/api_impl.rs:220-230 | starts `DockShelfCommand` |
| ApiImpl.Speak | src/api_impl.rs:232-245 | starts `SpeakCommand` with the given text |
| ApiImpl.MoveToPose | src/api_impl.rs:247-264 | starts `MoveToPoseCommand` with `x`, `y`, `yaw` as given |
| ApiImpl.Lock | src/api_impl.rs:266-277 | starts `LockCommand` with the given duration |
| ApiImpl.MoveForward | src/api_impl.rs:279-294 | starts `MoveForwardCommand` with the given distance and speed |
| ApiImpl.RotateInPlace | src/api_impl.rs:296-309 | starts `RotateInPlaceCommand` with the given angle |
| ApiImpl.DockAnyShelfWithRegistration | src/api_impl.rs:311-327 | starts `DockAnyShelfWithRegistrationCommand` with `dock_forward = true` and the given location |
| ApiImpl.CancelCommand | src/api_impl.rs:329-339 | `Ok(())` if and only if the reply has a successful result; otherwise the classified error |
| ApiImpl.Proceed | src/api_impl.rs:341-348 | `Ok(())` if and only if the reply has a successful result; otherwise the classified error |
| Layout.IndexOfIsLastPosition | src/shelf_location_resolver.rs:21-27 | after inserting every item's key with its position in order, a key is in the index if and only if some item has it, and it maps to the largest such position |
| Layout.IndexOfInBounds | src/shelf_location_resolver.rs:24-27 | every position in the index is less than the list length |
| Layout.Build | src/shelf_location_resolver.rs:16-34 | the built collection stores the list verbatim, and both indices hold only valid positions, so the lookups at lines 37 and 41 never go out of bounds |
| Layout.New | src/shelf_location_resolver.rs:16-34 | the loop builds exactly the collection `Build` describes: the list verbatim, the id index and the name index |
| Layout.GetById | src/shelf_location_resolver.rs:36-38 | `Some` exactly when the id is indexed, and then an entity of the list; what that entity is, over the list alone, is the contract of `Layout.GetByIdFindsLast` |
| Layout.GetByName | src/shelf_location_resolver.rs:40-42 | `Some` exactly when the name is indexed, and then an entity of the list; what that entity is, over the list alone, is the contract of `Layout.GetByNameFindsLast` |
| Layout.GetByIdFindsLast | src/shelf_location_resolver.rs:36-38 | `get_by_id(k)` is `Some` if and only if some item has id `k`, and then it is the item with the largest such index |
| Layout.GetByNameFindsLast | src/shelf_location_resolver.rs:40-42 | `get_by_name(k)` is `Some` if and only if some item has name `k`, and then it is the last such item |
| Layout.UniqueIdFindsItsEntity | src/shelf_location_resolver.rs:24-38 | when ids are unique, looking up an item's id returns that item |
| Layout.RebuildForgetsAbsentKeys | src/shelf_location_resolver.rs:16-42 | a collection built from a list finds no id that no entity of the list has, and, separately, no name that no entity has |
| Layout.EmptyCollectionFindsNothing | src/shelf_location_resolver.rs:60-69 | a collection built from the empty list finds no id and no name |
| Resolver.LatestLocationsIsLastUpdate | src/shelf_location_resolver.rs:78-97 | after a series of updates, the locations in force are those of the last locations update, or the starting list if there was none |
| Resolver.LatestShelvesIsLastUpdate | src/shelf_location_resolver.rs:78-97 | after a series of updates, the shelves in force are those of the last shelves update, or the starting list if there was none |
| Resolver.ShelfLocationResolver.constructor | src/shelf_location_resolver.rs:56-72 | a new resolver holds two well-formed, empty collections |
| Resolver.ShelfLocationResolver.UpdateLocations | src/shelf_location_resolver.rs:80-87 | requires an `Ok` item; replaces the locations collection with the one built from the new list, and leaves the shelves unchanged; afterwards no id and no name the new list lacks is found, whatever the old collection held |
| Resolver.ShelfLocationResolver.UpdateShelves | src/shelf_location_resolver.rs:88-95 | requires an `Ok` item; replaces the shelves collection with the one built from the new list, and leaves the locations unchanged; afterwards no id and no name the new list lacks is found, whatever the old collection held |
| Resolver.ShelfLocationResolver.Apply | src/shelf_location_resolver.rs:79-96 | one turn of the `select!`: the stream the item came from decides which collection is replaced; the other one is unchanged |
| Resolver.ShelfLocationResolver.RunUpdateLoop | src/shelf_location_resolver.rs:74-98 | after the items delivered so far, each collection holds the list of the latest update to it |
| Resolver.ShelfLocationResolver.GetLocationById | src/shelf_location_resolver.rs:100-103 | `Some` if and only if a cached location has the id, and then it is the last such location |
| Resolver.ShelfLocationResolver.GetLocationByName | src/shelf_location_resolver.rs:105-108 | `Some` if and only if a cached location has the name, and then it is the last such location |
| Resolver.ShelfLocationResolver.GetAllLocations | src/shelf_location_resolver.rs:110-112 | exactly the cached list, in its original order |
| Resolver.ShelfLocationResolver.GetShelfById | src/shelf_location_resolver.rs:114-117 | `Some` if and only if a cached shelf has the id, and then it is the last such shelf |
| Resolver.ShelfLocationResolver.GetShelfByName | src/shelf_location_resolver.rs:119-122 | `Some` if and only if a cached shelf has the name, and then it is the last such shelf |
| Resolver.ShelfLocationResolver.GetAllShelves | src/shelf_location_resolver.rs:124-126 | exactly the cached list, in its original order |

`Resolver.TwoLocationUpdates` is a client of the resolver's contracts. Starting from a fresh resolver, it applies two locations updates (`[L1 "Dock"]`, then `[L1 "Dock", L2 "Shelf Area"]`). It shows that `L2` then resolves by id to the second entity and `Dock` resolves by name to the first. A third update with only `L2` makes `L1` unknown again.

## Left out

- Concurrency in `run_update_loop`: the `Arc<RwLock<…>>`, the `tokio::select!` between the two streams, and readers running at the same time as the writer. The model applies stream items one at a time, in the order the loop takes them, for a finite series of items. The source's loop never ends. Whether a swap is atomic for concurrent readers is not modelled.
- The `watch_*`, `get_locations` and `get_shelves` long-poll and stream adapters, and the `get_latest_*` getters. These adapters are outside the modelled core, so the two watch streams the resolver reads are inputs to `RunUpdateLoop`.
- `src/lib.rs`: each method hands the call to `api_impl` over a tonic client and adds no logic.
- The tonic transport (`Channel`, `Request`, `Response`, `Status`, connection set-up). The RPC is the `rpc` parameter, and `Status` is an opaque value that the client only passes on.
- Floating point: `f64` fields are `real` values that are only copied.
- Images (`DynamicImage`), the error-code JSON map, and the `examples/` programs.
- Panics are preconditions, not modelled failures: the `unwrap` on stream items, the `panic!` and `unwrap`s in `src/conversion.rs`, and the `metadata.unwrap()` in `get_last_command_result_with_cursor`.
- ApiImpl.GetCommandState: its contract states the transport cases and the `Running` payload only; which variant each state number gives is stated once, in `Conversion.FromCommandStateResponse`.
- ApiImpl.GetLastCommandResultWithCursor: its contract states when the result is present; its contents are stated once, in `Conversion.FromLastCommandResultResponse`.
