# SmartRoad backend — a Dafny model

SmartRoad is a small HTTP backend for a road-monitoring service. It keeps
six tables: roads, the road sensors that report whether a lane is
overlapped, service stations, the parking-place sensors of those stations,
service types, and user accounts. Every handler reads or writes these
tables through the ORM and applies a few rules of its own on the way.

This project models that core in Dafny:

- `Models` (`models.dfy`) holds the six records as datatypes. It also holds
  the ORM relations between them (`Road.sensors`, `RoadSensor.road`,
  `ServiceStation.sensors`, `ServiceStation.serviceType`,
  `Sensor.serviceStation`, `ServiceType.facilities`) as order-preserving
  filters and first-match lookups.
- `RoadSensorRules` is the overlap state machine of a road sensor. The
  counter rises only on an overlapped-to-clear step, and reset zeroes it.
  Swift's trapping `+=` on a 64-bit `Int` becomes an explicit `Trap` error.
- `RoadStateObserver` is the road-state classifier. It is a loop that sums
  the counters of the road's sensors and compares the sum with the road's
  bandwidth.
- `RoadRules`, `StationRules` and `ServiceTypeRules` say which fields each
  update handler copies. `StationRules` also holds the empty-sensors
  filter and the nearest-stations query.
- `AccountRules` holds the guards of registration and login, in the order
  the handlers apply them. Only the password hash is stored.
- `Backend.Store` is a class with the six tables as `seq` fields, plus the
  UUID generator and the integer key sequence of service types. It has one
  method per request handler. Its invariant `Valid()` says:
  - every key is present and unique;
  - every foreign key resolves;
  - no two users share an email.

  Each state-changing handler keeps the invariant and states the whole new
  table. Each read handler is tied to the specification function that
  defines its answer.
- `Common` holds the generic table operations: `Filter`, `IndexOf`, `Find`,
  `Resolve`, `Remove` and the subsequence relation.

The ORM's `save` is an upsert. A record without an id is inserted under a
fresh id. A record with an id becomes an UPDATE of the row with that id;
when no row has that id, nothing changes and the body is echoed back.
Every create handler is modelled this way, split into `Insert…` and
`Overwrite…` helpers.

Further behaviour of the code that the model keeps:

- Registering a taken email is answered with 400 Bad Request
  (Sources/App/Controllers/UsersController.swift:18-19).
- The migrations declare `roadId`, `ownerId` and `type` as database
  foreign keys (Sources/App/Models/RoadSensors.swift:23,
  Sources/App/Models/Sensors.swift:21,
  Sources/App/Models/ServiceStations.swift:27). A write that names a
  missing parent fails with `ForeignKeyViolation`, and so does deleting a
  road, station or service type that still has children.
- A POST whose body carries an existing id updates that row
  (Sources/App/Controllers/RoadsController.swift:16-23 saves the decoded
  body as it is).
- The classifier (Supporting Files/RoadStateObserver.swift:10-18) answers
  `jam` once the total reaches the bandwidth.

Inputs from outside the program are parameters:

- the distance between two points (`StationRules.Distance`);
- the password hash and its check (`AccountRules.Hash`, `AccountRules.Verify`);
- query parameters, as `Option`s where `None` means absent or unparseable;
- path parameters, as ids;
- request bodies, as decoded records.

## Model

| member | source | states |
|---|---|---|
| Models.SensorsOfRoad | Sources/App/Models/Roads.swift:31-33 | exactly the road sensors whose `roadId` is the road's id, in stored order (a subsequence of the table), each with the multiplicity it has in the table |
| Models.RoadOf | Sources/App/Models/RoadSensors.swift:31-35 | the parent road is a stored road whose id is the sensor's `roadId`; there is none exactly when no road has that id |
| Models.SensorsOfStation | Sources/App/Models/ServiceStations.swift:36-38 | exactly the sensors whose `ownerId` is the station's id, in stored order, each with the multiplicity it has in the table |
| Models.StationOf | Sources/App/Models/Sensors.swift:29-33 | the parent station is a stored station whose id is the sensor's `ownerId`; none exactly when no station has it |
| Models.ServiceTypeOf | Sources/App/Models/ServiceStations.swift:40-42 | the station's service type is a stored type whose id is the station's `type`; none exactly when no type has it |
| Models.FacilitiesOf | Sources/App/Models/ServiceTypes.swift:21-23 | exactly the stations whose `type` is the type's id, in stored order, each with the multiplicity it has in the table |
| Models.RoadParentChildren | Sources/App/Models/RoadSensors.swift:31-35 | with unique road ids, a sensor is among a road's sensors exactly when that road is its parent |
| Models.StationParentChildren | Sources/App/Models/Sensors.swift:29-33 | with unique station ids, a sensor is among a station's sensors exactly when that station is its parent |
| Models.TypeParentChildren | Sources/App/Models/ServiceTypes.swift:21-23 | with unique type ids, a station is among a type's facilities exactly when that type is its service type |
| RoadSensorRules.Reset | Sources/App/Controllers/RoadSensorsController.swift:35-40 | the counter becomes 0; overlap flag, road and id are kept |
| RoadSensorRules.SetState | Sources/App/Controllers/RoadSensorsController.swift:46-52 | the flag becomes the requested state; the counter rises by one exactly on an overlapped-to-clear step, otherwise it is unchanged; id and road are kept; the step traps exactly when the counter is already `Int.max` |
| RoadSensorRules.SetStateMonotone | Sources/App/Controllers/RoadSensorsController.swift:47-49 | a state update never lowers the counter and raises it by at most one |
| RoadSensorRules.SetStatesCounts | Sources/App/Controllers/RoadSensorsController.swift:42-53 | after any sequence of state updates the counter has grown by exactly the number of overlapped-to-clear steps, the flag is the last requested state, id and road are unchanged; the sequence traps exactly when that number would pass `Int.max` |
| RoadSensorRules.CounterAfterReset | Sources/App/Controllers/RoadSensorsController.swift:35-53 | after a reset the counter equals the number of overlapped-to-clear steps requested since |
| RoadSensorRules.TransitionsBalance | Sources/App/Controllers/RoadSensorsController.swift:47-50 | counted clearings equal overlappings, up to the starting and final overlap |
| RoadStateObserver.RoadState | Sources/App/Controllers/RoadsController.swift:38-47 | `available` exactly when the counters sum below the availability, `jam` exactly when they reach it; a trap exactly when a partial sum leaves 64 bits (classifier body: Supporting Files/RoadStateObserver.swift, lines 11-17) |
| RoadStateObserver.ClassifyRoad | Sources/App/Controllers/RoadsController.swift:38-47 | the summing loop returns exactly `RoadState` of its input (classifier body: Supporting Files/RoadStateObserver.swift, lines 11-17) |
| RoadStateObserver.JamAtBandwidth | Sources/App/Controllers/RoadsController.swift:38-47 | a total equal to the availability is a jam (classifier body: Supporting Files/RoadStateObserver.swift, lines 16) |
| RoadStateObserver.NoSensors | Sources/App/Controllers/RoadsController.swift:38-47 | a road without sensors is available exactly when its bandwidth is positive (classifier body: Supporting Files/RoadStateObserver.swift, lines 12-16) |
| RoadStateObserver.TwoSingleChanges | Sources/App/Controllers/RoadsController.swift:38-47 | two sensors with one change each are available at bandwidth 3 and jammed at bandwidth 2 (classifier body: Supporting Files/RoadStateObserver.swift, lines 12-16) |
| RoadStateObserver.OneMoreChange | Sources/App/Controllers/RoadsController.swift:38-47 | one more state change on any sensor raises the total by one, and a jammed road stays jammed (classifier body: Supporting Files/RoadStateObserver.swift, lines 13-16) |
| RoadRules.UpdateRoad | Sources/App/Controllers/RoadsController.swift:59-66 | the result is the body with the stored id: all six data fields are replaced |
| RoadRules.UpdateRoadIdempotent | Sources/App/Controllers/RoadsController.swift:59-66 | updating twice with the same body is updating once |
| StationRules.UpdateStation | Sources/App/Controllers/ServiceStationsController.swift:83-88 | the result is the body with the stored id and the stored `type`: name, description and both coordinates are replaced |
| StationRules.UpdateStationIdempotent | Sources/App/Controllers/ServiceStationsController.swift:83-88 | updating twice with the same body is updating once |
| StationRules.EmptySensors | Sources/App/Controllers/ServiceStationsController.swift:34-39 | exactly the station's sensors whose place is empty, in stored order, each with the multiplicity it has in the table |
| StationRules.EmptySensorsNarrowSensors | Sources/App/Controllers/ServiceStationsController.swift:34-39 | the empty sensors are the station's sensors filtered by `isEmptyPlace`, hence a subsequence of them |
| StationRules.Nearest | Sources/App/Controllers/ServiceStationsController.swift:48-65 | bad request exactly when one of lat, long, type or range is missing; otherwise exactly the stations of that type within `Double(range)`, in stored order, each with the multiplicity it has in the table |
| StationRules.NearestAmongFacilities | Sources/App/Controllers/ServiceStationsController.swift:57-64 | the nearest stations are a subsequence of the facilities of the requested type |
| ServiceTypeRules.UpdateType | Sources/App/Controllers/ServiceTypesController.swift:47-50 | the result is the body with the stored id: only the name is replaced |
| ServiceTypeRules.UpdateTypeIdempotent | Sources/App/Controllers/ServiceTypesController.swift:47-50 | updating twice with the same body is updating once |
| AccountRules.Register | Sources/App/Controllers/UsersController.swift:16-29 | a taken email is refused first, then an empty email or password; otherwise the new record holds the email and the hash of the password, never the plaintext, and has no id yet |
| AccountRules.Login | Sources/App/Controllers/UsersController.swift:32-47 | an empty email or password is refused first, then an unknown email, then a password the stored hash does not verify, each with its own 400 reason (`EmptyUserData`, `UnknownUser`, `WrongPassword`); otherwise 200, exactly when all three checks pass |
| AccountRules.RegisterKeepsEmailsUnique | Sources/App/Controllers/UsersController.swift:17-27 | storing a registered user keeps emails unique |
| AccountRules.RegisterThenLogin | Sources/App/Controllers/UsersController.swift:24-45 | after registering, logging in with the same credentials succeeds whenever the hash verifies its own output |
| AccountRules.LoginRefusesWrongPassword | Sources/App/Controllers/UsersController.swift:40-44 | a password that verifies against no stored hash for that email is refused |
| AccountRules.EmailListing | Sources/App/Controllers/UsersController.swift:55-59 | one entry per user, in stored order, with that user's email and id |
| Backend.InsertThenDelete | Sources/App/Controllers/RoadSensorsController.swift:25-32 | a row inserted under a fresh UUID is what its id resolves to, and deleting it restores the table |
| Backend.Store.constructor | Sources/App/configure.swift:52-59 | the six tables start empty and the invariant holds |
| Backend.Store.InsertRoad | Sources/App/Controllers/RoadsController.swift:21-23 | the road is appended under the next fresh UUID; the invariant is kept |
| Backend.Store.OverwriteRoad | Sources/App/Controllers/RoadsController.swift:66 | the row with the body's id is replaced and nothing else changes; the invariant is kept |
| Backend.Store.CreateRoad | Sources/App/Controllers/RoadsController.swift:17-24 | without an id: appended under a fresh UUID and returned; with an id: the row with that id is replaced, or nothing changes |
| Backend.Store.AllRoads | Sources/App/Controllers/RoadsController.swift:27-29 | the whole table, in stored order |
| Backend.Store.RoadById | Sources/App/Controllers/RoadsController.swift:49-51 | the stored road with that id, or not found |
| Backend.Store.SensorsForRoad | Sources/App/Controllers/RoadsController.swift:31-36 | not found exactly when no road has the id; otherwise exactly that road's sensors in stored order |
| Backend.Store.RoadState | Sources/App/Controllers/RoadsController.swift:38-47 | the classifier applied to exactly that road's sensors and that road's bandwidth; nothing changes |
| Backend.Store.UpdateRoad | Sources/App/Controllers/RoadsController.swift:54-68 | not found, or only the addressed row is replaced by `RoadRules.UpdateRoad`; the invariant is kept |
| Backend.Store.DeleteRoad | Sources/App/Controllers/RoadsController.swift:71-77 | not found; refused while sensors reference the road; otherwise exactly that row is removed and no road has the id any more |
| Backend.Store.InsertRoadSensor | Sources/App/Controllers/RoadSensorsController.swift:29-31 | a sensor of an existing road is appended under the next fresh UUID; the invariant is kept |
| Backend.Store.OverwriteRoadSensor | Sources/App/Controllers/RoadSensorsController.swift:38 | the row with the body's id is replaced by a sensor of an existing road; the invariant is kept |
| Backend.Store.CreateRoadSensor | Sources/App/Controllers/RoadSensorsController.swift:25-32 | the upsert of the decoded sensor, refused when its road does not exist |
| Backend.Store.AllRoadSensors | Sources/App/Controllers/RoadSensorsController.swift:16-18 | the whole table, in stored order |
| Backend.Store.RoadSensorById | Sources/App/Controllers/RoadSensorsController.swift:20-22 | the stored sensor with that id, or not found |
| Backend.Store.ResetAmount | Sources/App/Controllers/RoadSensorsController.swift:35-40 | not found, or only the addressed sensor changes, to `RoadSensorRules.Reset` of it |
| Backend.Store.UpdateState | Sources/App/Controllers/RoadSensorsController.swift:42-53 | a missing `state` is a bad request before any lookup; then not found; then only the addressed sensor changes, to `RoadSensorRules.SetState` of it, or the trap leaves the table as it was |
| Backend.Store.DeleteRoadSensor | Sources/App/Controllers/RoadSensorsController.swift:56-62 | not found, or exactly that row is removed and no sensor has the id any more |
| Backend.Store.InsertStation | Sources/App/Controllers/ServiceStationsController.swift:72-74 | a station of an existing type is appended under the next fresh UUID; the invariant is kept |
| Backend.Store.OverwriteStation | Sources/App/Controllers/ServiceStationsController.swift:88 | the row with the body's id is replaced by a station of an existing type; the invariant is kept |
| Backend.Store.AllStations | Sources/App/Controllers/ServiceStationsController.swift:19-21 | the whole table, in stored order |
| Backend.Store.StationById | Sources/App/Controllers/ServiceStationsController.swift:23-25 | the stored station with that id, or not found |
| Backend.Store.SensorsForStation | Sources/App/Controllers/ServiceStationsController.swift:27-32 | not found exactly when no station has the id; otherwise exactly its sensors in stored order |
| Backend.Store.EmptySensorsForStation | Sources/App/Controllers/ServiceStationsController.swift:34-39 | not found exactly when no station has the id; otherwise exactly its sensors with an empty place |
| Backend.Store.ServiceTypeForStation | Sources/App/Controllers/ServiceStationsController.swift:41-46 | not found, or the stored type whose id is the station's `type`; the parent lookup never fails while the invariant holds |
| Backend.Store.NearestStations | Sources/App/Controllers/ServiceStationsController.swift:48-65 | the answer is `StationRules.Nearest` over the stored stations |
| Backend.Store.CreateStation | Sources/App/Controllers/ServiceStationsController.swift:68-75 | the upsert of the decoded station, refused when its service type does not exist |
| Backend.Store.UpdateStation | Sources/App/Controllers/ServiceStationsController.swift:78-90 | not found, or only the addressed row is replaced by `StationRules.UpdateStation`; the invariant is kept |
| Backend.Store.DeleteStation | Sources/App/Controllers/ServiceStationsController.swift:93-99 | not found; refused while sensors reference the station; otherwise exactly that row is removed |
| Backend.Store.InsertSensor | Sources/App/Models/Sensors.swift:17-24 | a sensor of an existing station is appended under the next fresh UUID; the invariant is kept |
| Backend.Store.OverwriteSensor | Sources/App/Models/Sensors.swift:17-24 | the row with the body's id is replaced by a sensor of an existing station; the invariant is kept |
| Backend.Store.SaveSensor | Sources/App/Models/Sensors.swift:17-24 | the upsert of a sensor, refused when its station does not exist |
| Backend.Store.InsertServiceType | Sources/App/Controllers/ServiceTypesController.swift:20-22 | the type is appended under the next value of the integer key sequence; the invariant is kept |
| Backend.Store.OverwriteServiceType | Sources/App/Controllers/ServiceTypesController.swift:49 | the row with the body's id is replaced; the invariant is kept |
| Backend.Store.CreateServiceType | Sources/App/Controllers/ServiceTypesController.swift:16-23 | the upsert of the decoded type; a new type fails once the key sequence would leave `Int` |
| Backend.Store.AllServiceTypes | Sources/App/Controllers/ServiceTypesController.swift:26-28 | the whole table, in stored order |
| Backend.Store.ServicesByType | Sources/App/Controllers/ServiceTypesController.swift:30-35 | not found exactly when no type has the id; otherwise exactly the stations of that type in stored order |
| Backend.Store.ServiceTypeById | Sources/App/Controllers/ServiceTypesController.swift:37-39 | the stored type with that id, or not found |
| Backend.Store.UpdateServiceType | Sources/App/Controllers/ServiceTypesController.swift:42-51 | not found, or only the addressed row is replaced by `ServiceTypeRules.UpdateType` |
| Backend.Store.DeleteServiceType | Sources/App/Controllers/ServiceTypesController.swift:54-60 | not found; refused while stations are of that type; otherwise exactly that row is removed |
| Backend.Store.Register | Sources/App/Controllers/UsersController.swift:16-29 | refused as `AccountRules.Register` says, with the table unchanged; otherwise 201 and exactly one user appended, holding the email and the hash of the password, under a fresh UUID |
| Backend.Store.Login | Sources/App/Controllers/UsersController.swift:32-47 | the answer is `AccountRules.Login` over the stored users; nothing changes |
| Backend.Store.Logout | Sources/App/Controllers/UsersController.swift:50-52 | always 200 |
| Backend.Store.UserEmails | Sources/App/Controllers/UsersController.swift:55-59 | one entry per stored user, in stored order |
| Backend.Store.DeleteUser | Sources/App/Controllers/UsersController.swift:62-68 | not found, or exactly that user is removed and no user has the id any more |

## Left out

- The distance between two points: `DistanceCalculator` is not part of this model. It is the parameter `distance`, and the filter only compares its result with the range.
- Floating point: `Double` is modelled as `real`. The conversion `Double(range)` is exact here; rounding of ranges above 2^53 is not modelled. Coordinates are only copied and passed to `distance`.
- BCrypt: hashing and verification are the parameters `hash` and `verify`. Salting, cost factors and the randomness of salts are not modelled.
- The sensors controller is not part of this model. Parking-place sensors enter the store only through the ORM save (`SaveSensor`). Their own list, update and delete endpoints are not modelled.
- Framework plumbing is not modelled: futures, routing, content decoding (a malformed body), path-parameter parsing (an unparseable id), and the mapping of errors to HTTP statuses.
- The email listing yields `(email, id)` pairs rather than the formatted strings the handler builds.
- The login success reason phrase is not modelled; success is the status 200 alone.
- Concurrency: each request is applied atomically. Races between the read and the write in registration and in the counter update are not modelled.
- UUID generation is a counter, so fresh ids never collide. A collision of random UUIDs is not modelled.
- Swift traps (the counter increment at `Int.max`, a classifier sum leaving 64 bits) end the request with the error `Trap`. A crash of the whole process is not modelled.
- Database errors other than foreign-key violations and an exhausted key sequence are not modelled. This includes lost connections and column limits.
- The authorization manager and the route table are configuration, not core logic, and are not modelled.
- Swift classes are reference types, but the records are values here. A handler's "fetch, mutate, save" is modelled as replacing the stored row.
