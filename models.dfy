/**
 * The six stored records and the relations between them. Every record has
 * an optional `id` that is absent until the record is saved; the references
 * `roadId`, `ownerId` and `typeId` are plain fields that the store checks
 * against the parent table.
 */
module Models {
  import opened Common

  datatype Road = Road(
    id: Option<Uuid>,
    address: string,
    length: Double,
    description: string,
    maxAllowedSpeed: Int64,
    amountOfLines: Int64,
    bandwidth: Int64)

  /** A sensor embedded in a road; `roadId` is fixed when it is built. */
  datatype RoadSensor = RoadSensor(
    id: Option<Uuid>,
    isOverlaped: bool,
    roadId: Uuid,
    amountOfStateChanges: Int64)

  /** A service station; `typeId` is the record's `type` column, a ServiceType id. */
  datatype ServiceStation = ServiceStation(
    id: Option<Uuid>,
    name: string,
    description: string,
    latitude: Double,
    longtitude: Double,
    typeId: Int64)

  /** A parking-place sensor of a station; `ownerId` is fixed when it is built. */
  datatype Sensor = Sensor(
    id: Option<Uuid>,
    isEmptyPlace: bool,
    ownerId: Uuid)

  /** The only record whose key is an integer rather than a UUID. */
  datatype ServiceType = ServiceType(
    id: Option<Int64>,
    typeName: string)

  /** An account; `password` holds whatever the caller built it with (the hash). */
  datatype User = User(
    id: Option<Uuid>,
    email: string,
    password: string)

  // Primary keys, as functions so that the generic table operations can use them.
  function RoadKey(r: Road): Option<Uuid> { r.id }
  function RoadSensorKey(s: RoadSensor): Option<Uuid> { s.id }
  function StationKey(s: ServiceStation): Option<Uuid> { s.id }
  function SensorKey(s: Sensor): Option<Uuid> { s.id }
  function TypeKey(t: ServiceType): Option<Int64> { t.id }
  function UserKey(u: User): Option<Uuid> { u.id }
  function UserEmail(u: User): string { u.email }

  /** `Road.sensors`: the road sensors whose `roadId` is the road's id. */
  function SensorsOfRoad(roadSensors: seq<RoadSensor>, roadId: Uuid): (r: seq<RoadSensor>)
    ensures forall s :: s in r <==> s in roadSensors && s.roadId == roadId
    ensures forall s :: multiset(r)[s] == if s.roadId == roadId then multiset(roadSensors)[s] else 0
    ensures IsSubsequence(r, roadSensors)
  {
    Filter(roadSensors, (s: RoadSensor) => s.roadId == roadId)
  }

  /** `RoadSensor.road`: the road whose id is the sensor's `roadId`. */
  function RoadOf(sensor: RoadSensor, roads: seq<Road>): (r: Option<Road>)
    ensures r.Some? ==> r.value in roads && r.value.id == Some(sensor.roadId)
    ensures r.None? <==> forall road :: road in roads ==> road.id != Some(sensor.roadId)
  {
    Find(roads, RoadKey, Some(sensor.roadId))
  }

  /** `ServiceStation.sensors`: the sensors whose `ownerId` is the station's id. */
  function SensorsOfStation(sensors: seq<Sensor>, stationId: Uuid): (r: seq<Sensor>)
    ensures forall s :: s in r <==> s in sensors && s.ownerId == stationId
    ensures forall s :: multiset(r)[s] == if s.ownerId == stationId then multiset(sensors)[s] else 0
    ensures IsSubsequence(r, sensors)
  {
    Filter(sensors, (s: Sensor) => s.ownerId == stationId)
  }

  /** `Sensor.serviceStation`: the station whose id is the sensor's `ownerId`. */
  function StationOf(sensor: Sensor, stations: seq<ServiceStation>): (r: Option<ServiceStation>)
    ensures r.Some? ==> r.value in stations && r.value.id == Some(sensor.ownerId)
    ensures r.None? <==> forall st :: st in stations ==> st.id != Some(sensor.ownerId)
  {
    Find(stations, StationKey, Some(sensor.ownerId))
  }

  /** `ServiceStation.serviceType`: the service type whose id is the station's `type`. */
  function ServiceTypeOf(station: ServiceStation, types: seq<ServiceType>): (r: Option<ServiceType>)
    ensures r.Some? ==> r.value in types && r.value.id == Some(station.typeId)
    ensures r.None? <==> forall t :: t in types ==> t.id != Some(station.typeId)
  {
    Find(types, TypeKey, Some(station.typeId))
  }

  /** `ServiceType.facilities`: the stations whose `type` is the service type's id. */
  function FacilitiesOf(stations: seq<ServiceStation>, typeId: Int64): (r: seq<ServiceStation>)
    ensures forall st :: st in r <==> st in stations && st.typeId == typeId
    ensures forall st :: multiset(r)[st] == if st.typeId == typeId then multiset(stations)[st] else 0
    ensures IsSubsequence(r, stations)
  {
    Filter(stations, (st: ServiceStation) => st.typeId == typeId)
  }

  /**
   * Parent and children relations are two views of one reference: a sensor
   * is among its road's sensors exactly when its `road` parent is that road.
   */
  lemma RoadParentChildren(roads: seq<Road>, roadSensors: seq<RoadSensor>, road: Road, s: RoadSensor)
    requires road in roads && road.id.Some? && s in roadSensors
    requires UniqueKeys(roads, RoadKey)
    ensures s in SensorsOfRoad(roadSensors, road.id.value) <==> RoadOf(s, roads) == Some(road)
  {
  }

  /** The same two views of the reference from a sensor to its station. */
  lemma StationParentChildren(stations: seq<ServiceStation>, sensors: seq<Sensor>, st: ServiceStation, s: Sensor)
    requires st in stations && st.id.Some? && s in sensors
    requires UniqueKeys(stations, StationKey)
    ensures s in SensorsOfStation(sensors, st.id.value) <==> StationOf(s, stations) == Some(st)
  {
  }

  /** And of the reference from a station to its service type. */
  lemma TypeParentChildren(types: seq<ServiceType>, stations: seq<ServiceStation>, t: ServiceType, st: ServiceStation)
    requires t in types && t.id.Some? && st in stations
    requires UniqueKeys(types, TypeKey)
    ensures st in FacilitiesOf(stations, t.id.value) <==> ServiceTypeOf(st, types) == Some(t)
  {
  }
}
