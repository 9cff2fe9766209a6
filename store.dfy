/**
 * The backend as one store of six tables, each kept in insertion order,
 * with one method per request handler. Path parameters arrive as ids,
 * query parameters as `Option`s (absent or unparseable is `None`), request
 * bodies as decoded records; the distance, hash and verify functions are
 * passed in by the caller.
 *
 * Saving follows the ORM: a record without an id is inserted under a fresh
 * one; a record with an id is an UPDATE of the row with that id, which
 * changes nothing when no row has it. The schema's references are foreign
 * keys the store enforces: a write naming a missing parent, and a delete of
 * a parent that still has children, are refused.
 */
module Backend {
  import opened Common
  import opened Models
  import RoadSensorRules
  import RoadRules
  import StationRules
  import ServiceTypeRules
  import AccountRules
  import RoadStateObserver

  /** Every row of `s` has a UUID key below `bound`. */
  ghost predicate UuidsBelow<T>(s: seq<T>, key: T -> Option<Uuid>, bound: nat) {
    forall i :: 0 <= i < |s| ==> key(s[i]).Some? && key(s[i]).value.n < bound
  }

  /** Every service type has an id the key sequence has already handed out. */
  ghost predicate TypeIdsBelow(types: seq<ServiceType>, bound: nat) {
    forall i :: 0 <= i < |types| ==> types[i].id.Some? && types[i].id.value < bound
  }

  /** `RoadSensor.roadId` references `Road.id`. */
  ghost predicate RoadSensorsReferenceRoads(roadSensors: seq<RoadSensor>, roads: seq<Road>) {
    forall s :: s in roadSensors ==> RoadOf(s, roads).Some?
  }

  /** `Sensor.ownerId` references `ServiceStation.id`. */
  ghost predicate SensorsReferenceStations(sensors: seq<Sensor>, stations: seq<ServiceStation>) {
    forall s :: s in sensors ==> StationOf(s, stations).Some?
  }

  /** `ServiceStation.type` references `ServiceType.id`. */
  ghost predicate StationsReferenceTypes(stations: seq<ServiceStation>, types: seq<ServiceType>) {
    forall st :: st in stations ==> ServiceTypeOf(st, types).Some?
  }

  /** A row under the next fresh UUID keeps the keys of a table unique and below the new bound. */
  lemma AppendFreshKey<T>(s: seq<T>, key: T -> Option<Uuid>, bound: nat, row: T)
    requires UniqueKeys(s, key) && UuidsBelow(s, key, bound) && key(row) == Some(Uuid(bound))
    ensures UniqueKeys(s + [row], key) && UuidsBelow(s + [row], key, bound + 1)
  {
    var s' := s + [row];
    forall i, j | 0 <= i < j < |s'| ensures key(s'[i]) != key(s'[j]) {
      if j == |s| {
        assert key(s'[i]).value.n < bound;
      }
    }
  }

  /**
   * A row saved under the next fresh UUID is the one its id resolves to, and
   * deleting it gives back the table as it was: create and delete are inverse.
   */
  lemma InsertThenDelete<T(!new)>(s: seq<T>, key: T -> Option<Uuid>, bound: nat, row: T)
    requires UuidsBelow(s, key, bound) && key(row) == Some(Uuid(bound))
    ensures IndexOf(s + [row], key, key(row)) == Some(|s|)
    ensures Resolve(s + [row], key, key(row)) == Success(row)
    ensures Remove(s + [row], |s|) == s
  {
    var s' := s + [row];
    assert forall j :: 0 <= j < |s| ==> key(s[j]) != key(row);
    IndexOfAppend(s, row, key, key(row));
    assert s'[..|s|] == s;
  }

  /** Overwriting a row by one with the same key keeps the keys unique and below the bound. */
  lemma ReplaceSameKey<T>(s: seq<T>, key: T -> Option<Uuid>, bound: nat, i: nat, row: T)
    requires UniqueKeys(s, key) && UuidsBelow(s, key, bound) && i < |s| && key(row) == key(s[i])
    ensures UniqueKeys(s[i := row], key) && UuidsBelow(s[i := row], key, bound)
  {
  }

  /** Writing a sensor whose road exists keeps every road sensor's road resolvable. */
  lemma WriteKeepsRoadReferences(roadSensors: seq<RoadSensor>, roads: seq<Road>, i: nat, row: RoadSensor)
    requires RoadSensorsReferenceRoads(roadSensors, roads)
    requires i <= |roadSensors| && RoadOf(row, roads).Some?
    ensures i < |roadSensors| ==> RoadSensorsReferenceRoads(roadSensors[i := row], roads)
    ensures i == |roadSensors| ==> RoadSensorsReferenceRoads(roadSensors + [row], roads)
  {
    var written := if i < |roadSensors| then roadSensors[i := row] else roadSensors + [row];
    forall s | s in written ensures RoadOf(s, roads).Some? {
      var j :| 0 <= j < |written| && written[j] == s;
      if j != i {
        assert s == roadSensors[j];
      }
    }
  }

  /** Appending a parent row keeps every child's parent resolvable. */
  lemma AppendKeepsParents<T(!new), K>(parents: seq<T>, key: T -> K, row: T, k: K)
    requires IndexOf(parents, key, k).Some?
    ensures IndexOf(parents + [row], key, k).Some?
  {
    var j := IndexOf(parents, key, k).value;
    assert (parents + [row])[j] == parents[j];
  }

  /** Writing a sensor whose station exists keeps every sensor's station resolvable. */
  lemma WriteKeepsStationReferences(sensors: seq<Sensor>, stations: seq<ServiceStation>, i: nat, row: Sensor)
    requires SensorsReferenceStations(sensors, stations)
    requires i <= |sensors| && StationOf(row, stations).Some?
    ensures i < |sensors| ==> SensorsReferenceStations(sensors[i := row], stations)
    ensures i == |sensors| ==> SensorsReferenceStations(sensors + [row], stations)
  {
    var written := if i < |sensors| then sensors[i := row] else sensors + [row];
    forall s | s in written ensures StationOf(s, stations).Some? {
      var j :| 0 <= j < |written| && written[j] == s;
      if j != i {
        assert s == sensors[j];
      }
    }
  }

  /** Writing a station whose service type exists keeps every station's type resolvable. */
  lemma WriteKeepsTypeReferences(stations: seq<ServiceStation>, types: seq<ServiceType>, i: nat, row: ServiceStation)
    requires StationsReferenceTypes(stations, types)
    requires i <= |stations| && ServiceTypeOf(row, types).Some?
    ensures i < |stations| ==> StationsReferenceTypes(stations[i := row], types)
    ensures i == |stations| ==> StationsReferenceTypes(stations + [row], types)
  {
    var written := if i < |stations| then stations[i := row] else stations + [row];
    forall st | st in written ensures ServiceTypeOf(st, types).Some? {
      var j :| 0 <= j < |written| && written[j] == st;
      if j != i {
        assert st == stations[j];
      }
    }
  }
  /**
   * The database invariant over the six tables and the two key generators:
   * keys are present, unique and below the generator; every reference
   * resolves; no two users share an email.
   */
  ghost predicate Consistent(roads: seq<Road>, roadSensors: seq<RoadSensor>, stations: seq<ServiceStation>,
                             sensors: seq<Sensor>, serviceTypes: seq<ServiceType>, users: seq<User>,
                             nextUuid: nat, nextTypeId: nat)
  {
    && UniqueKeys(roads, RoadKey) && UuidsBelow(roads, RoadKey, nextUuid)
    && UniqueKeys(roadSensors, RoadSensorKey) && UuidsBelow(roadSensors, RoadSensorKey, nextUuid)
    && UniqueKeys(stations, StationKey) && UuidsBelow(stations, StationKey, nextUuid)
    && UniqueKeys(sensors, SensorKey) && UuidsBelow(sensors, SensorKey, nextUuid)
    && UniqueKeys(users, UserKey) && UuidsBelow(users, UserKey, nextUuid)
    && UniqueKeys(serviceTypes, TypeKey) && TypeIdsBelow(serviceTypes, nextTypeId)
    && AccountRules.UniqueEmails(users)
    && RoadSensorsReferenceRoads(roadSensors, roads)
    && SensorsReferenceStations(sensors, stations)
    && StationsReferenceTypes(stations, serviceTypes)
  }

  class Store {
    var roads: seq<Road>
    var roadSensors: seq<RoadSensor>
    var stations: seq<ServiceStation>
    var sensors: seq<Sensor>
    var serviceTypes: seq<ServiceType>
    var users: seq<User>
    /** The UUID the next insert of a UUID-keyed record receives. */
    var nextUuid: nat
    /** The next value of the service-type key sequence. */
    var nextTypeId: nat

    /** Keys are present, unique and fresh; references resolve; emails are unique. */
    ghost predicate Valid()
      reads this
    {
      Consistent(roads, roadSensors, stations, sensors, serviceTypes, users, nextUuid, nextTypeId)
    }

    /** An empty database; the service-type key sequence starts at 1. */
    constructor ()
      ensures Valid()
      ensures roads == [] && roadSensors == [] && stations == [] && sensors == []
      ensures serviceTypes == [] && users == []
    {
      roads, roadSensors, stations, sensors, serviceTypes, users := [], [], [], [], [], [];
      nextUuid, nextTypeId := 0, 1;
    }

    // ---------------------------------------------------------------- roads

    /** The INSERT of a save: the road is stored under the next fresh UUID. */
    method InsertRoad(body: Road) returns (row: Road)
      requires Valid()
      modifies this`roads, this`nextUuid
      ensures Valid()
      ensures row == body.(id := Some(Uuid(old(nextUuid)))) && roads == old(roads) + [row]
    {
      row := body.(id := Some(Uuid(nextUuid)));
      AppendFreshKey(roads, RoadKey, nextUuid, row);
      ghost var before := roads;
      roads := roads + [row];
      nextUuid := nextUuid + 1;
      forall s | s in roadSensors ensures RoadOf(s, roads).Some? {
        AppendKeepsParents(before, RoadKey, row, Some(s.roadId));
      }
    }

    /** The UPDATE of a save: row `i` is overwritten by a road with the same id. */
    method OverwriteRoad(i: nat, body: Road)
      requires Valid() && i < |roads| && body.id == roads[i].id
      modifies this`roads
      ensures Valid()
      ensures roads == old(roads)[i := body]
    {
      ReplaceSameKey(roads, RoadKey, nextUuid, i, body);
      ghost var before := roads;
      roads := roads[i := body];
      forall s | s in roadSensors ensures RoadOf(s, roads).Some? {
        SameKeysSameIndex(before, roads, RoadKey, Some(s.roadId));
      }
    }

    /** POST /api/roads: save the decoded road. */
    method CreateRoad(body: Road) returns (r: Result<Road>)
      requires Valid()
      modifies this`roads, this`nextUuid
      ensures Valid()
      ensures body.id.None? ==> && r == Success(body.(id := Some(Uuid(old(nextUuid)))))
                                && roads == old(roads) + [r.value]
      ensures body.id.Some? ==> && r == Success(body)
                                && roads == match IndexOf(old(roads), RoadKey, body.id)
                                            case None => old(roads)
                                            case Some(i) => old(roads)[i := body]
    {
      if body.id.None? {
        var row := InsertRoad(body);
        r := Success(row);
      } else {
        r := Success(body);
        match IndexOf(roads, RoadKey, body.id) {
          case None =>
          case Some(i) => OverwriteRoad(i, body);
        }
      }
    }

    /** GET /api/roads: every road, in stored order. */
    method AllRoads() returns (r: seq<Road>)
      ensures r == roads
    {
      r := roads;
    }

    /** GET /api/roads/{id} */
    method RoadById(id: Uuid) returns (r: Result<Road>)
      ensures r == Resolve(roads, RoadKey, Some(id))
    {
      r := Resolve(roads, RoadKey, Some(id));
    }

    /** GET /api/roads/{id}/sensors: the road's sensors, in stored order. */
    method SensorsForRoad(id: Uuid) returns (r: Result<seq<RoadSensor>>)
      ensures r.Failure? <==> forall road :: road in roads ==> road.id != Some(id)
      ensures r.Failure? ==> r.error == NotFound
      ensures r.Success? ==> r.value == SensorsOfRoad(roadSensors, id)
    {
      match Resolve(roads, RoadKey, Some(id))
      case Failure(e) => r := Failure(e);
      case Success(road) => r := Success(SensorsOfRoad(roadSensors, id));
    }

    /**
     * GET /api/roads/{id}/state: the classifier applied to exactly this
     * road's sensors and this road's bandwidth.
     */
    method RoadState(id: Uuid) returns (r: Result<string>)
      ensures match Resolve(roads, RoadKey, Some(id))
              case Failure(e) => r == Failure(e)
              case Success(road) => r == RoadStateObserver.RoadState(SensorsOfRoad(roadSensors, id), road.bandwidth)
    {
      match Resolve(roads, RoadKey, Some(id))
      case Failure(e) => r := Failure(e);
      case Success(road) => r := RoadStateObserver.ClassifyRoad(SensorsOfRoad(roadSensors, id), road.bandwidth);
    }

    /** PUT /api/roads/{id}: copy the body's six data fields into the stored road. */
    method UpdateRoad(id: Uuid, body: Road) returns (r: Result<Road>)
      requires Valid()
      modifies this`roads
      ensures Valid()
      ensures match IndexOf(old(roads), RoadKey, Some(id))
              case None => r == Failure(NotFound) && roads == old(roads)
              case Some(i) => && roads == old(roads)[i := RoadRules.UpdateRoad(old(roads)[i], body)]
                              && r == Success(roads[i])
    {
      match IndexOf(roads, RoadKey, Some(id))
      case None => r := Failure(NotFound);
      case Some(i) =>
        var row := RoadRules.UpdateRoad(roads[i], body);
        OverwriteRoad(i, row);
        r := Success(row);
    }

    /** DELETE /api/roads/{id}: refused while road sensors reference the road. */
    method DeleteRoad(id: Uuid) returns (r: Result<HttpStatus>)
      requires Valid()
      modifies this`roads
      ensures Valid()
      ensures match IndexOf(old(roads), RoadKey, Some(id))
              case None => r == Failure(NotFound) && roads == old(roads)
              case Some(i) =>
                if SensorsOfRoad(roadSensors, id) != [] then
                  r == Failure(ForeignKeyViolation) && roads == old(roads)
                else
                  r == Success(NoContent) && roads == Remove(old(roads), i)
      ensures r.Success? ==> forall road :: road in roads ==> road.id != Some(id)
    {
      match IndexOf(roads, RoadKey, Some(id))
      case None => r := Failure(NotFound);
      case Some(i) =>
        if SensorsOfRoad(roadSensors, id) != [] {
          r := Failure(ForeignKeyViolation);
        } else {
          ghost var before := roads;
          roads := Remove(roads, i);
          RemoveKeepsOtherKeys(before, RoadKey, i, Some(id));
          forall s | s in roadSensors ensures RoadOf(s, roads).Some? {
            assert s !in SensorsOfRoad(roadSensors, id);
            RemoveKeepsOtherKeys(before, RoadKey, i, Some(s.roadId));
          }
          r := Success(NoContent);
        }
    }

    // --------------------------------------------------------- road sensors

    /** The INSERT of a save: the sensor is stored under the next fresh UUID. */
    method InsertRoadSensor(body: RoadSensor) returns (row: RoadSensor)
      requires Valid() && RoadOf(body, roads).Some?
      modifies this`roadSensors, this`nextUuid
      ensures Valid()
      ensures row == body.(id := Some(Uuid(old(nextUuid)))) && roadSensors == old(roadSensors) + [row]
    {
      row := body.(id := Some(Uuid(nextUuid)));
      WriteKeepsRoadReferences(roadSensors, roads, |roadSensors|, row);
      AppendFreshKey(roadSensors, RoadSensorKey, nextUuid, row);
      roadSensors := roadSensors + [row];
      nextUuid := nextUuid + 1;
    }

    /** The UPDATE of a save: row `i` is overwritten by a sensor with the same id. */
    method OverwriteRoadSensor(i: nat, body: RoadSensor)
      requires Valid() && i < |roadSensors| && body.id == roadSensors[i].id && RoadOf(body, roads).Some?
      modifies this`roadSensors
      ensures Valid()
      ensures roadSensors == old(roadSensors)[i := body]
    {
      ReplaceSameKey(roadSensors, RoadSensorKey, nextUuid, i, body);
      WriteKeepsRoadReferences(roadSensors, roads, i, body);
      roadSensors := roadSensors[i := body];
    }

    /** POST /api/road_sensors: save the decoded sensor; its road must exist. */
    method CreateRoadSensor(body: RoadSensor) returns (r: Result<RoadSensor>)
      requires Valid()
      modifies this`roadSensors, this`nextUuid
      ensures Valid()
      ensures body.id.None? ==>
                if RoadOf(body, roads).None? then r == Failure(ForeignKeyViolation) && roadSensors == old(roadSensors)
                else && r == Success(body.(id := Some(Uuid(old(nextUuid)))))
                     && roadSensors == old(roadSensors) + [r.value]
      ensures body.id.Some? ==>
                match IndexOf(old(roadSensors), RoadSensorKey, body.id)
                case None => r == Success(body) && roadSensors == old(roadSensors)
                case Some(i) =>
                  if RoadOf(body, roads).None? then r == Failure(ForeignKeyViolation) && roadSensors == old(roadSensors)
                  else r == Success(body) && roadSensors == old(roadSensors)[i := body]
    {
      if body.id.None? {
        if RoadOf(body, roads).None? {
          r := Failure(ForeignKeyViolation);
        } else {
          var row := InsertRoadSensor(body);
          r := Success(row);
        }
      } else {
        match IndexOf(roadSensors, RoadSensorKey, body.id)
        case None => r := Success(body);
        case Some(i) =>
          if RoadOf(body, roads).None? {
            r := Failure(ForeignKeyViolation);
          } else {
            OverwriteRoadSensor(i, body);
            r := Success(body);
          }
      }
    }

    /** GET /api/road_sensors: every road sensor, in stored order. */
    method AllRoadSensors() returns (r: seq<RoadSensor>)
      ensures r == roadSensors
    {
      r := roadSensors;
    }

    /** GET /api/road_sensors/{id} */
    method RoadSensorById(id: Uuid) returns (r: Result<RoadSensor>)
      ensures r == Resolve(roadSensors, RoadSensorKey, Some(id))
    {
      r := Resolve(roadSensors, RoadSensorKey, Some(id));
    }

    /** POST /api/road_sensors/reset/{id}: zero the sensor's counter. */
    method ResetAmount(id: Uuid) returns (r: Result<RoadSensor>)
      requires Valid()
      modifies this`roadSensors
      ensures Valid()
      ensures match IndexOf(old(roadSensors), RoadSensorKey, Some(id))
              case None => r == Failure(NotFound) && roadSensors == old(roadSensors)
              case Some(i) => && roadSensors == old(roadSensors)[i := RoadSensorRules.Reset(old(roadSensors)[i])]
                              && r == Success(roadSensors[i])
    {
      match IndexOf(roadSensors, RoadSensorKey, Some(id))
      case None => r := Failure(NotFound);
      case Some(i) =>
        var row := RoadSensorRules.Reset(roadSensors[i]);
        assert RoadOf(roadSensors[i], roads).Some?;
        OverwriteRoadSensor(i, row);
        r := Success(row);
    }

    /**
     * POST /api/road_sensors/update/{id}?state=: set the overlap flag. The
     * `state` parameter is checked before the sensor is looked up.
     */
    method UpdateState(id: Uuid, state: Option<bool>) returns (r: Result<RoadSensor>)
      requires Valid()
      modifies this`roadSensors
      ensures Valid()
      ensures state.None? ==> r == Failure(BadRequest(MissingQueryParameter)) && roadSensors == old(roadSensors)
      ensures state.Some? ==>
                match IndexOf(old(roadSensors), RoadSensorKey, Some(id))
                case None => r == Failure(NotFound) && roadSensors == old(roadSensors)
                case Some(i) =>
                  match RoadSensorRules.SetState(old(roadSensors)[i], state.value)
                  case Failure(e) => r == Failure(e) && roadSensors == old(roadSensors)
                  case Success(s) => r == Success(s) && roadSensors == old(roadSensors)[i := s]
    {
      if state.None? {
        return Failure(BadRequest(MissingQueryParameter));
      }
      var newValue := state.value;
      match IndexOf(roadSensors, RoadSensorKey, Some(id))
      case None => r := Failure(NotFound);
      case Some(i) =>
        r := RoadSensorRules.SetState(roadSensors[i], newValue);
        if r.Success? {
          assert RoadOf(roadSensors[i], roads).Some?;
          OverwriteRoadSensor(i, r.value);
        }
    }

    /** DELETE /api/road_sensors/{id} */
    method DeleteRoadSensor(id: Uuid) returns (r: Result<HttpStatus>)
      requires Valid()
      modifies this`roadSensors
      ensures Valid()
      ensures match IndexOf(old(roadSensors), RoadSensorKey, Some(id))
              case None => r == Failure(NotFound) && roadSensors == old(roadSensors)
              case Some(i) => r == Success(NoContent) && roadSensors == Remove(old(roadSensors), i)
      ensures r.Success? ==> forall s :: s in roadSensors ==> s.id != Some(id)
    {
      match IndexOf(roadSensors, RoadSensorKey, Some(id))
      case None => r := Failure(NotFound);
      case Some(i) =>
        RemoveKeepsOtherKeys(roadSensors, RoadSensorKey, i, Some(id));
        roadSensors := Remove(roadSensors, i);
        r := Success(NoContent);
    }

    // ----------------------------------------------------- service stations

    /** The INSERT of a save: the station is stored under the next fresh UUID. */
    method InsertStation(body: ServiceStation) returns (row: ServiceStation)
      requires Valid() && ServiceTypeOf(body, serviceTypes).Some?
      modifies this`stations, this`nextUuid
      ensures Valid()
      ensures row == body.(id := Some(Uuid(old(nextUuid)))) && stations == old(stations) + [row]
    {
      row := body.(id := Some(Uuid(nextUuid)));
      AppendFreshKey(stations, StationKey, nextUuid, row);
      WriteKeepsTypeReferences(stations, serviceTypes, |stations|, row);
      ghost var before := stations;
      stations := stations + [row];
      nextUuid := nextUuid + 1;
      forall s | s in sensors ensures StationOf(s, stations).Some? {
        AppendKeepsParents(before, StationKey, row, Some(s.ownerId));
      }
    }

    /** The UPDATE of a save: row `i` is overwritten by a station with the same id. */
    method OverwriteStation(i: nat, body: ServiceStation)
      requires Valid() && i < |stations| && body.id == stations[i].id && ServiceTypeOf(body, serviceTypes).Some?
      modifies this`stations
      ensures Valid()
      ensures stations == old(stations)[i := body]
    {
      ReplaceSameKey(stations, StationKey, nextUuid, i, body);
      WriteKeepsTypeReferences(stations, serviceTypes, i, body);
      ghost var before := stations;
      stations := stations[i := body];
      forall s | s in sensors ensures StationOf(s, stations).Some? {
        SameKeysSameIndex(before, stations, StationKey, Some(s.ownerId));
      }
    }

    /** GET /api/service_stations: every station, in stored order. */
    method AllStations() returns (r: seq<ServiceStation>)
      ensures r == stations
    {
      r := stations;
    }

    /** GET /api/service_stations/{id} */
    method StationById(id: Uuid) returns (r: Result<ServiceStation>)
      ensures r == Resolve(stations, StationKey, Some(id))
    {
      r := Resolve(stations, StationKey, Some(id));
    }

    /** GET /api/service_stations/{id}/sensors: the station's sensors, in stored order. */
    method SensorsForStation(id: Uuid) returns (r: Result<seq<Sensor>>)
      ensures r.Failure? <==> forall st :: st in stations ==> st.id != Some(id)
      ensures r.Failure? ==> r.error == NotFound
      ensures r.Success? ==> r.value == SensorsOfStation(sensors, id)
    {
      match Resolve(stations, StationKey, Some(id))
      case Failure(e) => r := Failure(e);
      case Success(station) => r := Success(SensorsOfStation(sensors, id));
    }

    /** GET /api/service_stations/{id}/sensors/empty: the station's sensors whose place is empty. */
    method EmptySensorsForStation(id: Uuid) returns (r: Result<seq<Sensor>>)
      ensures r.Failure? <==> forall st :: st in stations ==> st.id != Some(id)
      ensures r.Failure? ==> r.error == NotFound
      ensures r.Success? ==> && r.value == StationRules.EmptySensors(sensors, id)
                             && (forall s :: s in r.value <==> s in sensors && s.ownerId == id && s.isEmptyPlace)
    {
      match Resolve(stations, StationKey, Some(id))
      case Failure(e) => r := Failure(e);
      case Success(station) => r := Success(StationRules.EmptySensors(sensors, id));
    }

    /**
     * GET /api/service_stations/{id}/type: the station's service type. The
     * parent lookup fails only if the type is missing, which the store's
     * foreign key rules out.
     */
    method ServiceTypeForStation(id: Uuid) returns (r: Result<ServiceType>)
      ensures match Resolve(stations, StationKey, Some(id))
              case Failure(e) => r == Failure(e)
              case Success(station) =>
                match ServiceTypeOf(station, serviceTypes)
                case None => r == Failure(ParentMissing)
                case Some(t) => r == Success(t)
      ensures r.Success? ==> r.value in serviceTypes
      ensures Valid() ==> r != Failure(ParentMissing)
    {
      match Resolve(stations, StationKey, Some(id))
      case Failure(e) => r := Failure(e);
      case Success(station) =>
        match ServiceTypeOf(station, serviceTypes)
        case None => r := Failure(ParentMissing);
        case Some(t) => r := Success(t);
    }

    /**
     * GET /api/service_stations/nearest?lat=&long=&type=&range=: the stored
     * stations of the requested type within range, in stored order.
     */
    method NearestStations(lat: Option<Double>, long: Option<Double>, typeIndex: Option<Int64>,
                           range: Option<Int64>, distance: StationRules.Distance)
      returns (r: Result<seq<ServiceStation>>)
      ensures r == StationRules.Nearest(stations, lat, long, typeIndex, range, distance)
    {
      r := StationRules.Nearest(stations, lat, long, typeIndex, range, distance);
    }

    /** POST /api/service_stations: save the decoded station; its service type must exist. */
    method CreateStation(body: ServiceStation) returns (r: Result<ServiceStation>)
      requires Valid()
      modifies this`stations, this`nextUuid
      ensures Valid()
      ensures body.id.None? ==>
                if ServiceTypeOf(body, serviceTypes).None? then
                  r == Failure(ForeignKeyViolation) && stations == old(stations)
                else && r == Success(body.(id := Some(Uuid(old(nextUuid)))))
                     && stations == old(stations) + [r.value]
      ensures body.id.Some? ==>
                match IndexOf(old(stations), StationKey, body.id)
                case None => r == Success(body) && stations == old(stations)
                case Some(i) =>
                  if ServiceTypeOf(body, serviceTypes).None? then
                    r == Failure(ForeignKeyViolation) && stations == old(stations)
                  else r == Success(body) && stations == old(stations)[i := body]
    {
      if body.id.None? {
        if ServiceTypeOf(body, serviceTypes).None? {
          r := Failure(ForeignKeyViolation);
        } else {
          var row := InsertStation(body);
          r := Success(row);
        }
      } else {
        match IndexOf(stations, StationKey, body.id)
        case None => r := Success(body);
        case Some(i) =>
          if ServiceTypeOf(body, serviceTypes).None? {
            r := Failure(ForeignKeyViolation);
          } else {
            OverwriteStation(i, body);
            r := Success(body);
          }
      }
    }

    /**
     * PUT /api/service_stations/{id}: copy name, description and coordinates
     * into the stored station; its id and service type stay.
     */
    method UpdateStation(id: Uuid, body: ServiceStation) returns (r: Result<ServiceStation>)
      requires Valid()
      modifies this`stations
      ensures Valid()
      ensures match IndexOf(old(stations), StationKey, Some(id))
              case None => r == Failure(NotFound) && stations == old(stations)
              case Some(i) => && stations == old(stations)[i := StationRules.UpdateStation(old(stations)[i], body)]
                              && r == Success(stations[i])
    {
      match IndexOf(stations, StationKey, Some(id))
      case None => r := Failure(NotFound);
      case Some(i) =>
        var row := StationRules.UpdateStation(stations[i], body);
        assert ServiceTypeOf(stations[i], serviceTypes).Some?;
        OverwriteStation(i, row);
        r := Success(row);
    }

    /** DELETE /api/service_stations/{id}: refused while sensors reference the station. */
    method DeleteStation(id: Uuid) returns (r: Result<HttpStatus>)
      requires Valid()
      modifies this`stations
      ensures Valid()
      ensures match IndexOf(old(stations), StationKey, Some(id))
              case None => r == Failure(NotFound) && stations == old(stations)
              case Some(i) =>
                if SensorsOfStation(sensors, id) != [] then
                  r == Failure(ForeignKeyViolation) && stations == old(stations)
                else
                  r == Success(NoContent) && stations == Remove(old(stations), i)
      ensures r.Success? ==> forall st :: st in stations ==> st.id != Some(id)
    {
      match IndexOf(stations, StationKey, Some(id))
      case None => r := Failure(NotFound);
      case Some(i) =>
        if SensorsOfStation(sensors, id) != [] {
          r := Failure(ForeignKeyViolation);
        } else {
          ghost var before := stations;
          stations := Remove(stations, i);
          RemoveKeepsOtherKeys(before, StationKey, i, Some(id));
          forall s | s in sensors ensures StationOf(s, stations).Some? {
            assert s !in SensorsOfStation(sensors, id);
            RemoveKeepsOtherKeys(before, StationKey, i, Some(s.ownerId));
          }
          r := Success(NoContent);
        }
    }

    // -------------------------------------------------------------- sensors

    /** The INSERT of a save: the sensor is stored under the next fresh UUID. */
    method InsertSensor(body: Sensor) returns (row: Sensor)
      requires Valid() && StationOf(body, stations).Some?
      modifies this`sensors, this`nextUuid
      ensures Valid()
      ensures row == body.(id := Some(Uuid(old(nextUuid)))) && sensors == old(sensors) + [row]
    {
      row := body.(id := Some(Uuid(nextUuid)));
      WriteKeepsStationReferences(sensors, stations, |sensors|, row);
      AppendFreshKey(sensors, SensorKey, nextUuid, row);
      sensors := sensors + [row];
      nextUuid := nextUuid + 1;
    }

    /** The UPDATE of a save: row `i` is overwritten by a sensor with the same id. */
    method OverwriteSensor(i: nat, body: Sensor)
      requires Valid() && i < |sensors| && body.id == sensors[i].id && StationOf(body, stations).Some?
      modifies this`sensors
      ensures Valid()
      ensures sensors == old(sensors)[i := body]
    {
      ReplaceSameKey(sensors, SensorKey, nextUuid, i, body);
      WriteKeepsStationReferences(sensors, stations, i, body);
      sensors := sensors[i := body];
    }

    /** The ORM save of a parking-place sensor; its station must exist. */
    method SaveSensor(body: Sensor) returns (r: Result<Sensor>)
      requires Valid()
      modifies this`sensors, this`nextUuid
      ensures Valid()
      ensures body.id.None? ==>
                if StationOf(body, stations).None? then
                  r == Failure(ForeignKeyViolation) && sensors == old(sensors)
                else && r == Success(body.(id := Some(Uuid(old(nextUuid)))))
                     && sensors == old(sensors) + [r.value]
      ensures body.id.Some? ==>
                match IndexOf(old(sensors), SensorKey, body.id)
                case None => r == Success(body) && sensors == old(sensors)
                case Some(i) =>
                  if StationOf(body, stations).None? then
                    r == Failure(ForeignKeyViolation) && sensors == old(sensors)
                  else r == Success(body) && sensors == old(sensors)[i := body]
    {
      if body.id.None? {
        if StationOf(body, stations).None? {
          r := Failure(ForeignKeyViolation);
        } else {
          var row := InsertSensor(body);
          r := Success(row);
        }
      } else {
        match IndexOf(sensors, SensorKey, body.id)
        case None => r := Success(body);
        case Some(i) =>
          if StationOf(body, stations).None? {
            r := Failure(ForeignKeyViolation);
          } else {
            OverwriteSensor(i, body);
            r := Success(body);
          }
      }
    }

    // -------------------------------------------------------- service types

    /** The INSERT of a save: the type takes the next value of the key sequence. */
    method InsertServiceType(body: ServiceType) returns (row: ServiceType)
      requires Valid() && nextTypeId <= MaxInt64
      modifies this`serviceTypes, this`nextTypeId
      ensures Valid()
      ensures row == body.(id := Some(old(nextTypeId))) && serviceTypes == old(serviceTypes) + [row]
    {
      row := body.(id := Some(nextTypeId as Int64));
      ghost var before := serviceTypes;
      serviceTypes := serviceTypes + [row];
      nextTypeId := nextTypeId + 1;
      forall st | st in stations ensures ServiceTypeOf(st, serviceTypes).Some? {
        AppendKeepsParents(before, TypeKey, row, Some(st.typeId));
      }
    }

    /** The UPDATE of a save: row `i` is overwritten by a type with the same id. */
    method OverwriteServiceType(i: nat, body: ServiceType)
      requires Valid() && i < |serviceTypes| && body.id == serviceTypes[i].id
      modifies this`serviceTypes
      ensures Valid()
      ensures serviceTypes == old(serviceTypes)[i := body]
    {
      ghost var before := serviceTypes;
      serviceTypes := serviceTypes[i := body];
      forall st | st in stations ensures ServiceTypeOf(st, serviceTypes).Some? {
        SameKeysSameIndex(before, serviceTypes, TypeKey, Some(st.typeId));
      }
    }

    /**
     * POST /api/service_types: save the decoded type. A new type takes the
     * next value of the integer key sequence, which fails once it would
     * leave `Int`.
     */
    method CreateServiceType(body: ServiceType) returns (r: Result<ServiceType>)
      requires Valid()
      modifies this`serviceTypes, this`nextTypeId
      ensures Valid()
      ensures body.id.None? ==>
                if old(nextTypeId) > MaxInt64 then
                  r == Failure(SequenceExhausted) && serviceTypes == old(serviceTypes)
                else && r == Success(body.(id := Some(old(nextTypeId))))
                     && serviceTypes == old(serviceTypes) + [r.value]
      ensures body.id.Some? ==>
                && r == Success(body)
                && serviceTypes == match IndexOf(old(serviceTypes), TypeKey, body.id)
                                   case None => old(serviceTypes)
                                   case Some(i) => old(serviceTypes)[i := body]
    {
      if body.id.None? {
        if nextTypeId > MaxInt64 {
          r := Failure(SequenceExhausted);
        } else {
          var row := InsertServiceType(body);
          r := Success(row);
        }
      } else {
        r := Success(body);
        match IndexOf(serviceTypes, TypeKey, body.id) {
          case None =>
          case Some(i) => OverwriteServiceType(i, body);
        }
      }
    }

    /** GET /api/service_types: every service type, in stored order. */
    method AllServiceTypes() returns (r: seq<ServiceType>)
      ensures r == serviceTypes
    {
      r := serviceTypes;
    }

    /** GET /api/service_types/{id}/services: the stations of that type, in stored order. */
    method ServicesByType(id: Int64) returns (r: Result<seq<ServiceStation>>)
      ensures r.Failure? <==> forall t :: t in serviceTypes ==> t.id != Some(id)
      ensures r.Failure? ==> r.error == NotFound
      ensures r.Success? ==> r.value == FacilitiesOf(stations, id)
    {
      match Resolve(serviceTypes, TypeKey, Some(id))
      case Failure(e) => r := Failure(e);
      case Success(t) => r := Success(FacilitiesOf(stations, id));
    }

    /** GET /api/service_types/{id} */
    method ServiceTypeById(id: Int64) returns (r: Result<ServiceType>)
      ensures r == Resolve(serviceTypes, TypeKey, Some(id))
    {
      r := Resolve(serviceTypes, TypeKey, Some(id));
    }

    /** PUT /api/service_types/{id}: copy the body's name into the stored type. */
    method UpdateServiceType(id: Int64, body: ServiceType) returns (r: Result<ServiceType>)
      requires Valid()
      modifies this`serviceTypes
      ensures Valid()
      ensures match IndexOf(old(serviceTypes), TypeKey, Some(id))
              case None => r == Failure(NotFound) && serviceTypes == old(serviceTypes)
              case Some(i) => && serviceTypes == old(serviceTypes)[i := ServiceTypeRules.UpdateType(old(serviceTypes)[i], body)]
                              && r == Success(serviceTypes[i])
    {
      match IndexOf(serviceTypes, TypeKey, Some(id))
      case None => r := Failure(NotFound);
      case Some(i) =>
        var row := ServiceTypeRules.UpdateType(serviceTypes[i], body);
        OverwriteServiceType(i, row);
        r := Success(row);
    }

    /** DELETE /api/service_types/{id}: refused while stations are of that type. */
    method DeleteServiceType(id: Int64) returns (r: Result<HttpStatus>)
      requires Valid()
      modifies this`serviceTypes
      ensures Valid()
      ensures match IndexOf(old(serviceTypes), TypeKey, Some(id))
              case None => r == Failure(NotFound) && serviceTypes == old(serviceTypes)
              case Some(i) =>
                if FacilitiesOf(stations, id) != [] then
                  r == Failure(ForeignKeyViolation) && serviceTypes == old(serviceTypes)
                else
                  r == Success(NoContent) && serviceTypes == Remove(old(serviceTypes), i)
      ensures r.Success? ==> forall t :: t in serviceTypes ==> t.id != Some(id)
    {
      match IndexOf(serviceTypes, TypeKey, Some(id))
      case None => r := Failure(NotFound);
      case Some(i) =>
        if FacilitiesOf(stations, id) != [] {
          r := Failure(ForeignKeyViolation);
        } else {
          ghost var before := serviceTypes;
          serviceTypes := Remove(serviceTypes, i);
          RemoveKeepsOtherKeys(before, TypeKey, i, Some(id));
          forall st | st in stations ensures ServiceTypeOf(st, serviceTypes).Some? {
            assert st !in FacilitiesOf(stations, id);
            RemoveKeepsOtherKeys(before, TypeKey, i, Some(st.typeId));
          }
          r := Success(NoContent);
        }
    }

    // ---------------------------------------------------------------- users

    /**
     * POST /api/users/register: store a new account holding the hash of the
     * password, under a fresh id, and answer 201.
     */
    method Register(body: User, hash: AccountRules.Hash) returns (r: Result<HttpStatus>)
      requires Valid()
      modifies this`users, this`nextUuid
      ensures Valid()
      ensures match AccountRules.Register(old(users), body.email, body.password, hash)
              case Failure(e) => r == Failure(e) && users == old(users)
              case Success(u) => r == Success(Created) && users == old(users) + [u.(id := Some(Uuid(old(nextUuid))))]
      ensures r.Success? ==> && |users| == |old(users)| + 1
                             && users[|users| - 1].email == body.email
                             && users[|users| - 1].password == hash(body.password)
    {
      match AccountRules.Register(users, body.email, body.password, hash)
      case Failure(e) => r := Failure(e);
      case Success(u) =>
        var row := u.(id := Some(Uuid(nextUuid)));
        AccountRules.RegisterKeepsEmailsUnique(users, body.email, body.password, hash, Uuid(nextUuid));
        AppendFreshKey(users, UserKey, nextUuid, row);
        users := users + [row];
        nextUuid := nextUuid + 1;
        r := Success(Created);
    }

    /** POST /api/users/login: check the credentials against the stored hash. */
    method Login(body: User, verify: AccountRules.Verify) returns (r: Result<HttpStatus>)
      ensures r == AccountRules.Login(users, body.email, body.password, verify)
    {
      r := AccountRules.Login(users, body.email, body.password, verify);
    }

    /** GET /api/users/logout: always 200. */
    method Logout() returns (r: HttpStatus)
      ensures r == Ok
    {
      r := Ok;
    }

    /** GET /api/users/emails: one entry per stored user, in stored order. */
    method UserEmails() returns (r: seq<AccountRules.EmailEntry>)
      ensures r == AccountRules.EmailListing(users)
      ensures |r| == |users|
    {
      r := AccountRules.EmailListing(users);
    }

    /** DELETE /api/users/{id} */
    method DeleteUser(id: Uuid) returns (r: Result<HttpStatus>)
      requires Valid()
      modifies this`users
      ensures Valid()
      ensures match IndexOf(old(users), UserKey, Some(id))
              case None => r == Failure(NotFound) && users == old(users)
              case Some(i) => r == Success(NoContent) && users == Remove(old(users), i)
      ensures r.Success? ==> forall u :: u in users ==> u.id != Some(id)
    {
      match IndexOf(users, UserKey, Some(id))
      case None => r := Failure(NotFound);
      case Some(i) =>
        RemoveKeepsOtherKeys(users, UserKey, i, Some(id));
        users := Remove(users, i);
        r := Success(NoContent);
    }
  }
}
