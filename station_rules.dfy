/**
 * The rules of the service-station handlers: what an update copies, the
 * empty-sensors filter and the nearest-stations query.
 */
module StationRules {
  import opened Common
  import opened Models

  /**
   * A station update replaces name, description and both coordinates, and
   * keeps the id and the service type, whatever type the body names.
   */
  function UpdateStation(stored: ServiceStation, body: ServiceStation): (r: ServiceStation)
    ensures r == body.(id := stored.id, typeId := stored.typeId)
  {
    stored.(name := body.name,
            description := body.description,
            latitude := body.latitude,
            longtitude := body.longtitude)
  }

  /** Applying the same body twice is applying it once. */
  lemma UpdateStationIdempotent(stored: ServiceStation, body: ServiceStation)
    ensures UpdateStation(UpdateStation(stored, body), body) == UpdateStation(stored, body)
  {
  }

  /** Its sensors whose place is empty, in stored order. */
  function EmptySensors(sensors: seq<Sensor>, stationId: Uuid): (r: seq<Sensor>)
    ensures forall s :: s in r <==> s in sensors && s.ownerId == stationId && s.isEmptyPlace
    ensures forall s :: multiset(r)[s] == if s.ownerId == stationId && s.isEmptyPlace then multiset(sensors)[s] else 0
    ensures IsSubsequence(r, sensors)
  {
    Filter(sensors, (s: Sensor) => s.ownerId == stationId && s.isEmptyPlace)
  }

  /**
   * The empty sensors are the station's sensors narrowed to the empty ones,
   * in the same order: a subsequence of them.
   */
  lemma EmptySensorsNarrowSensors(sensors: seq<Sensor>, stationId: Uuid)
    ensures EmptySensors(sensors, stationId)
            == Filter(SensorsOfStation(sensors, stationId), (s: Sensor) => s.isEmptyPlace)
    ensures IsSubsequence(EmptySensors(sensors, stationId), SensorsOfStation(sensors, stationId))
  {
    FilterFilter(sensors, (s: Sensor) => s.ownerId == stationId, (s: Sensor) => s.isEmptyPlace,
                 (s: Sensor) => s.ownerId == stationId && s.isEmptyPlace);
  }

  /** A distance between two points, computed outside this model. */
  type Distance = (Double, Double, Double, Double) -> Double

  /** The condition of the nearest filter on one station. */
  predicate IsNear(st: ServiceStation, lat: Double, long: Double, typeIndex: Int64, range: Int64, distance: Distance) {
    distance(lat, long, st.latitude, st.longtitude) <= range as real && typeIndex == st.typeId
  }

  /**
   * The nearest-stations query: all four query parameters must be present
   * and parse, otherwise 400; then every stored station of the requested
   * type within `range` of the query point, in stored order.
   */
  function Nearest(stations: seq<ServiceStation>, lat: Option<Double>, long: Option<Double>,
                   typeIndex: Option<Int64>, range: Option<Int64>, distance: Distance): (r: Result<seq<ServiceStation>>)
    ensures r.Failure? <==> lat.None? || long.None? || typeIndex.None? || range.None?
    ensures r.Failure? ==> r.error == BadRequest(MissingQueryParameter)
    ensures r.Success? ==>
              && (forall st :: st in r.value <==>
                    st in stations && st.typeId == typeIndex.value
                    && distance(lat.value, long.value, st.latitude, st.longtitude) <= range.value as real)
              && (forall st :: multiset(r.value)[st] ==
                    if st.typeId == typeIndex.value
                       && distance(lat.value, long.value, st.latitude, st.longtitude) <= range.value as real
                    then multiset(stations)[st] else 0)
              && IsSubsequence(r.value, stations)
  {
    if lat.None? || long.None? || typeIndex.None? || range.None? then
      Failure(BadRequest(MissingQueryParameter))
    else
      Success(Filter(stations, st => IsNear(st, lat.value, long.value, typeIndex.value, range.value, distance)))
  }

  /** The nearest stations of a type are among that type's facilities, in order. */
  lemma NearestAmongFacilities(stations: seq<ServiceStation>, lat: Double, long: Double,
                               typeIndex: Int64, range: Int64, distance: Distance)
    ensures IsSubsequence(Nearest(stations, Some(lat), Some(long), Some(typeIndex), Some(range), distance).value,
                          FacilitiesOf(stations, typeIndex))
  {
    var near := (st: ServiceStation) => IsNear(st, lat, long, typeIndex, range, distance);
    var ofType := (st: ServiceStation) => st.typeId == typeIndex;
    FilterFilter(stations, ofType, near, near);
  }
}
