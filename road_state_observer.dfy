/**
 * The road-state classifier: the running total of the road's sensors'
 * state-change counters, compared with the road's bandwidth. The running
 * total is Swift `Int` arithmetic, so a partial sum outside 64 bits traps.
 */
module RoadStateObserver {
  import opened Common
  import opened Models

  const Available: string := "available"
  const Jam: string := "jam"

  /** The exact sum of the counters, first sensor first. */
  function Total(sensors: seq<RoadSensor>): int
    decreases |sensors|
  {
    if sensors == [] then 0
    else Total(sensors[..|sensors| - 1]) + sensors[|sensors| - 1].amountOfStateChanges
  }

  /** Some partial sum of the loop leaves Swift's `Int` range. */
  predicate Overflows(sensors: seq<RoadSensor>) {
    exists k :: 0 <= k <= |sensors| && !InInt64(Total(sensors[..k]))
  }

  /** The label the classifier returns: `jam` from `availability` on. */
  function RoadState(sensors: seq<RoadSensor>, availability: Int64): (r: Result<string>)
    ensures r.Failure? <==> Overflows(sensors)
    ensures r.Failure? ==> r.error == Trap
    ensures r.Success? ==> (r.value == Available <==> Total(sensors) < availability)
    ensures r.Success? ==> (r.value == Jam <==> Total(sensors) >= availability)
  {
    if Overflows(sensors) then Failure(Trap)
    else if Total(sensors) < availability then Success(Available)
    else Success(Jam)
  }

  /** The classifier's loop: it adds the counters one sensor at a time. */
  method ClassifyRoad(sensors: seq<RoadSensor>, availability: Int64) returns (r: Result<string>)
    ensures r == RoadState(sensors, availability)
  {
    var totalAmount: Int64 := 0;
    var i := 0;
    while i < |sensors|
      invariant 0 <= i <= |sensors|
      invariant totalAmount == Total(sensors[..i])
      invariant forall k :: 0 <= k <= i ==> InInt64(Total(sensors[..k]))
    {
      assert sensors[..i + 1][..i] == sensors[..i];
      var next := totalAmount + sensors[i].amountOfStateChanges;
      if !InInt64(next) {
        assert !InInt64(Total(sensors[..i + 1]));
        return Failure(Trap);
      }
      totalAmount := next;
      i := i + 1;
    }
    assert sensors[..i] == sensors;
    r := if totalAmount < availability then Success(Available) else Success(Jam);
  }

  /** The boundary is inclusive on the jam side. */
  lemma JamAtBandwidth(sensors: seq<RoadSensor>, availability: Int64)
    requires !Overflows(sensors) && Total(sensors) == availability
    ensures RoadState(sensors, availability) == Success(Jam)
  {
  }

  /** A road without sensors has total zero. */
  lemma NoSensors(availability: Int64)
    ensures RoadState([], availability) == if 0 < availability then Success(Available) else Success(Jam)
  {
    var none: seq<RoadSensor> := [];
    assert none[..0] == none;
  }

  /** Two sensors that changed state once each: the total is two. */
  lemma TwoSingleChanges(a: RoadSensor, b: RoadSensor)
    requires a.amountOfStateChanges == 1 && b.amountOfStateChanges == 1
    ensures RoadState([a, b], 3) == Success(Available)
    ensures RoadState([a, b], 2) == Success(Jam)
  {
    var s := [a, b];
    assert s[..0] == [] && s[..1] == [a] && s[..2] == s;
    assert [a][..0] == [];
    assert Total([a]) == 1;
    assert Total(s) == 2;
    assert !Overflows(s);
  }

  /**
   * One more state change on any sensor raises the total by one, so it can
   * turn an available road into a jammed one but never the reverse.
   */
  lemma {:induction false} OneMoreChange(sensors: seq<RoadSensor>, i: nat, availability: Int64)
    requires i < |sensors| && sensors[i].amountOfStateChanges < MaxInt64
    ensures var s' := sensors[i := sensors[i].(amountOfStateChanges := sensors[i].amountOfStateChanges + 1)];
            && Total(s') == Total(sensors) + 1
            && (RoadState(sensors, availability) == Success(Jam) && !Overflows(s') ==> RoadState(s', availability) == Success(Jam))
    decreases |sensors|
  {
    var s' := sensors[i := sensors[i].(amountOfStateChanges := sensors[i].amountOfStateChanges + 1)];
    var n := |sensors| - 1;
    assert s'[..n] == if i < n then sensors[..n][i := sensors[i].(amountOfStateChanges := sensors[i].amountOfStateChanges + 1)] else sensors[..n];
    if i < n {
      OneMoreChange(sensors[..n], i, availability);
    }
  }
}
