/**
 * The rules the road-sensor handlers apply to one fetched sensor before
 * saving it: the reset of the state-change counter, and the overlap state
 * machine whose counter rises only when a sensor goes from overlapped to
 * clear.
 */
module RoadSensorRules {
  import opened Common
  import opened Models

  /** What the reset handler does to the sensor it fetched. */
  function Reset(s: RoadSensor): (r: RoadSensor)
    ensures r.amountOfStateChanges == 0
    ensures r.isOverlaped == s.isOverlaped && r.roadId == s.roadId && r.id == s.id
  {
    s.(amountOfStateChanges := 0)
  }

  /** The transition the state handler counts: overlapped, then clear. */
  predicate Clears(wasOverlaped: bool, newValue: bool) {
    wasOverlaped && !newValue
  }

  /**
   * What the state handler does to the sensor it fetched, given the parsed
   * `state` query parameter. The increment is Swift's `+=` on `Int`, which
   * traps instead of wrapping when the counter is already `Int.max`.
   */
  function SetState(s: RoadSensor, newValue: bool): (r: Result<RoadSensor>)
    ensures r.Failure? <==> Clears(s.isOverlaped, newValue) && s.amountOfStateChanges == MaxInt64
    ensures r.Failure? ==> r.error == Trap
    ensures r.Success? ==> r.value.isOverlaped == newValue && r.value.roadId == s.roadId && r.value.id == s.id
    ensures r.Success? ==> r.value.amountOfStateChanges as int
                           == s.amountOfStateChanges as int + (if Clears(s.isOverlaped, newValue) then 1 else 0)
  {
    if s.isOverlaped == true && newValue == false then
      if s.amountOfStateChanges == MaxInt64 then Failure(Trap)
      else Success(s.(amountOfStateChanges := s.amountOfStateChanges + 1, isOverlaped := newValue))
    else
      Success(s.(isOverlaped := newValue))
  }

  /** A state update never lowers the counter; it rises by at most one. */
  lemma SetStateMonotone(s: RoadSensor, newValue: bool)
    requires SetState(s, newValue).Success?
    ensures s.amountOfStateChanges <= SetState(s, newValue).value.amountOfStateChanges <= s.amountOfStateChanges + 1
  {
  }

  /** The state updates `states` applied one after another, stopping at a trap. */
  function SetStates(s: RoadSensor, states: seq<bool>): Result<RoadSensor>
    decreases |states|
  {
    if states == [] then Success(s)
    else match SetState(s, states[0])
      case Failure(e) => Failure(e)
      case Success(s') => SetStates(s', states[1..])
  }

  /** How many overlapped-to-clear steps the overlap flag takes through `states`. */
  function Clearings(start: bool, states: seq<bool>): nat
    decreases |states|
  {
    if states == [] then 0
    else (if Clears(start, states[0]) then 1 else 0) + Clearings(states[0], states[1..])
  }

  /** How many clear-to-overlapped steps the overlap flag takes through `states`. */
  function Overlappings(start: bool, states: seq<bool>): nat
    decreases |states|
  {
    if states == [] then 0
    else (if !start && states[0] then 1 else 0) + Overlappings(states[0], states[1..])
  }

  /** The overlap flag after `states`. */
  function Final(start: bool, states: seq<bool>): bool {
    if states == [] then start else states[|states| - 1]
  }

  /**
   * The counter is the number of overlapped-to-clear transitions: after any
   * sequence of state updates it has grown by exactly that number, the flag
   * holds the last requested state, and identity and road are unchanged. The
   * sequence traps exactly when that number would carry the counter past
   * `Int.max`.
   */
  lemma {:induction false} SetStatesCounts(s: RoadSensor, states: seq<bool>)
    ensures SetStates(s, states).Success?
            <==> s.amountOfStateChanges as int + Clearings(s.isOverlaped, states) <= MaxInt64
    ensures SetStates(s, states).Success? ==>
              var r := SetStates(s, states).value;
              && r.amountOfStateChanges as int == s.amountOfStateChanges as int + Clearings(s.isOverlaped, states)
              && r.isOverlaped == Final(s.isOverlaped, states)
              && r.id == s.id && r.roadId == s.roadId
    decreases |states|
  {
    if states != [] {
      var step := SetState(s, states[0]);
      if step.Success? {
        SetStatesCounts(step.value, states[1..]);
        if |states| > 1 {
          assert Final(states[0], states[1..]) == Final(s.isOverlaped, states);
        }
      }
    }
  }

  /**
   * After a reset, the counter counts exactly the overlapped-to-clear
   * transitions requested since.
   */
  lemma {:induction false} CounterAfterReset(s: RoadSensor, states: seq<bool>)
    ensures SetStates(Reset(s), states).Success? <==> Clearings(s.isOverlaped, states) <= MaxInt64
    ensures SetStates(Reset(s), states).Success? ==>
              SetStates(Reset(s), states).value.amountOfStateChanges as int == Clearings(s.isOverlaped, states)
  {
    SetStatesCounts(Reset(s), states);
  }

  /**
   * The two-state machine balances its transitions: every counted clearing
   * is matched by an earlier overlapping, except for an overlap the sensor
   * started in or is still in.
   */
  lemma {:induction false} TransitionsBalance(start: bool, states: seq<bool>)
    ensures Clearings(start, states) + (if Final(start, states) then 1 else 0)
            == Overlappings(start, states) + (if start then 1 else 0)
    decreases |states|
  {
    if states != [] {
      TransitionsBalance(states[0], states[1..]);
      if |states| > 1 {
        assert Final(states[0], states[1..]) == Final(start, states);
      }
    }
  }
}
