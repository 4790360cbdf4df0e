/** The scan-line's oscillation driver (`runTiming`).

    Five animated cells make up its state: the timing state `finished`,
    `position`, `time`, `frameTime`, and the timing configuration's `toValue`.
    Every animation frame runs the same block: the animation library's `timing`
    primitive advances the timing state towards `toValue`; then, when `finished`
    is set, a reset block clears the bookkeeping and picks the next endpoint;
    the frame's output is `position`.

    The `timing` primitive belongs to the animation library (easing, clock,
    interpolation), so a frame takes as input the timing state it wrote.  The
    one promise the alternation proof asks of it is that a finished run ends
    exactly at `toValue` (`Honest`).
 */
module Oscillation {

  /** The four cells `timing` writes. */
  datatype TimingState = TimingState(finished: real, position: real, time: real, frameTime: real)

  /** All five cells of a running driver. */
  datatype Osc = Osc(finished: real, position: real, time: real, frameTime: real, toValue: real)

  /** `cond(node, ...)` takes its branch when the node's value is non-zero. */
  predicate IsSet(x: real) {
    x != 0.0
  }

  /** The cells after `timing` has run: it writes its own four, never `toValue`. */
  function AfterTiming(s: Osc, t: TimingState): Osc {
    Osc(t.finished, t.position, t.time, t.frameTime, s.toValue)
  }

  /** The reset block: when `finished` is set, clear `finished`, `time` and
      `frameTime`, keep `position` at `destination` if it is there and snap it to
      `value` otherwise, then choose `toValue` by comparing the position just
      written with `destination`. */
  function ResetBlock(value: real, destination: real, s: Osc): (r: Osc)
    ensures !IsSet(s.finished) ==> r == s
    ensures IsSet(s.finished) ==> r.finished == 0.0 && r.time == 0.0 && r.frameTime == 0.0
    ensures IsSet(s.finished) && s.position == destination ==>
              r.position == destination && r.toValue == value
    ensures IsSet(s.finished) && s.position != destination ==>
              r.position == value && r.toValue == destination
  {
    if IsSet(s.finished) then
      var position := if s.position == destination then destination else value;
      var toValue := if position == destination then value else destination;
      Osc(0.0, position, 0.0, 0.0, toValue)
    else
      s
  }

  /** The state after one frame: `timing`, then the reset block. */
  function Next(value: real, destination: real, s: Osc, t: TimingState): (r: Osc)
    ensures !IsSet(t.finished) ==> r == AfterTiming(s, t)
    ensures IsSet(t.finished) ==> r.finished == 0.0 && r.time == 0.0 && r.frameTime == 0.0
    ensures IsSet(t.finished) ==>
              r.position == (if t.position == destination then destination else value) &&
              r.toValue == (if t.position == destination then value else destination)
  {
    ResetBlock(value, destination, AfterTiming(s, t))
  }

  /** The endpoint that is not `x`. */
  function Other(value: real, destination: real, x: real): real {
    if x == destination then value else destination
  }

  /** Whatever `timing` reported, a finishing frame leaves the driver at rest on
      one endpoint with the other (or the same, when they coincide) as target. */
  lemma FinishRestsOnEndpoint(value: real, destination: real, s: Osc, t: TimingState)
    requires IsSet(t.finished)
    ensures var r := Next(value, destination, s, t);
            (r.position == value || r.position == destination) &&
            r.toValue == Other(value, destination, r.position)
  {
  }

  /** A frame in which `timing` has not finished leaves `toValue` alone and
      outputs the position `timing` computed. */
  lemma RunningFrame(value: real, destination: real, s: Osc, t: TimingState)
    requires !IsSet(t.finished)
    ensures Next(value, destination, s, t) == AfterTiming(s, t)
    ensures Next(value, destination, s, t).toValue == s.toValue
    ensures Next(value, destination, s, t).position == t.position
  {
  }

  /** When `timing` finishes on its target, the driver rests on that target and
      aims at the other endpoint. */
  lemma HonestFinishFlips(value: real, destination: real, s: Osc, t: TimingState)
    requires value != destination
    requires s.toValue == value || s.toValue == destination
    requires IsSet(t.finished) && t.position == s.toValue
    ensures Next(value, destination, s, t).position == s.toValue
    ensures Next(value, destination, s, t).toValue == Other(value, destination, s.toValue)
    ensures Next(value, destination, s, t).toValue != s.toValue
  {
  }

  /** Every finishing frame of a trace ends where `timing` was aiming. */
  predicate Honest(value: real, destination: real, s: Osc, ts: seq<TimingState>)
    decreases |ts|
  {
    ts == [] ||
    ((IsSet(ts[0].finished) ==> ts[0].position == s.toValue) &&
     Honest(value, destination, Next(value, destination, s, ts[0]), ts[1..]))
  }

  /** The states right after each finishing frame of a trace, in order. */
  function Finishes(value: real, destination: real, s: Osc, ts: seq<TimingState>): seq<Osc>
    decreases |ts|
  {
    if ts == [] then []
    else
      var s' := Next(value, destination, s, ts[0]);
      var rest := Finishes(value, destination, s', ts[1..]);
      if IsSet(ts[0].finished) then [s'] + rest else rest
  }

  /** The state of a freshly started driver (`runTiming(clock, value, destination, duration)`). */
  function Start(value: real, destination: real): Osc {
    Osc(0.0, value, 0.0, 0.0, destination)
  }

  /** Alternation: with an honest `timing` and two distinct endpoints, the
      finishing frames rest alternately on the current target and on the other
      endpoint, and aim alternately at the other endpoint and back. */
  lemma {:induction false} Alternation(value: real, destination: real, s: Osc, ts: seq<TimingState>)
    requires value != destination
    requires s.toValue == value || s.toValue == destination
    requires Honest(value, destination, s, ts)
    ensures var f := Finishes(value, destination, s, ts);
            forall i :: 0 <= i < |f| ==>
              f[i].finished == 0.0 && f[i].time == 0.0 && f[i].frameTime == 0.0 &&
              f[i].position == (if i % 2 == 0 then s.toValue else Other(value, destination, s.toValue)) &&
              f[i].toValue == (if i % 2 == 0 then Other(value, destination, s.toValue) else s.toValue)
    decreases |ts|
  {
    if ts != [] {
      var s' := Next(value, destination, s, ts[0]);
      Alternation(value, destination, s', ts[1..]);
      if IsSet(ts[0].finished) {
        HonestFinishFlips(value, destination, s, ts[0]);
        var rest := Finishes(value, destination, s', ts[1..]);
        assert forall j :: 0 <= j < |rest| ==>
              rest[j].finished == 0.0 && rest[j].time == 0.0 && rest[j].frameTime == 0.0 &&
              rest[j].position == (if j % 2 == 0 then s'.toValue else Other(value, destination, s'.toValue)) &&
              rest[j].toValue == (if j % 2 == 0 then Other(value, destination, s'.toValue) else s'.toValue);
        var f := Finishes(value, destination, s, ts);
        assert f == [s'] + rest;
        assert Other(value, destination, s'.toValue) == s.toValue;
        forall i | 0 <= i < |f|
          ensures f[i].finished == 0.0 && f[i].time == 0.0 && f[i].frameTime == 0.0
          ensures f[i].position == (if i % 2 == 0 then s.toValue else Other(value, destination, s.toValue))
          ensures f[i].toValue == (if i % 2 == 0 then Other(value, destination, s.toValue) else s.toValue)
        {
          if i == 0 {
            assert f[0] == s';
          } else {
            assert f[i] == rest[i - 1];
            assert 0 <= i - 1 < |rest|;
            assert (i - 1) % 2 == 0 <==> i % 2 != 0;
          }
        }
      } else {
        RunningFrame(value, destination, s, ts[0]);
        assert s'.toValue == s.toValue;
        assert Finishes(value, destination, s, ts) == Finishes(value, destination, s', ts[1..]);
        var f := Finishes(value, destination, s, ts);
        assert forall i :: 0 <= i < |f| ==>
              f[i].finished == 0.0 && f[i].time == 0.0 && f[i].frameTime == 0.0 &&
              f[i].position == (if i % 2 == 0 then s.toValue else Other(value, destination, s.toValue)) &&
              f[i].toValue == (if i % 2 == 0 then Other(value, destination, s.toValue) else s.toValue);
      }
    }
  }

  /** From a fresh driver: the first finish rests on `destination` and aims at
      `value`, the second rests on `value` and aims at `destination`, and so on. */
  lemma AlternationFromStart(value: real, destination: real, ts: seq<TimingState>)
    requires value != destination
    requires Honest(value, destination, Start(value, destination), ts)
    ensures var f := Finishes(value, destination, Start(value, destination), ts);
            forall i :: 0 <= i < |f| ==>
              f[i].position == (if i % 2 == 0 then destination else value) &&
              f[i].toValue == (if i % 2 == 0 then value else destination)
  {
    Alternation(value, destination, Start(value, destination), ts);
  }

  /** With coinciding endpoints the driver is stuck: every finish, honest or not,
      rests on `destination` and aims at it again. */
  lemma {:induction false} StuckWhenEndpointsCoincide(value: real, destination: real, s: Osc, ts: seq<TimingState>)
    requires value == destination
    ensures forall i :: 0 <= i < |Finishes(value, destination, s, ts)| ==>
              Finishes(value, destination, s, ts)[i].position == destination &&
              Finishes(value, destination, s, ts)[i].toValue == destination
    decreases |ts|
  {
    if ts != [] {
      var s' := Next(value, destination, s, ts[0]);
      StuckWhenEndpointsCoincide(value, destination, s', ts[1..]);
      if IsSet(ts[0].finished) {
        var rest := Finishes(value, destination, s', ts[1..]);
        assert forall j :: 0 <= j < |rest| ==> rest[j].position == destination && rest[j].toValue == destination;
        var f := Finishes(value, destination, s, ts);
        assert f == [s'] + rest;
        assert s'.position == destination && s'.toValue == destination;
        forall i | 0 <= i < |f|
          ensures f[i].position == destination && f[i].toValue == destination
        {
          if i == 0 {
            assert f[0] == s';
          } else {
            assert f[i] == rest[i - 1];
            assert 0 <= i - 1 < |rest|;
            assert rest[i - 1].position == destination && rest[i - 1].toValue == destination;
          }
        }
      } else {
        var f := Finishes(value, destination, s, ts);
        assert f == Finishes(value, destination, s', ts[1..]);
        assert forall i :: 0 <= i < |f| ==> f[i].position == destination && f[i].toValue == destination;
      }
    }
  }

  /** One running `runTiming` block: its five cells and the constants it was built with. */
  class Driver {
    const value: real
    const destination: real
    const duration: real
    var finished: real
    var position: real
    var time: real
    var frameTime: real
    var toValue: real

    function State(): Osc
      reads this
    {
      Osc(finished, position, time, frameTime, toValue)
    }

    /** `runTiming(clock, value, destination, duration)`: the timing state starts
        at rest on `value` with `destination` as its target. */
    constructor (value: real, destination: real, duration: real)
      ensures this.value == value && this.destination == destination && this.duration == duration
      ensures finished == 0.0 && position == value && time == 0.0 && frameTime == 0.0
      ensures toValue == destination
      ensures State() == Start(value, destination)
    {
      this.value := value;
      this.destination := destination;
      this.duration := duration;
      finished := 0.0;
      position := value;
      time := 0.0;
      frameTime := 0.0;
      toValue := destination;
    }

    /** One evaluation of the block, given what `timing` wrote this frame;
        returns the block's value, the position. */
    method Frame(t: TimingState) returns (out: real)
      modifies this
      ensures State() == Next(value, destination, old(State()), t)
      ensures out == position
    {
      finished, position, time, frameTime := t.finished, t.position, t.time, t.frameTime;
      if IsSet(finished) {
        finished := 0.0;
        time := 0.0;
        frameTime := 0.0;
        position := if position == destination then destination else value;
        toValue := if position == destination then value else destination;
      }
      out := position;
    }
  }
}
