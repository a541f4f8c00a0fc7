/** A user who walks back and forth between two points (end-user/mobility_models.py).
  * The position is sampled now and then; it should not matter when. */
module Sampler {

  // ------------------------------------------------------ remainders of reals

  function Mod(a: real, p: real): real
    requires p > 0.0
  {
    a - p * ((a / p).Floor as real)
  }

  ghost predicate Multiple(a: real, p: real) {
    exists k: int :: IsTimes(a, p, k)
  }

  predicate IsTimes(a: real, p: real, k: int) {
    a == p * (k as real)
  }

  lemma MultipleSum(a: real, b: real, p: real)
    requires Multiple(a, p) && Multiple(b, p)
    ensures Multiple(a + b, p)
  {
    var i, j :| IsTimes(a, p, i) && IsTimes(b, p, j);
    assert (i + j) as real == (i as real) + (j as real);
    assert p * ((i + j) as real) == p * (i as real) + p * (j as real);
    assert IsTimes(a + b, p, i + j);
  }

  lemma MultipleBasics(p: real)
    ensures Multiple(0.0, p) && Multiple(p, p) && Multiple(-p, p)
  {
    assert IsTimes(0.0, p, 0) && IsTimes(p, p, 1) && IsTimes(-p, p, -1);
  }

  lemma ScaledBounds(p: real, f: real, low: real, high: real)
    requires p > 0.0
    ensures low <= f <==> p * low <= p * f
    ensures f < high <==> p * f < p * high
  {
    if low <= f { assert p * (f - low) >= 0.0; } else { assert p * (low - f) > 0.0; }
    if f < high { assert p * (high - f) > 0.0; } else { assert p * (f - high) >= 0.0; }
  }

  /** The remainder is the one number below `p` that is a multiple away. */
  lemma ModIs(a: real, p: real, r: real)
    requires p > 0.0 && 0.0 <= r < p && Multiple(a - r, p)
    ensures Mod(a, p) == r
  {
    var k :| IsTimes(a - r, p, k);
    var f := a / p - (k as real);
    assert p * (a / p) == a;
    assert p * f == r;
    ScaledBounds(p, f, 0.0, 1.0);
    FloorIs(a / p, k);
  }

  lemma FloorIs(x: real, k: int)
    requires k as real <= x < (k as real) + 1.0
    ensures x.Floor == k
  {
  }

  lemma FloorBounds(x: real)
    ensures 0.0 <= x - (x.Floor as real)
    ensures x - (x.Floor as real) < 1.0
  {
  }

  lemma ModBounds(a: real, p: real)
    requires p > 0.0
    ensures 0.0 <= Mod(a, p) < p && Multiple(a - Mod(a, p), p)
  {
    var k := (a / p).Floor;
    var f := a / p - (k as real);
    assert p * (a / p) == a;
    assert p * f == Mod(a, p);
    FloorBounds(a / p);
    assert 0.0 <= f < 1.0;
    ScaledBounds(p, f, 0.0, 1.0);
    assert IsTimes(a - Mod(a, p), p, k);
  }

  // ------------------------------------------------------------------- model

  datatype Trip = Trip(velocity: real, startX: real, stopX: real) {
    function Length(): real {
      if stopX >= startX then stopX - startX else startX - stopX
    }

    function Lower(): real {
      if stopX < startX then stopX else startX
    }

    function Upper(): real {
      if stopX > startX then stopX else startX
    }

    /** The way from the start to the stop point. */
    function Heading(): Direction {
      if startX < stopX then Up else Down
    }
  }

  /** The factor 1 or -1 of a step. */
  datatype Direction = Up | Down {
    function Times(a: real): real {
      if Up? then a else -a
    }

    function Back(): Direction {
      if Up? then Down else Up
    }
  }

  datatype Walk = Walk(lastTime: real, startTime: real, currentX: real, direction: Direction)

  /** `start_moving`; the clock is read twice. */
  function Start(trip: Trip, wait: real, now: real, again: real, direction: Direction): Walk {
    Walk(now, again + wait, trip.startX, direction)
  }

  /** The new position and direction after `remain` metres. */
  function Turn(trip: Trip, w: Walk, remain: real): (real, Direction) {
    var x := w.currentX + w.direction.Times(remain);
    if x > trip.Upper() then (trip.Upper() - (x - trip.Upper()), w.direction.Back())
    else if x < trip.Lower() then (trip.Lower() + (trip.Lower() - x), w.direction.Back())
    else (x, w.direction)
  }

  /** The time since the last sample, without the waiting time. */
  function Delta(w: Walk, now: real): real {
    if w.lastTime < w.startTime then now - w.lastTime - (w.startTime - w.lastTime) else now - w.lastTime
  }

  function Travel(trip: Trip, time: real): real {
    time * trip.velocity
  }

  /** `get_new_position` at time `now`. */
  function Sample(trip: Trip, w: Walk, now: real): Walk {
    var delta := Delta(w, now);
    if delta < 0.0 || trip.Length() == 0.0 then w.(lastTime := now)
    else Moved(trip, w, Mod(Travel(trip, delta), 2.0 * trip.Length())).(lastTime := now)
  }

  /** The walk after a step of `remain` metres. */
  function Moved(trip: Trip, w: Walk, remain: real): Walk {
    w.(currentX := Turn(trip, w, remain).0, direction := Turn(trip, w, remain).1)
  }

  // ------------------------------------------------------- the triangle wave

  /** How far from the start point after `s` metres of going back and forth. */
  function Offset(length: real, s: real): real
    requires length > 0.0
  {
    var m := Mod(s, 2.0 * length);
    if m <= length then m else 2.0 * length - m
  }

  function Wave(trip: Trip, s: real): real {
    if trip.Length() == 0.0 then trip.startX else trip.startX + trip.Heading().Times(Offset(trip.Length(), s))
  }

  lemma WaveStaysInside(trip: Trip, s: real)
    ensures trip.Lower() <= Wave(trip, s) <= trip.Upper()
  {
    if trip.Length() > 0.0 {
      ModBounds(s, 2.0 * trip.Length());
    }
  }

  /** The distance walked by time `t`. */
  function Walked(trip: Trip, startTime: real, t: real): real {
    if t <= startTime then 0.0 else Travel(trip, t - startTime)
  }

  // ------------------------------------------------- where a walk stands

  /** The current position, as a distance from the start point. */
  function From(trip: Trip, w: Walk): real {
    trip.Heading().Times(w.currentX - trip.startX)
  }

  predicate Outward(trip: Trip, w: Walk) {
    w.direction == trip.Heading()
  }

  /** The position within one round trip. */
  function Phase(trip: Trip, w: Walk): real {
    if Outward(trip, w) then From(trip, w) else 2.0 * trip.Length() - From(trip, w)
  }

  /** After `s` metres: a whole number of rounds, and then the phase. */
  ghost predicate After(trip: Trip, w: Walk, s: real) {
    0.0 <= From(trip, w) <= trip.Length() && Multiple(s - Phase(trip, w), 2.0 * trip.Length())
  }

  lemma AfterIsWave(trip: Trip, w: Walk, s: real)
    requires trip.Length() > 0.0 && After(trip, w, s)
    ensures w.currentX == Wave(trip, s)
  {
    var p, phase := 2.0 * trip.Length(), Phase(trip, w);
    if phase < p {
      ModIs(s, p, phase);
    } else {
      MultipleBasics(p);
      MultipleSum(s - phase, p, p);
      ModIs(s, p, 0.0);
    }
  }

  /** How far it is to the next turning point. */
  function ToTurn(trip: Trip, w: Walk): real {
    if Outward(trip, w) then trip.Length() - From(trip, w) else From(trip, w)
  }

  lemma TurnKeepsPhase(trip: Trip, w: Walk, remain: real)
    requires trip.Length() > 0.0 && 0.0 <= From(trip, w) <= trip.Length() && remain >= 0.0
    ensures var w1, p := Moved(trip, w, remain), 2.0 * trip.Length();
            && (0.0 <= From(trip, w1) <= trip.Length() <==> remain <= ToTurn(trip, w) + trip.Length())
            && (Phase(trip, w1) == Phase(trip, w) + remain || Phase(trip, w1) == Phase(trip, w) + remain - p)
  {
  }

  lemma StepKeeps(trip: Trip, w: Walk, s: real, distance: real, remain: real)
    requires trip.Length() > 0.0 && After(trip, w, s)
    requires 0.0 <= remain <= ToTurn(trip, w) + trip.Length() && Multiple(distance - remain, 2.0 * trip.Length())
    ensures After(trip, Moved(trip, w, remain), s + distance)
  {
    var p, w1 := 2.0 * trip.Length(), Moved(trip, w, remain);
    TurnKeepsPhase(trip, w, remain);
    MultipleSum(s - Phase(trip, w), distance - remain, p);
    MultipleBasics(p);
    MultipleSum(s + distance - (Phase(trip, w) + remain), p, p);
    assert s - Phase(trip, w) + (distance - remain) == s + distance - (Phase(trip, w) + remain);
    assert s + distance - (Phase(trip, w) + remain) + p == s + distance - (Phase(trip, w) + remain - p);
  }

  /** A step stays on the wave exactly when, full rounds aside, it does not pass two
    * turning points; otherwise it leaves the trip altogether. */
  lemma StepOnWave(trip: Trip, w: Walk, s: real, distance: real)
    requires trip.Length() > 0.0 && After(trip, w, s)
    ensures var remain := Mod(distance, 2.0 * trip.Length());
            Moved(trip, w, remain).currentX == Wave(trip, s + distance) <==> remain <= ToTurn(trip, w) + trip.Length()
  {
    var remain := Mod(distance, 2.0 * trip.Length());
    ModBounds(distance, 2.0 * trip.Length());
    TurnKeepsPhase(trip, w, remain);
    if remain <= ToTurn(trip, w) + trip.Length() {
      StepKeeps(trip, w, s, distance, remain);
      AfterIsWave(trip, Moved(trip, w, remain), s + distance);
    } else {
      WaveStaysInside(trip, s + distance);
    }
  }

  // -------------------------------------------------------------------- runs

  function Samples(trip: Trip, w: Walk, times: seq<real>): Walk
    decreases |times|
  {
    if times == [] then w else Samples(trip, Sample(trip, w, times[0]), times[1..])
  }

  /** The next sample is not earlier, and at most one leg of travel away. */
  predicate Near(trip: Trip, startTime: real, from: real, to: real) {
    from <= to && Walked(trip, startTime, to) - Walked(trip, startTime, from) <= trip.Length()
  }

  predicate Close(trip: Trip, startTime: real, from: real, times: seq<real>)
    decreases |times|
  {
    times == [] || (Near(trip, startTime, from, times[0]) && Close(trip, startTime, times[0], times[1..]))
  }

  function Last(from: real, times: seq<real>): real {
    if times == [] then from else times[|times| - 1]
  }

  lemma TravelSum(trip: Trip, a: real, b: real)
    ensures Travel(trip, a + b) == Travel(trip, a) + Travel(trip, b)
    ensures trip.velocity >= 0.0 && b >= 0.0 ==> Travel(trip, b) >= 0.0
  {
  }

  lemma DeltaIsWalked(trip: Trip, w: Walk, now: real)
    requires w.lastTime <= now && trip.velocity >= 0.0
    ensures Delta(w, now) < 0.0 ==> Walked(trip, w.startTime, now) == Walked(trip, w.startTime, w.lastTime) == 0.0
    ensures Delta(w, now) >= 0.0 ==>
              Walked(trip, w.startTime, now) == Walked(trip, w.startTime, w.lastTime) + Travel(trip, Delta(w, now))
    ensures Delta(w, now) >= 0.0 ==> Travel(trip, Delta(w, now)) >= 0.0
  {
    TravelSum(trip, w.lastTime - w.startTime, Delta(w, now));
    TravelSum(trip, 0.0, 0.0);
  }

  lemma SampleOnWave(trip: Trip, w: Walk, now: real)
    requires trip.Length() > 0.0 && trip.velocity >= 0.0 && Near(trip, w.startTime, w.lastTime, now)
    requires After(trip, w, Walked(trip, w.startTime, w.lastTime))
    ensures After(trip, Sample(trip, w, now), Walked(trip, w.startTime, now))
  {
    DeltaIsWalked(trip, w, now);
    if Delta(w, now) >= 0.0 {
      ShortStep(trip, w, Walked(trip, w.startTime, w.lastTime), Travel(trip, Delta(w, now)), now);
    }
  }

  lemma ShortStep(trip: Trip, w: Walk, s: real, distance: real, now: real)
    requires trip.Length() > 0.0 && After(trip, w, s) && 0.0 <= distance <= trip.Length()
    ensures After(trip, Moved(trip, w, Mod(distance, 2.0 * trip.Length())).(lastTime := now), s + distance)
  {
    MultipleBasics(2.0 * trip.Length());
    ModIs(distance, 2.0 * trip.Length(), distance);
    StepKeeps(trip, w, s, distance, distance);
  }

  lemma {:induction false} RunKeeps(trip: Trip, w: Walk, times: seq<real>)
    requires trip.Length() > 0.0 && trip.velocity >= 0.0 && Close(trip, w.startTime, w.lastTime, times)
    requires After(trip, w, Walked(trip, w.startTime, w.lastTime))
    ensures After(trip, Samples(trip, w, times), Walked(trip, w.startTime, Last(w.lastTime, times)))
    decreases |times|
  {
    if times == [] {
    } else {
      SampleOnWave(trip, w, times[0]);
      RunKeeps(trip, Sample(trip, w, times[0]), times[1..]);
    }
  }

  lemma {:induction false} NoLengthStandsStill(trip: Trip, w: Walk, times: seq<real>)
    requires trip.Length() == 0.0
    ensures Samples(trip, w, times).currentX == w.currentX
    decreases |times|
  {
    if times == [] {
    } else {
      NoLengthStandsStill(trip, Sample(trip, w, times[0]), times[1..]);
    }
  }

  /** Along a whole run the position is the triangle wave of the distance walked,
    * between the two ends; neither what is sampled on the way nor the direction left
    * from an earlier trip matters. */
  lemma RunOnWave(trip: Trip, wait: real, now: real, again: real, direction: Direction, times: seq<real>)
    requires trip.velocity >= 0.0 && wait >= 0.0 && now <= again
    requires Close(trip, again + wait, now, times)
    ensures var w := Start(trip, wait, now, again, direction);
            var x := Samples(trip, w, times).currentX;
            x == Wave(trip, Walked(trip, again + wait, Last(now, times))) && trip.Lower() <= x <= trip.Upper()
  {
    var w := Start(trip, wait, now, again, direction);
    if trip.Length() > 0.0 {
      MultipleBasics(2.0 * trip.Length());
      RunKeeps(trip, w, times);
      AfterIsWave(trip, Samples(trip, w, times), Walked(trip, again + wait, Last(now, times)));
    } else {
      NoLengthStandsStill(trip, w, times);
    }
    WaveStaysInside(trip, Walked(trip, again + wait, Last(now, times)));
  }

  /** The sample does not pass two turning points, full rounds aside. */
  predicate Fits(trip: Trip, w: Walk, now: real) {
    trip.Length() > 0.0 && Delta(w, now) >= 0.0 ==>
      Mod(Travel(trip, Delta(w, now)), 2.0 * trip.Length()) <= ToTurn(trip, w) + trip.Length()
  }

  predicate AllFit(trip: Trip, w: Walk, times: seq<real>)
    decreases |times|
  {
    times == [] || (Fits(trip, w, times[0]) && AllFit(trip, Sample(trip, w, times[0]), times[1..]))
  }

  predicate AllOnWave(trip: Trip, w: Walk, times: seq<real>)
    decreases |times|
  {
    times == [] ||
    var w1 := Sample(trip, w, times[0]);
    w1.currentX == Wave(trip, Walked(trip, w.startTime, times[0])) && AllOnWave(trip, w1, times[1..])
  }

  predicate Ascending(from: real, times: seq<real>)
    decreases |times|
  {
    times == [] || (from <= times[0] && Ascending(times[0], times[1..]))
  }

  lemma SampleFits(trip: Trip, w: Walk, now: real)
    requires trip.Length() > 0.0 && trip.velocity >= 0.0 && w.lastTime <= now
    requires After(trip, w, Walked(trip, w.startTime, w.lastTime))
    ensures Sample(trip, w, now).currentX == Wave(trip, Walked(trip, w.startTime, now)) <==> Fits(trip, w, now)
    ensures Fits(trip, w, now) ==> After(trip, Sample(trip, w, now), Walked(trip, w.startTime, now))
  {
    var s, p := Walked(trip, w.startTime, w.lastTime), 2.0 * trip.Length();
    DeltaIsWalked(trip, w, now);
    if Delta(w, now) < 0.0 {
      AfterIsWave(trip, w, s);
    } else {
      var distance := Travel(trip, Delta(w, now));
      StepOnWave(trip, w, s, distance);
      ModBounds(distance, p);
      if Fits(trip, w, now) {
        StepKeeps(trip, w, s, distance, Mod(distance, p));
      }
    }
  }

  lemma {:induction false} FitIffOnWave(trip: Trip, w: Walk, times: seq<real>)
    requires trip.Length() > 0.0 && trip.velocity >= 0.0 && Ascending(w.lastTime, times)
    requires After(trip, w, Walked(trip, w.startTime, w.lastTime))
    ensures AllOnWave(trip, w, times) <==> AllFit(trip, w, times)
    decreases |times|
  {
    if times == [] {
    } else {
      SampleFits(trip, w, times[0]);
      if Fits(trip, w, times[0]) {
        FitIffOnWave(trip, Sample(trip, w, times[0]), times[1..]);
      }
    }
  }

  lemma {:induction false} NoLengthOnWave(trip: Trip, w: Walk, times: seq<real>)
    requires trip.Length() == 0.0 && w.currentX == trip.startX
    ensures AllOnWave(trip, w, times) && AllFit(trip, w, times)
    decreases |times|
  {
    if times == [] {
    } else {
      NoLengthOnWave(trip, Sample(trip, w, times[0]), times[1..]);
    }
  }

  /** The samples of a run, however far apart, are all on the wave exactly when none of
    * them passes two turning points. */
  lemma RunExactly(trip: Trip, wait: real, now: real, again: real, direction: Direction, times: seq<real>)
    requires trip.velocity >= 0.0 && wait >= 0.0 && now <= again && Ascending(now, times)
    ensures var w := Start(trip, wait, now, again, direction); AllOnWave(trip, w, times) <==> AllFit(trip, w, times)
  {
    var w := Start(trip, wait, now, again, direction);
    if trip.Length() > 0.0 {
      MultipleBasics(2.0 * trip.Length());
      FitIffOnWave(trip, w, times);
    } else {
      NoLengthOnWave(trip, w, times);
    }
  }

  // ------------------------------------------------------------------- class

  class SimpleRoundTripMoving {
    const trip: Trip
    const waitTime: real
    const y: real
    var lastTime: real
    var startTime: real
    var currentX: real
    var direction: Direction

    function View(): Walk reads this {
      Walk(lastTime, startTime, currentX, direction)
    }

    constructor (velocity: real, wait: real, startX: real, stopX: real, atY: real, now: real)
      ensures trip == Trip(velocity, startX, stopX) && waitTime == wait && y == atY
      ensures direction == trip.Heading() && startTime == now + wait
    {
      trip, waitTime, y := Trip(velocity, startX, stopX), wait, atY;
      direction := if startX < stopX then Up else Down;
      lastTime, startTime, currentX := now, now + wait, startX;
    }

    method StartMoving(now: real, again: real)
      modifies this
      ensures View() == Start(trip, waitTime, now, again, old(direction))
    {
      lastTime := now;
      startTime := again + waitTime;
      currentX := trip.startX;
    }

    method GetNewPosition(newTime: real) returns (x: real, atY: real)
      modifies this
      ensures View() == Sample(trip, old(View()), newTime)
      ensures x == currentX && atY == y
    {
      var delta := newTime - lastTime;
      if lastTime < startTime {
        delta := delta - (startTime - lastTime);
      }
      if delta < 0.0 {
        lastTime := newTime;
        return currentX, y;
      }
      var length := trip.Length();
      if length != 0.0 {
        var distance := Travel(trip, delta);
        var remain := Mod(distance, 2.0 * length);
        var newX := currentX + direction.Times(remain);
        if newX > trip.Upper() {
          newX := trip.Upper() - (newX - trip.Upper());
          direction := direction.Back();
        } else if newX < trip.Lower() {
          newX := trip.Lower() + (trip.Lower() - newX);
          direction := direction.Back();
        }
        currentX := newX;
      }
      lastTime := newTime;
      x, atY := currentX, y;
    }
  }
}
