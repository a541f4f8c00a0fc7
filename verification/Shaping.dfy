/** Limiting the speed of simulated users (end-user/datarate.py): each has a class of
  * its own, its marked traffic is led there, and the last speed is remembered so that
  * an equal one need not be set again. */
module Shaping {
  import opened Basics
  import opened Route
  import Marks

  /** What the traffic controller holds: the rate of each class, and the class for each
    * mark. Classes are numbered like the users. */
  datatype Queue = Queue(classes: map<nat, int>, filters: map<nat, nat>)

  datatype Status = Failed | Unchanged | Success | NoSuchUser | RuntimeError

  datatype SpeedResult = SpeedResult(status: Status, ts: seq<RouteEntry>, cache: map<string, int>, q: Queue)

  /** `allocate_speeds`: a root that already exists is removed first. */
  function AllocatedQueue(n: nat, rate: int): Queue {
    Queue(Classes(n, rate), map[])
  }

  function Classes(n: nat, rate: int): (m: map<nat, int>)
    ensures forall i: nat :: i in m <==> i < n
    ensures forall i | i in m :: m[i] == rate
  {
    if n == 0 then map[] else Classes(n - 1, rate)[n - 1 := rate]
  }

  /** `set_speed`; the two commands may fail. */
  function SpeedSet(ts: seq<RouteEntry>, cache: map<string, int>, q: Queue, user: string, speed: int,
                    filterOk: bool, classOk: bool): SpeedResult
  {
    var found := Find(ts, user);
    if found.None? then SpeedResult(NoSuchUser, ts, cache, q)
    else
      var i, t := found.value, ts[found.value];
      if t.mark.None? then SpeedResult(Failed, ts, cache, q)
      else if Get(cache, user) == Some(speed) then SpeedResult(Unchanged, ts, cache, q)
      else if !t.haveFilter && !filterOk then SpeedResult(RuntimeError, ts, cache, q)
      else
        var (ts1, q1) := if t.haveFilter then (ts, q)
                       else (ts[i := t.(haveFilter := true)], q.(filters := q.filters[t.mark.value := i]));
        Changed(ts1, cache, q1, user, i, speed, classOk)
  }

  function Changed(ts: seq<RouteEntry>, cache: map<string, int>, q: Queue, user: string, i: nat, speed: int,
                   classOk: bool): SpeedResult
  {
    if classOk then SpeedResult(Success, ts, cache[user := speed], q.(classes := q.classes[i := speed]))
    else SpeedResult(RuntimeError, ts, cache, q)
  }

  /** The class that traffic to an address goes through; None is the default class. */
  function ClassOf(s: State, q: Queue, ip: string, port: string): Option<nat> {
    var mark := MarkOf(s.filters, ip, port);
    if mark.None? then None else Get(q.filters, mark.value)
  }

  // ---------------------------------------------------------------- agreement

  /** A flag says that the filter is there, and leads the user's mark to its class. */
  ghost predicate Led(ts: seq<RouteEntry>, q: Queue) {
    forall i | 0 <= i < |ts| && ts[i].haveFilter :: ts[i].mark.Some? && Get(q.filters, ts[i].mark.value) == Some(i)
  }

  /** A remembered speed is the rate of the user's class. */
  ghost predicate Agrees(ts: seq<RouteEntry>, cache: map<string, int>, q: Queue) {
    forall u | u in cache :: AgreesFor(ts, cache, q, u)
  }

  predicate AgreesFor(ts: seq<RouteEntry>, cache: map<string, int>, q: Queue, u: string)
    requires u in cache
  {
    var i := Find(ts, u);
    i.Some? && ts[i.value].haveFilter && Get(q.classes, i.value) == Some(cache[u])
  }

  ghost predicate Inv(base: State, s: State, ts: seq<RouteEntry>, cache: map<string, int>, q: Queue) {
    Marks.Inv(base, s, ts) && Led(ts, q) && Agrees(ts, cache, q)
  }

  lemma {:induction false} FindSame(ts: seq<RouteEntry>, ts1: seq<RouteEntry>, user: string)
    requires |ts| == |ts1| && forall i | 0 <= i < |ts| :: ts1[i].name == ts[i].name
    ensures Find(ts1, user) == Find(ts, user)
  {
    if ts == [] {
    } else {
      FindSame(ts[1..], ts1[1..], user);
    }
  }

  lemma {:induction false} FindName(ts: seq<RouteEntry>, u: string, v: string)
    requires Find(ts, u).Some? && Find(ts, u) == Find(ts, v)
    ensures u == v
  {
  }

  lemma FlagKeepsMarks(base: State, s: State, ts: seq<RouteEntry>, i: nat)
    requires Marks.Inv(base, s, ts) && i < |ts|
    ensures Marks.Inv(base, s, ts[i := ts[i].(haveFilter := true)])
  {
    var ours, mine :| Marks.Owns(base, s, ts, ours, mine);
    var ts1 := ts[i := ts[i].(haveFilter := true)];
    assert Marks.Filters(ts1) == Marks.Filters(ts) && Marks.Rules(ts1) == Marks.Rules(ts);
    assert Marks.Owns(base, s, ts1, ours, mine);
  }

  /** Adding a user's filter. */
  lemma FilterKeeps(base: State, s: State, ts: seq<RouteEntry>, cache: map<string, int>, q: Queue, i: nat)
    requires Inv(base, s, ts, cache, q) && i < |ts| && ts[i].mark.Some?
    ensures Inv(base, s, ts[i := ts[i].(haveFilter := true)], cache, q.(filters := q.filters[ts[i].mark.value := i]))
  {
    var ts1, q1 := ts[i := ts[i].(haveFilter := true)], q.(filters := q.filters[ts[i].mark.value := i]);
    FlagKeepsMarks(base, s, ts, i);
    var ours, mine :| Marks.Owns(base, s, ts, ours, mine);
    assert Marks.DistinctMarks(ts);
    forall u | u in cache
      ensures AgreesFor(ts1, cache, q1, u)
    {
      assert AgreesFor(ts, cache, q, u);
      FindSame(ts, ts1, u);
    }
  }

  /** Replacing a user's class. */
  lemma ClassKeeps(base: State, s: State, ts: seq<RouteEntry>, cache: map<string, int>, q: Queue, user: string,
                   i: nat, speed: int)
    requires Inv(base, s, ts, cache, q) && Find(ts, user) == Some(i) && ts[i].haveFilter
    ensures Inv(base, s, ts, cache[user := speed], q.(classes := q.classes[i := speed]))
  {
    var cache1, q1 := cache[user := speed], q.(classes := q.classes[i := speed]);
    forall u | u in cache1
      ensures AgreesFor(ts, cache1, q1, u)
    {
      if u != user {
        assert AgreesFor(ts, cache, q, u);
        if Find(ts, u) == Some(i) {
          FindName(ts, u, user);
        }
      }
    }
  }

  /** `set_speed` keeps the agreement whichever command fails; and when it reports
    * success, or that nothing had to be done, the class has the wanted speed. */
  lemma SetSpeedKeeps(base: State, s: State, ts: seq<RouteEntry>, cache: map<string, int>, q: Queue,
                      user: string, speed: int, filterOk: bool, classOk: bool)
    requires Inv(base, s, ts, cache, q)
    ensures var r := SpeedSet(ts, cache, q, user, speed, filterOk, classOk);
            && Inv(base, s, r.ts, r.cache, r.q)
            && (r.status == Success || r.status == Unchanged ==>
                  Find(r.ts, user).Some? && Get(r.q.classes, Find(r.ts, user).value) == Some(speed))
  {
    var found := Find(ts, user);
    if found.Some? && ts[found.value].mark.Some? {
      var i, t := found.value, ts[found.value];
      if Get(cache, user) == Some(speed) {
        assert AgreesFor(ts, cache, q, user);
      } else if t.haveFilter {
        if classOk {
          ClassKeeps(base, s, ts, cache, q, user, i, speed);
        }
      } else if filterOk {
        var ts1, q1 := ts[i := t.(haveFilter := true)], q.(filters := q.filters[t.mark.value := i]);
        FilterKeeps(base, s, ts, cache, q, i);
        FindSame(ts, ts1, user);
        if classOk {
          ClassKeeps(base, s, ts1, cache, q1, user, i, speed);
        }
      }
    }
  }

  /** A call to `set_filter` leaves names, flags and marks once given. */
  predicate Similar(ts: seq<RouteEntry>, ts1: seq<RouteEntry>) {
    |ts| == |ts1| && forall i | 0 <= i < |ts| ::
      ts1[i].name == ts[i].name && ts1[i].haveFilter == ts[i].haveFilter &&
          (ts[i].mark.Some? ==> ts1[i].mark == ts[i].mark)
  }

  lemma CallLeaves(s: State, ts: seq<RouteEntry>, c: Marks.Call)
    ensures Similar(ts, Marks.AfterCall(s, ts, c).1)
  {
  }

  lemma SimilarAgrees(ts: seq<RouteEntry>, ts1: seq<RouteEntry>, cache: map<string, int>, q: Queue)
    requires Similar(ts, ts1) && Led(ts, q) && Agrees(ts, cache, q)
    ensures Led(ts1, q) && Agrees(ts1, cache, q)
  {
    forall u | u in cache
      ensures AgreesFor(ts1, cache, q, u)
    {
      assert AgreesFor(ts, cache, q, u);
      FindSame(ts, ts1, u);
    }
  }

  lemma SetFilterKeeps(base: State, s: State, ts: seq<RouteEntry>, cache: map<string, int>, q: Queue, c: Marks.Call)
    requires Inv(base, s, ts, cache, q)
    ensures var r := Marks.AfterCall(s, ts, c); Inv(base, r.0, r.1, cache, q)
  {
    CallLeaves(s, ts, c);
    SimilarAgrees(ts, Marks.AfterCall(s, ts, c).1, cache, q);
    Marks.CallKeeps(base, s, ts, c);
  }

  // --------------------------------------------------------------------- runs

  datatype Step = Connect(call: Marks.Call) | Limit(user: string, speed: int, filterOk: bool, classOk: bool)

  datatype System = System(s: State, ts: seq<RouteEntry>, cache: map<string, int>, q: Queue)

  function After(x: System, step: Step): System {
    match step
    case Connect(c) =>
      var (s1, ts1) := Marks.AfterCall(x.s, x.ts, c);
      x.(s := s1, ts := ts1)
    case Limit(user, speed, filterOk, classOk) =>
      var r := SpeedSet(x.ts, x.cache, x.q, user, speed, filterOk, classOk);
      System(x.s, r.ts, r.cache, r.q)
  }

  function AfterAll(x: System, steps: seq<Step>): System
    decreases |steps|
  {
    if steps == [] then x else AfterAll(After(x, steps[0]), steps[1..])
  }

  lemma {:induction false} RunKeeps(base: State, x: System, steps: seq<Step>)
    requires Inv(base, x.s, x.ts, x.cache, x.q)
    ensures var y := AfterAll(x, steps); Inv(base, y.s, y.ts, y.cache, y.q)
    decreases |steps|
  {
    if steps == [] {
    } else {
      match steps[0] {
        case Connect(c) => SetFilterKeeps(base, x.s, x.ts, x.cache, x.q, c);
        case Limit(user, speed, filterOk, classOk) =>
          SetSpeedKeeps(base, x.s, x.ts, x.cache, x.q, user, speed, filterOk, classOk);
      }
      RunKeeps(base, After(x, steps[0]), steps[1..]);
    }
  }

  /** Allocated tables, and then one `allocate_speeds`. */
  function Prepared(base: State, ts: seq<RouteEntry>, from: nat, to: nat, rate: int): System {
    var (s, all) := Marks.Allocated(base, ts, from, to);
    System(s, all, map[], AllocatedQueue(|all|, rate))
  }

  /** Shaping agreement: in every run, with any failing commands, each remembered speed
    * is the rate of the class that the user's traffic goes through. */
  lemma ShapingAgreement(base: State, ts: seq<RouteEntry>, from: nat, to: nat, rate: int, steps: seq<Step>,
                         user: string)
    requires forall i | 0 <= i < |ts| :: ts[i].mark.None? && !ts[i].haveFilter
    requires user in AfterAll(Prepared(base, ts, from, to, rate), steps).cache
    ensures var x := AfterAll(Prepared(base, ts, from, to, rate), steps);
            var i := Find(x.ts, user);
            && i.Some? && Get(x.q.classes, i.value) == Some(x.cache[user])
            && (Marks.OwnAddress(x.ts, i.value) ==>
                  MarkOf(x.s.filters, x.ts[i.value].ip, x.ts[i.value].port) == x.ts[i.value].mark &&
                  ClassOf(x.s, x.q, x.ts[i.value].ip, x.ts[i.value].port) == i)
  {
    var start := Prepared(base, ts, from, to, rate);
    Marks.AllocatedOwns(base, ts, from, to);
    Marks.AllocatedOnlyIds(ts, TableIds(base.file), from, to);
    RunKeeps(base, start, steps);
    var x := AfterAll(start, steps);
    assert AgreesFor(x.ts, x.cache, x.q, user);
    var i := Find(x.ts, user).value;
    if Marks.OwnAddress(x.ts, i) {
      Marks.TrafficIsMarked(base, x.s, x.ts, i);
    }
  }

  /** A second `allocate_speeds` starts from fresh classes but forgets neither speeds
    * nor flags: the speeds still agree only if all are the default rate, and no
    * traffic is led to a class any more. */
  lemma Reallocated(base: State, x: System, rate: int)
    requires Inv(base, x.s, x.ts, x.cache, x.q)
    ensures var q1 := AllocatedQueue(|x.ts|, rate);
            && (Agrees(x.ts, x.cache, q1) <==> forall u | u in x.cache :: x.cache[u] == rate)
            && forall ip, port :: ClassOf(x.s, q1, ip, port) == None
  {
    var q1 := AllocatedQueue(|x.ts|, rate);
    forall u | u in x.cache
      ensures AgreesFor(x.ts, x.cache, q1, u) <==> x.cache[u] == rate
    {
      assert AgreesFor(x.ts, x.cache, x.q, u);
    }
  }

  /** After a second allocation the remembered speed is not the rate of the class, and
    * asking for that speed again changes nothing. */
  lemma StaleSpeed(t: RouteEntry, mark: nat)
    requires t.mark == Some(mark) && !t.haveFilter
    ensures var r := SpeedSet([t], map[], AllocatedQueue(1, 10), t.name, 5, true, true);
            var q1 := AllocatedQueue(1, 10);
            && r.status == Success && Get(r.cache, t.name) == Some(5) && Get(q1.classes, 0) == Some(10)
            && SpeedSet(r.ts, r.cache, q1, t.name, 5, true, true) == SpeedResult(Unchanged, r.ts, r.cache, q1)
  {
  }

  // -------------------------------------------------------------------- class

  class SpeedManager {
    const route: RouteManager
    const rate: int
    var currentSpeeds: map<string, int>
    var queue: Queue

    constructor (r: RouteManager, defaultRate: int)
      ensures route == r && rate == defaultRate && currentSpeeds == map[]
    {
      route, rate, currentSpeeds, queue := r, defaultRate, map[], Queue(map[], map[]);
    }

    method AllocateSpeeds() returns (ok: bool)
      modifies this`queue
      ensures ok == route.isAllocated
      ensures queue == if ok then AllocatedQueue(|route.tables|, rate) else old(queue)
    {
      if !route.isAllocated {
        return false;
      }
      queue := Queue(map[], map[]);
      for i: nat := 0 to |route.tables|
        invariant queue == AllocatedQueue(i, rate)
      {
        queue := queue.(classes := queue.classes[i := rate]);
      }
      ok := true;
    }

    method SetSpeed(user: string, speed: int, filterOk: bool, classOk: bool) returns (status: Status)
      modifies this`currentSpeeds, this`queue, route`tables
      ensures SpeedResult(status, route.tables, currentSpeeds, queue) ==
              SpeedSet(old(route.tables), old(currentSpeeds), old(queue), user, speed, filterOk, classOk)
    {
      var found := Find(route.tables, user);
      if found.None? {
        return NoSuchUser;
      }
      var i, t := found.value, route.tables[found.value];
      if t.mark.None? {
        return Failed;
      }
      if Get(currentSpeeds, user) == Some(speed) {
        return Unchanged;
      }
      if !t.haveFilter {
        if !filterOk {
          return RuntimeError;
        }
        queue := queue.(filters := queue.filters[t.mark.value := i]);
        route.tables := route.tables[i := t.(haveFilter := true)];
      }
      if !classOk {
        return RuntimeError;
      }
      queue := queue.(classes := queue.classes[i := speed]);
      currentSpeeds := currentSpeeds[user := speed];
      status := Success;
    }
  }
}
