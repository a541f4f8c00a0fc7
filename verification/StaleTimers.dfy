/** When a pre-migration timer of the optimization planner goes to the wrong server
  * (centralized_controller.py): it names the server the service ran on when the timer
  * was started. */
module StaleTimers {
  import opened Basics
  import opened Handlers
  import opened Epochs

  /** The server that a message to the controller says the service runs on. */
  function Named(e: Event): Option<string> {
    match e
    case OnAllocated(svc) => Some(svc.server)
    case OnMigrated(svc) => Some(svc.server)
    case _ => None
  }

  /** A run that remembers, for each pending timer, the server named last since the timer
    * was started. */
  datatype Watched = Watched(w: World, since: seq<Option<string>>)

  const START_WATCHED := Watched(START_WORLD, [])

  function Renewed(since: seq<Option<string>>, named: Option<string>): (r: seq<Option<string>>)
    ensures |r| == |since| && forall i | 0 <= i < |r| :: r[i] == if named.Some? then named else since[i]
  {
    if named.None? then since else seq(|since|, i requires 0 <= i < |since| => named)
  }

  function Fresh(n: nat): (r: seq<Option<string>>)
    ensures |r| == n && forall i | 0 <= i < n :: r[i] == None
  {
    seq(n, i => None)
  }

  function Watch(x: Watched, m: Move): Watched
    requires CanMove(x.w, m) && |x.since| == |x.w.timers|
  {
    match m
    case Receive(e) =>
      Watched(Moved(x.w, m), Renewed(x.since, Named(e)) + Fresh(|TimersOf(Handle(true, x.w.c, e).out)|))
    case Fire(i) =>
      Watched(Moved(x.w, m), x.since[..i] + x.since[i + 1..])
  }

  function WatchAll(x: Watched, ms: seq<Move>): Option<Watched>
    decreases |ms|
  {
    if ms == [] then Some(x)
    else if !CanMove(x.w, ms[0]) || |x.since| != |x.w.timers| then None
    else WatchAll(Watch(x, ms[0]), ms[1..])
  }

  /** Watching changes nothing. */
  lemma {:induction false} WatchedIsMoved(x: Watched, ms: seq<Move>)
    requires |x.since| == |x.w.timers|
    ensures match MovedAll(x.w, ms)
            case None => WatchAll(x, ms).None?
            case Some(w) =>
              WatchAll(x, ms).Some? && WatchAll(x, ms).value.w == w && |WatchAll(x, ms).value.since| == |w.timers|
    decreases |ms|
  {
    if ms == [] {
    } else if CanMove(x.w, ms[0]) {
      WatchedIsMoved(Watch(x, ms[0]), ms[1..]);
    }
  }

  /** Where the service runs, seen from a pre-migration timer: at the server named last
    * since the timer was started, or at the timer's own. */
  predicate Traced(c: Ctl, t: Timer, since: Option<string>) {
    t.PreMigrateTimer? ==>
      c.row.Some? && c.row.value.server == if since.Some? then since.value else t.source
  }

  ghost predicate Inv(x: Watched) {
    |x.since| == |x.w.timers| && forall i | 0 <= i < |x.since| :: Traced(x.w.c, x.w.timers[i], x.since[i])
  }

  /** The row changes its server only when a message names one. */
  lemma RowFollows(c: Ctl, e: Event)
    requires Possible(true, e) && !e.OnTimer? && c.row.Some?
    ensures var r := Handle(true, c, e).c.row;
            r.Some? && r.value.server == if Named(e).Some? then Named(e).value else c.row.value.server
  {
  }

  lemma FireLeavesRow(c: Ctl, t: Timer)
    ensures FireTimer(c, t).c.row == c.row
  {
  }

  /** A pre-migration timer starts with the server of the row. */
  lemma StartedHere(c: Ctl, e: Event, k: nat)
    requires Possible(true, e) && !e.OnTimer?
    requires k < |TimersOf(Handle(true, c, e).out)|
    ensures Traced(Handle(true, c, e).c, TimersOf(Handle(true, c, e).out)[k], None)
  {
    OthersStartNone(c, e);
    if e.OnOptimizedPlan? {
      PlanStarts(c, e);
    } else if e.OnPreMigrated? {
      MigrationStarts(c, e, k);
    }
  }

  lemma OthersStartNone(c: Ctl, e: Event)
    requires Possible(true, e) && !e.OnTimer?
    ensures !e.OnOptimizedPlan? && !e.OnPreMigrated? ==> TimersOf(Handle(true, c, e).out) == []
  {
    var o := Handle(true, c, e);
    if |o.out| == 1 {
      OutShort(o.out);
    }
  }

  lemma PlanStarts(c: Ctl, e: Event)
    requires e.OnOptimizedPlan?
    ensures var o := Handle(true, c, e);
            |TimersOf(o.out)| <= 1 && (TimersOf(o.out) != [] ==> Traced(o.c, TimersOf(o.out)[0], None))
  {
    var o := Handle(true, c, e);
    if o.out != [] {
      OutShort(o.out);
    }
  }

  lemma MigrationStarts(c: Ctl, e: Event, k: nat)
    requires e.OnPreMigrated? && k < |TimersOf(Handle(true, c, e).out)|
    ensures !TimersOf(Handle(true, c, e).out)[k].PreMigrateTimer?
  {
    TimersAmong(PreMigratedOptimized(c, e.job, e.mig).out, k);
  }

  lemma {:induction false} TimersAmong(out: seq<Effect>, k: nat)
    requires k < |TimersOf(out)|
    ensures Start(TimersOf(out)[k]) in out
  {
    if out[0].Start? && k == 0 {
    } else {
      TimersAmong(out[1..], if out[0].Start? then k - 1 else k);
    }
  }

  lemma WatchKeeps(x: Watched, m: Move)
    requires Inv(x) && CanMove(x.w, m)
    ensures Inv(Watch(x, m))
  {
    match m {
      case Receive(e) =>
        ReceiveKeeps(x, e);
      case Fire(i) =>
        FireLeavesRow(x.w.c, x.w.timers[i]);
    }
  }

  lemma ReceiveKeeps(x: Watched, e: Event)
    requires Inv(x) && CanMove(x.w, Receive(e))
    ensures Inv(Watch(x, Receive(e)))
  {
    var y, n := Watch(x, Receive(e)), |x.since|;
    forall i | 0 <= i < |y.since|
      ensures Traced(y.w.c, y.w.timers[i], y.since[i])
    {
      if i < n {
        assert Traced(x.w.c, x.w.timers[i], x.since[i]);
        if x.w.timers[i].PreMigrateTimer? {
          RowFollows(x.w.c, e);
        }
      } else {
        StartedHere(x.w.c, e, i - n);
      }
    }
  }

  lemma {:induction false} WatchAllKeeps(x: Watched, ms: seq<Move>)
    requires Inv(x)
    ensures WatchAll(x, ms).Some? ==> Inv(WatchAll(x, ms).value)
    decreases |ms|
  {
    if ms == [] {
    } else if CanMove(x.w, ms[0]) {
      WatchKeeps(x, ms[0]);
      WatchAllKeeps(Watch(x, ms[0]), ms[1..]);
    }
  }

  /** The timer would publish PRE_MIGRATE, and not to where the service runs. */
  ghost predicate Stale(c: Ctl, t: Timer) {
    exists to, job :: PreMigrate(to, job) in FireTimer(c, t).out && (c.row.None? || to != c.row.value.server)
  }

  predicate MayFire(c: Ctl) {
    c.bits.Some? && PreMigrateBit !in c.bits.value && MigrateBit !in c.bits.value
  }

  /** In every run, a pending pre-migration timer is stale exactly when the bits let it
    * fire and, since it was started, the service was last reported on another server
    * than the timer's. The controller can tell: it need only compare the timer's server
    * with the row when the timer fires. */
  lemma StaleExactly(ms: seq<Move>, i: nat)
    ensures var r := WatchAll(START_WATCHED, ms);
            && (r.None? <==> MovedAll(START_WORLD, ms).None?)
            && (r.Some? ==> MovedAll(START_WORLD, ms).value == r.value.w && |r.value.since| == |r.value.w.timers|)
            && (r.Some? && i < |r.value.w.timers| && r.value.w.timers[i].PreMigrateTimer? ==>
                  var c, t, since := r.value.w.c, r.value.w.timers[i], r.value.since[i];
                  && (Stale(c, t) <==> MayFire(c) && since.Some? && since.value != t.source)
                  && c.row.Some? && (Stale(c, t) <==> MayFire(c) && c.row.value.server != t.source))
  {
    WatchedIsMoved(START_WATCHED, ms);
    WatchAllKeeps(START_WATCHED, ms);
    var r := WatchAll(START_WATCHED, ms);
    if r.Some? && i < |r.value.w.timers| && r.value.w.timers[i].PreMigrateTimer? {
      assert Traced(r.value.w.c, r.value.w.timers[i], r.value.since[i]);
      StaleNow(r.value.w.c, r.value.w.timers[i]);
    }
  }

  lemma StaleNow(c: Ctl, t: Timer)
    requires t.PreMigrateTimer? && c.row.Some?
    ensures Stale(c, t) <==> MayFire(c) && c.row.value.server != t.source
  {
    if MayFire(c) {
      assert PreMigrate(t.source, t.job) in FireTimer(c, t).out;
    }
  }
}
