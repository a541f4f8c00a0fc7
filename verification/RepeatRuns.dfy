/** Which policies keep the container single: the two runs that break it under all others,
  * and the equivalence. */
module RepeatRuns {
  import opened Basics
  import opened Handlers
  import opened Protocol
  import opened SingleCopy
  import opened Repeats
  import E = EdgeHandlers
  import R = Redeployment

  // --------------------------------------------------------- a system of two servers

  datatype Duo = Duo(ctl: Ctl, ctlInbox: seq<CtlMsg>, a: Host, b: Host, eu: Eu, euInbox: seq<EuMsg>, due: nat)

  function Full(d: Duo): Tracked {
    Tracked(Sys(d.ctl, d.ctlInbox, map["a" := d.a, "b" := d.b], d.eu, d.euInbox, false), d.due)
  }

  predicate Here(x: string) {
    x == "a" || x == "b"
  }

  function HostOf(d: Duo, x: string): Host {
    if x == "a" then d.a else d.b
  }

  function With(d: Duo, x: string, h: Host): Duo {
    if x == "a" then d.(a := h) else d.(b := h)
  }

  lemma WithIsUpdate(d: Duo, x: string, h: Host)
    requires Here(x)
    ensures x in Full(d).s.hosts && Full(d).s.hosts[x] == HostOf(d, x)
    ensures Full(d).s.(hosts := Full(d).s.hosts[x := h]) == Full(With(d, x, h)).s
  {
    assert Full(d).s.hosts[x := h] == Full(With(d, x, h)).s.hosts;
  }

  function Told(d: Duo, x: string, m: EdgeMsg): Duo {
    if Here(x) then With(d, x, HostOf(d, x).(inbox := HostOf(d, x).inbox + [m])) else d
  }

  function Sent(d: Duo, x: string, m: Datagram): Duo {
    if Here(x) then With(d, x, HostOf(d, x).(dgrams := HostOf(d, x).dgrams + [m])) else d
  }

  function Published(d: Duo, e: Effect): Duo {
    match e
    case Deploy(to) => Told(d, to, EDeploy)
    case PreMigrate(to, job) => Told(d, to, EPreMigrate(job))
    case Migrate(to, job) => Told(d, to, EMigrate(job))
    case Handover(bts) => d.(euInbox := d.euInbox + [UHandover(bts)])
    case Start(_) => d
  }

  function AllPublished(d: Duo, out: seq<Effect>): Duo
    decreases |out|
  {
    if out == [] then d else AllPublished(Published(d, out[0]), out[1..])
  }

  function Posted(d: Duo, m: E.Message): Duo {
    match m
    case PubAllocated(svc) => d.(ctlInbox := d.ctlInbox + [CAllocated(svc)], euInbox := d.euInbox + [UAllocated(svc)])
    case PubPreMigrated(job) => d.(ctlInbox := d.ctlInbox + [CPreMigrated(job)])
    case PubMigrated(svc) => d.(ctlInbox := d.ctlInbox + [CMigrated(svc)], euInbox := d.euInbox + [UMigrated(svc)])
    case SendPrepare(job) => Sent(d, job.server, DPrepare(job))
    case SendMigrate(job) => Sent(d, job.server, DMigrate(job))
  }

  function AllPosted(d: Duo, out: seq<E.Message>): Duo
    decreases |out|
  {
    if out == [] then d else AllPosted(Posted(d, out[0]), out[1..])
  }

  lemma {:induction false} SamePublished(d: Duo, out: seq<Effect>)
    ensures PublishAll(Full(d).s, out) == Full(AllPublished(d, out)).s && AllPublished(d, out).due == d.due
    decreases |out|
  {
    if out == [] {
    } else {
      var e := out[0];
      var x := if e.Deploy? || e.PreMigrate? || e.Migrate? then e.to else "";
      if Here(x) {
        WithIsUpdate(d, x, HostOf(Published(d, e), x));
      }
      assert Publish(Full(d).s, e) == Full(Published(d, e)).s;
      SamePublished(Published(d, e), out[1..]);
    }
  }

  lemma {:induction false} SamePosted(d: Duo, out: seq<E.Message>)
    ensures PostAll(Full(d).s, out) == Full(AllPosted(d, out)).s && AllPosted(d, out).due == d.due
    decreases |out|
  {
    if out == [] {
    } else {
      var m := out[0];
      var x := if m.SendPrepare? || m.SendMigrate? then m.job.server else "";
      if Here(x) {
        WithIsUpdate(d, x, HostOf(Posted(d, m), x));
      }
      assert Post(Full(d).s, m) == Full(Posted(d, m)).s;
      SamePosted(Posted(d, m), out[1..]);
    }
  }

  /** The acts the two runs are made of. */
  predicate Plays(d: Duo, act: Act) {
    match act
    case Again(_) => d.ctl.row.Some?
    case Base(Discover(place)) => !d.eu.discovered && Here(place)
    case Base(RunPlan(plan, json)) => d.ctl.row.Some? && Here(plan.server) && json
    case Base(CtlReceive) => d.ctlInbox != []
    case Base(HostReceive(x, _)) => Here(x) && HostOf(d, x).inbox != []
    case Base(SourceRun(x)) => Here(x) && HostOf(d, x).sourceAlive && HostOf(d, x).edge.queue != []
    case Base(DestRun(x, _)) => Here(x) && HostOf(d, x).destAlive && HostOf(d, x).dgrams != []
    case Base(Monitored(x, cmd)) => Here(x) && HostOf(d, x).edge.listed != [] && cmd.Measure?
    case _ => false
  }

  function Learned(d: Duo): Duo
    requires d.ctlInbox != []
  {
    d.(ctl := CtlHandle(d.ctl, d.ctlInbox[0]).c, ctlInbox := d.ctlInbox[1..],
       due := if d.ctlInbox[0].CMigrated? && d.due > 0 then d.due - 1 else d.due)
  }

  function Played(d: Duo, act: Act): Duo
    requires Plays(d, act)
  {
    match act
    case Again(place) =>
      var o := Discovery(d.ctl, d.eu.ssid, true, place);
      AllPublished(d.(ctl := o.c), o.out)
    case Base(Discover(place)) =>
      var o := Discovery(d.ctl, d.eu.ssid, true, place);
      AllPublished(d.(ctl := o.c, eu := d.eu.(discovered := true)), o.out)
    case Base(RunPlan(plan, json)) =>
      var o := ThresholdPlan(d.ctl, plan, json);
      AllPublished(d.(ctl := o.c, due := d.due + Migrates(o.out)), o.out)
    case Base(CtlReceive) =>
      AllPublished(Learned(d), CtlHandle(d.ctl, d.ctlInbox[0]).out)
    case Base(HostReceive(x, port)) =>
      var h := HostOf(d, x);
      var r := HostHandle(h.edge, x, h.inbox[0], port);
      AllPosted(With(d, x, h.(edge := r.e, inbox := h.inbox[1..])), r.out)
    case Base(SourceRun(x)) =>
      var h := HostOf(d, x);
      var r := E.SourceStep(h.edge, true);
      AllPosted(With(d, x, h.(edge := r.e, sourceAlive := r.ok)), r.out)
    case Base(DestRun(x, free)) =>
      var h := HostOf(d, x);
      var r := DestHandle(h.edge, h.dgrams[0], free);
      AllPosted(With(d, x, h.(edge := r.e, dgrams := h.dgrams[1..], destAlive := r.ok)), r.out)
    case Base(Monitored(x, cmd)) =>
      var h := HostOf(d, x);
      With(d, x, h.(edge := h.edge.(queue := h.edge.queue + [cmd])))
    case _ => d
  }

  /** On two servers the acts do what they do in general. */
  lemma SamePlayed(d: Duo, act: Act)
    requires Plays(d, act)
    ensures act.Base? ==> Enabled(Full(d).s, act.step)
    ensures Did(Full(d), act) == Full(Played(d, act))
  {
    match act {
      case Again(place) =>
        var o := Discovery(d.ctl, d.eu.ssid, true, place);
        SamePublished(d.(ctl := o.c), o.out);
      case Base(step) =>
        match step {
          case Discover(place) =>
            var o := Discovery(d.ctl, d.eu.ssid, true, place);
            SamePublished(d.(ctl := o.c, eu := d.eu.(discovered := true)), o.out);
          case RunPlan(plan, json) =>
            var o := ThresholdPlan(d.ctl, plan, json);
            SamePublished(d.(ctl := o.c, due := d.due + Migrates(o.out)), o.out);
          case CtlReceive =>
            SamePublished(Learned(d), CtlHandle(d.ctl, d.ctlInbox[0]).out);
          case _ =>
            SamePlayedAtHost(d, step);
        }
    }
  }

  lemma SamePlayedAtHost(d: Duo, step: Step)
    requires Plays(d, Base(step)) && (step.HostReceive? || step.SourceRun? || step.DestRun? || step.Monitored?)
    ensures Enabled(Full(d).s, step) && Did(Full(d), Base(step)) == Full(Played(d, Base(step)))
  {
    var x, h := step.x, HostOf(d, step.x);
    WithIsUpdate(d, x, h);
    match step {
      case HostReceive(_, port) =>
        var r := HostHandle(h.edge, x, h.inbox[0], port);
        HostPosts(d, x, h.(edge := r.e, inbox := h.inbox[1..]), r.out);
      case SourceRun(_) =>
        var r := E.SourceStep(h.edge, true);
        HostPosts(d, x, h.(edge := r.e, sourceAlive := r.ok), r.out);
      case DestRun(_, free) =>
        var r := DestHandle(h.edge, h.dgrams[0], free);
        HostPosts(d, x, h.(edge := r.e, dgrams := h.dgrams[1..], destAlive := r.ok), r.out);
      case Monitored(_, cmd) =>
        WithIsUpdate(d, x, h.(edge := h.edge.(queue := h.edge.queue + [cmd])));
    }
  }

  lemma HostPosts(d: Duo, x: string, h: Host, out: seq<E.Message>)
    requires Here(x)
    ensures PostAll(Full(d).s.(hosts := Full(d).s.hosts[x := h]), out) == Full(AllPosted(With(d, x, h), out)).s
    ensures AllPosted(With(d, x, h), out).due == d.due
  {
    WithIsUpdate(d, x, h);
    SamePosted(With(d, x, h), out);
  }

  // ------------------------------------------------------------------ the runs

  const TO_B := Job("b", "bts")
  const TO_A := Job("a", "bts")
  const AT_A := Service("a", 1)
  const AT_B := Service("b", 2)
  const BACK := Service("a", 3)
  const ASKED := Eu(true, None, "bts", true)

  const IDLE_BITS: Bits := {RunningBit}
  const BUSY_BITS: Bits := {RunningBit, PreMigrateBit, MigrateBit}

  function Mind(bits: Bits, server: string, port: Option<nat>, phase: Phase): Ctl {
    Ctl(Some(bits), Some(Row(server, port, phase)), Some("bts"), None, None)
  }

  function Quietly(e: E.Edge): Host {
    Host(e, [], [], true, true)
  }

  function Serving(queue: seq<E.Cmd>, pre2: bool, record: bool): E.Edge {
    E.Edge([AT_A], E.Up(1), queue, pre2, record, None)
  }

  const NONE := Quietly(E.IDLE)
  const FRESH := Duo(UNKNOWN, [], NONE, NONE, Eu(false, None, "bts", true), [], 0)
  const BORN := Duo(Mind({}, "a", None, InitPhase), [], Host(E.IDLE, [EDeploy], [], true, true), NONE, ASKED, [], 0)
  const RUNS := Duo(Mind({}, "a", None, InitPhase), [CAllocated(AT_A)], Quietly(Serving([], false, false)), NONE, ASKED,
                    [UAllocated(AT_A)], 0)
  const KNOWN := RUNS.(ctl := Mind(IDLE_BITS, "a", Some(1), RunningPhase), ctlInbox := [])
  const WATCHED := KNOWN.(a := Quietly(Serving([E.Measure], false, false)))
  const MEASURED := KNOWN.(a := Quietly(Serving([], true, false)))
  const ORDERED := MEASURED.(a := MEASURED.a.(inbox := [EDeploy]))
  const PLANNED := ORDERED.(ctl := Mind(BUSY_BITS, "a", Some(1), PreMigratePhase),
                            a := ORDERED.a.(inbox := [EDeploy, EPreMigrate(TO_B), EMigrate(TO_B)]), due := 1)
  const ANSWERED := PLANNED.(ctlInbox := [CAllocated(AT_A)], euInbox := [UAllocated(AT_A), UAllocated(AT_A)],
                             a := PLANNED.a.(inbox := [EPreMigrate(TO_B), EMigrate(TO_B)]))
  /** The answer has put the row back to `running` while the migration is under way. */
  const RESET := ANSWERED.(ctl := Mind(IDLE_BITS, "a", Some(1), RunningPhase), ctlInbox := [])

  predicate Leads(d: Duo, act: Act, d': Duo) {
    Plays(d, act) && Played(d, act) == d'
  }

  lemma Short<T>(w: T, x: T, y: T, z: T)
    ensures [w][1..] == [] && [w, x][1..] == [x] && [w, x, y][1..] == [x, y] && [w, x, y, z][1..] == [x, y, z]
    ensures [] + [w] == [w] && [w] + [x] == [w, x] && [w, x] + [y] == [w, x, y] && [w, x, y] + [z] == [w, x, y, z]
  {
  }

  lemma ToKnown()
    ensures Leads(FRESH, Base(Discover("a")), BORN)
    ensures Leads(BORN, Base(HostReceive("a", 1)), RUNS)
    ensures Leads(RUNS, Base(CtlReceive), KNOWN)
  {
    Short(EDeploy, EDeploy, EDeploy, EDeploy);
    Short(AT_A, AT_A, AT_A, AT_A);
    Short(CAllocated(AT_A), CAllocated(AT_A), CAllocated(AT_A), CAllocated(AT_A));
    Short(UAllocated(AT_A), UAllocated(AT_A), UAllocated(AT_A), UAllocated(AT_A));
    Short(E.PubAllocated(AT_A), E.PubAllocated(AT_A), E.PubAllocated(AT_A), E.PubAllocated(AT_A));
    Short(Deploy("a"), Deploy("a"), Deploy("a"), Deploy("a"));
  }

  lemma ToOrdered()
    ensures Leads(KNOWN, Base(Monitored("a", E.Measure)), WATCHED)
    ensures Leads(WATCHED, Base(SourceRun("a")), MEASURED)
    ensures Leads(MEASURED, Again("a"), ORDERED)
  {
    Short(E.Measure, E.Measure, E.Measure, E.Measure);
    Short(Deploy("a"), Deploy("a"), Deploy("a"), Deploy("a"));
    Short(EDeploy, EDeploy, EDeploy, EDeploy);
  }

  /** A plan for a running service publishes both orders to the row's server. */
  lemma PlanFrom(x: string, port: nat, y: string)
    requires x != y
    ensures var job := Job(y, "bts");
            var o := ThresholdPlan(Mind(IDLE_BITS, x, Some(port), RunningPhase), Plan("bts", y), true);
            && o == Outcome(Mind(BUSY_BITS, x, Some(port), PreMigratePhase), [PreMigrate(x, job), Migrate(x, job)])
            && Migrates(o.out) == 1
  {
    var job := Job(y, "bts");
    assert PreMigrateBit in IDLE_BITS + {PreMigrateBit} && PreMigrateBit !in RUNNING_STATE;
    assert IDLE_BITS + {PreMigrateBit} + {MigrateBit} == BUSY_BITS;
    var m := ThresholdMigration(Mind(IDLE_BITS, x, Some(port), RunningPhase), Plan("bts", y), true);
    assert m.out == [PreMigrate(x, job)] + [Migrate(x, job)] == [PreMigrate(x, job), Migrate(x, job)];
    assert [] + m.out == m.out;
    MigratesPair(x, job);
  }

  lemma OnePublished(d: Duo, e: Effect)
    ensures AllPublished(d, [e]) == Published(d, e)
  {
    assert [e][1..] == [];
  }

  lemma TwoPublished(d: Duo, e: Effect, e': Effect)
    ensures AllPublished(d, [e, e']) == Published(Published(d, e), e')
  {
    assert [e, e'][1..] == [e'];
    OnePublished(Published(d, e), e');
  }

  lemma OnePosted(d: Duo, m: E.Message)
    ensures AllPosted(d, [m]) == Posted(d, m)
  {
    assert [m][1..] == [];
  }

  lemma TwoPosted(d: Duo, m: E.Message, m': E.Message)
    ensures AllPosted(d, [m, m']) == Posted(Posted(d, m), m')
  {
    assert [m, m'][1..] == [m'];
    OnePosted(Posted(d, m), m');
  }

  lemma ToPlanned()
    ensures Leads(ORDERED, Base(RunPlan(Plan("bts", "b"), true)), PLANNED)
  {
    PlanFrom("a", 1, "b");
    TwoPublished(ORDERED.(ctl := PLANNED.ctl, due := 1), PreMigrate("a", TO_B), Migrate("a", TO_B));
    Short(EDeploy, EPreMigrate(TO_B), EMigrate(TO_B), EDeploy);
  }

  lemma ToReset()
    ensures Leads(PLANNED, Base(HostReceive("a", 0)), ANSWERED)
    ensures Leads(ANSWERED, Base(CtlReceive), RESET)
  {
    Short(EDeploy, EPreMigrate(TO_B), EMigrate(TO_B), EDeploy);
    OnePosted(PLANNED.(a := ANSWERED.a), E.PubAllocated(AT_A));
    Short(CAllocated(AT_A), CAllocated(AT_A), CAllocated(AT_A), CAllocated(AT_A));
    Short(UAllocated(AT_A), UAllocated(AT_A), UAllocated(AT_A), UAllocated(AT_A));
  }

  // --------------------------------------------- a second order during the migration

  const GONE := E.Edge([], E.Exited(1), [], false, true, None)

  function Taken(d: Duo, rest: seq<EdgeMsg>, queue: seq<E.Cmd>): Duo {
    d.(a := Host(Serving(queue, true, false), rest, [], true, true))
  }

  function Prepared(d: Duo, rest: seq<EdgeMsg>): Duo {
    d.(a := Host(Serving([E.MigrateCmd(TO_B)], true, true), rest, [], true, true),
       b := d.b.(dgrams := [DPrepare(TO_B)]), ctlInbox := [CPreMigrated(TO_B)])
  }

  function Departed(d: Duo, rest: seq<EdgeMsg>): Duo {
    d.(a := Host(GONE, rest, [], true, true), b := d.b.(dgrams := [DPrepare(TO_B), DMigrate(TO_B)]),
       ctlInbox := [CPreMigrated(TO_B)])
  }

  /** The source reads the two orders at the head of its inbox and carries them out. */
  lemma Departs(d: Duo, rest: seq<EdgeMsg>)
    requires d.a == Host(Serving([], true, false), [EPreMigrate(TO_B), EMigrate(TO_B)] + rest, [], true, true)
    requires d.b == NONE && d.ctlInbox == []
    ensures Leads(d, Base(HostReceive("a", 0)), Taken(d, [EMigrate(TO_B)] + rest, [E.Prepare(TO_B)]))
    ensures Leads(Taken(d, [EMigrate(TO_B)] + rest, [E.Prepare(TO_B)]), Base(HostReceive("a", 0)),
                  Taken(d, rest, [E.Prepare(TO_B), E.MigrateCmd(TO_B)]))
    ensures Leads(Taken(d, rest, [E.Prepare(TO_B), E.MigrateCmd(TO_B)]), Base(SourceRun("a")), Prepared(d, rest))
    ensures Leads(Prepared(d, rest), Base(SourceRun("a")), Departed(d, rest))
  {
    assert ([EPreMigrate(TO_B), EMigrate(TO_B)] + rest)[1..] == [EMigrate(TO_B)] + rest;
    assert ([EMigrate(TO_B)] + rest)[1..] == rest;
    assert [] + [E.Prepare(TO_B)] == [E.Prepare(TO_B)];
    assert [E.Prepare(TO_B)] + [E.MigrateCmd(TO_B)] == [E.Prepare(TO_B), E.MigrateCmd(TO_B)];
    Prepares(d, rest);
    Leaves(d, rest);
  }

  lemma Prepares(d: Duo, rest: seq<EdgeMsg>)
    requires d.b == NONE && d.ctlInbox == []
    ensures Leads(Taken(d, rest, [E.Prepare(TO_B), E.MigrateCmd(TO_B)]), Base(SourceRun("a")), Prepared(d, rest))
  {
    assert [E.Prepare(TO_B), E.MigrateCmd(TO_B)][1..] == [E.MigrateCmd(TO_B)];
    assert [] + [DPrepare(TO_B)] == [DPrepare(TO_B)] && [] + [CPreMigrated(TO_B)] == [CPreMigrated(TO_B)];
    var prepared := d.(a := Host(Serving([E.MigrateCmd(TO_B)], true, true), rest, [], true, true));
    TwoPosted(prepared, E.PubPreMigrated(TO_B), E.SendPrepare(TO_B));
  }

  lemma Leaves(d: Duo, rest: seq<EdgeMsg>)
    requires d.b == NONE
    ensures Leads(Prepared(d, rest), Base(SourceRun("a")), Departed(d, rest))
  {
    assert [E.MigrateCmd(TO_B)][1..] == [] && [AT_A][1..] == [];
    assert [DPrepare(TO_B)] + [DMigrate(TO_B)] == [DPrepare(TO_B), DMigrate(TO_B)];
    OnePosted(Prepared(d, rest).(a := Host(GONE, rest, [], true, true)), E.SendMigrate(TO_B));
  }

  const ASKED_AGAIN := Departed(RESET, []).(a := Host(GONE, [EDeploy], [], true, true))
  const TWICE := Departed(RESET, []).(
    a := Quietly(E.Edge([Service("a", 2)], E.Up(2), [], false, true, None)),
    ctlInbox := [CPreMigrated(TO_B), CAllocated(Service("a", 2))],
    euInbox := [UAllocated(AT_A), UAllocated(AT_A), UAllocated(Service("a", 2))])

  lemma ToTwice()
    ensures Leads(Departed(RESET, []), Again("a"), ASKED_AGAIN)
    ensures Leads(ASKED_AGAIN, Base(HostReceive("a", 2)), TWICE)
  {
    Short(Deploy("a"), Deploy("a"), Deploy("a"), Deploy("a"));
    Short(EDeploy, EDeploy, EDeploy, EDeploy);
    var svc := Service("a", 2);
    assert [] + [svc] == [svc];
    OnePosted(ASKED_AGAIN.(a := TWICE.a), E.PubAllocated(svc));
    assert [CPreMigrated(TO_B)] + [CAllocated(svc)] == TWICE.ctlInbox;
    assert [UAllocated(AT_A), UAllocated(AT_A)] + [UAllocated(svc)] == TWICE.euInbox;
  }

  // ------------------------------------------------------- a migration started twice

  const STALE: seq<EdgeMsg> := [EPreMigrate(TO_B), EMigrate(TO_B)]

  /** The plan is computed again although the first migration is not over. */
  const PLANNED_TWICE := RESET.(ctl := Mind(BUSY_BITS, "a", Some(1), PreMigratePhase),
                                a := RESET.a.(inbox := STALE + STALE), due := 2)

  lemma ToPlannedTwice()
    ensures Leads(RESET, Base(RunPlan(Plan("bts", "b"), true)), PLANNED_TWICE)
  {
    PlanFrom("a", 1, "b");
    TwoPublished(RESET.(ctl := PLANNED_TWICE.ctl, due := 2), PreMigrate("a", TO_B), Migrate("a", TO_B));
    assert STALE + [EPreMigrate(TO_B)] + [EMigrate(TO_B)] == STALE + STALE;
  }

  const AWAY := Departed(PLANNED_TWICE, STALE)
  const READY := AWAY.(b := Host(E.Edge([], E.Created(2), [], false, false, Some(E.Open(2))), [], [DMigrate(TO_B)],
      true, true))

  function Moved(queue: seq<E.Cmd>, record: bool): E.Edge {
    E.Edge([AT_B], E.Up(2), queue, true, record, Some(E.Closed(2)))
  }

  const MOVED := AWAY.(b := Quietly(Moved([], false)), ctlInbox := [CPreMigrated(TO_B), CMigrated(AT_B)],
                       euInbox := [UAllocated(AT_A), UAllocated(AT_A), UMigrated(AT_B)])
  const HEARD := MOVED.(ctl := Mind(BUSY_BITS, "a", Some(1), PreMigratedPhase), ctlInbox := [CMigrated(AT_B)])
  const LANDED := MOVED.(ctl := Mind(IDLE_BITS, "b", Some(2), RunningPhase), ctlInbox := [], due := 1)

  lemma ToReady()
    ensures Leads(AWAY, Base(DestRun("b", Some(2))), READY)
  {
    assert [DPrepare(TO_B), DMigrate(TO_B)][1..] == [DMigrate(TO_B)];
  }

  lemma ToMoved()
    ensures Leads(READY, Base(DestRun("b", None)), MOVED)
  {
    assert [DMigrate(TO_B)][1..] == [];
    assert [] + [AT_B] == [AT_B];
    OnePosted(READY.(b := MOVED.b), E.PubMigrated(AT_B));
    assert [CPreMigrated(TO_B)] + [CMigrated(AT_B)] == MOVED.ctlInbox;
    assert [UAllocated(AT_A), UAllocated(AT_A)] + [UMigrated(AT_B)] == MOVED.euInbox;
  }

  lemma ToLanded()
    ensures Leads(MOVED, Base(CtlReceive), HEARD)
    ensures Leads(HEARD, Base(CtlReceive), LANDED)
  {
    assert MOVED.ctlInbox[1..] == HEARD.ctlInbox && HEARD.ctlInbox[1..] == [];
  }

  const RETURN := LANDED.(ctl := Mind(BUSY_BITS, "b", Some(2), PreMigratePhase),
                          b := Host(Moved([], false), [EPreMigrate(TO_A), EMigrate(TO_A)], [], true, true), due := 2)

  function Queued(inbox: seq<EdgeMsg>, queue: seq<E.Cmd>): Duo {
    RETURN.(b := Host(Moved(queue, false), inbox, [], true, true))
  }

  lemma ToReturn()
    ensures Leads(LANDED, Base(RunPlan(Plan("bts", "a"), true)), RETURN)
    ensures Leads(RETURN, Base(HostReceive("b", 0)), Queued([EMigrate(TO_A)], [E.Prepare(TO_A)]))
    ensures Leads(Queued([EMigrate(TO_A)], [E.Prepare(TO_A)]), Base(HostReceive("b", 0)),
                  Queued([], [E.Prepare(TO_A), E.MigrateCmd(TO_A)]))
  {
    PlanFrom("b", 2, "a");
    TwoPublished(LANDED.(ctl := RETURN.ctl, due := 2), PreMigrate("b", TO_A), Migrate("b", TO_A));
    Short(EPreMigrate(TO_A), EMigrate(TO_A), EMigrate(TO_A), EMigrate(TO_A));
    Short(EMigrate(TO_A), EMigrate(TO_A), EMigrate(TO_A), EMigrate(TO_A));
    Short(E.Prepare(TO_A), E.MigrateCmd(TO_A), E.MigrateCmd(TO_A), E.MigrateCmd(TO_A));
  }

  const COMING := RETURN.(a := Host(GONE, STALE, [DPrepare(TO_A)], true, true),
                          b := Quietly(Moved([E.MigrateCmd(TO_A)], true)), ctlInbox := [CPreMigrated(TO_A)])
  const LEFT := E.Edge([], E.Exited(2), [], false, true, Some(E.Closed(2)))
  const SENT := COMING.(a := Host(GONE, STALE, [DPrepare(TO_A), DMigrate(TO_A)], true, true), b := Quietly(LEFT))

  lemma ToComing()
    ensures Leads(Queued([], [E.Prepare(TO_A), E.MigrateCmd(TO_A)]), Base(SourceRun("b")), COMING)
  {
    assert [E.Prepare(TO_A), E.MigrateCmd(TO_A)][1..] == [E.MigrateCmd(TO_A)];
    assert [] + [DPrepare(TO_A)] == [DPrepare(TO_A)] && [] + [CPreMigrated(TO_A)] == [CPreMigrated(TO_A)];
    TwoPosted(RETURN.(b := COMING.b), E.PubPreMigrated(TO_A), E.SendPrepare(TO_A));
  }

  lemma ToSent()
    ensures Leads(COMING, Base(SourceRun("b")), SENT)
  {
    assert [E.MigrateCmd(TO_A)][1..] == [] && [AT_B][1..] == [];
    assert [DPrepare(TO_A)] + [DMigrate(TO_A)] == [DPrepare(TO_A), DMigrate(TO_A)];
    OnePosted(COMING.(b := SENT.b), E.SendMigrate(TO_A));
  }

  const OPENED := SENT.(a := Host(E.Edge([], E.Created(3), [], false, true, Some(E.Open(3))), STALE, [DMigrate(TO_A)],
      true, true))
  /** The stale prepare is dropped, because nothing is listed at the moment. */
  const DROPPED := OPENED.(a := OPENED.a.(inbox := [EMigrate(TO_B)]))

  function Back(container: E.Container, listed: seq<Service>, queue: seq<E.Cmd>): E.Edge {
    E.Edge(listed, container, queue, listed != [], true, Some(E.Closed(3)))
  }

  const HOME := DROPPED.(a := Host(Back(E.Up(3), [BACK], []), [EMigrate(TO_B)], [], true, true),
                         ctlInbox := [CPreMigrated(TO_A), CMigrated(BACK)],
                         euInbox := [UAllocated(AT_A), UAllocated(AT_A), UMigrated(AT_B), UMigrated(BACK)])

  lemma ToDropped()
    ensures Leads(SENT, Base(DestRun("a", Some(3))), OPENED)
    ensures Leads(OPENED, Base(HostReceive("a", 0)), DROPPED)
  {
    assert [DPrepare(TO_A), DMigrate(TO_A)][1..] == [DMigrate(TO_A)] && STALE[1..] == [EMigrate(TO_B)];
  }

  lemma ToHome()
    ensures Leads(DROPPED, Base(DestRun("a", None)), HOME)
  {
    assert [DMigrate(TO_A)][1..] == [];
    assert [] + [BACK] == [BACK];
    OnePosted(DROPPED.(a := HOME.a), E.PubMigrated(BACK));
    assert [CPreMigrated(TO_A)] + [CMigrated(BACK)] == HOME.ctlInbox;
    assert [UAllocated(AT_A), UAllocated(AT_A), UMigrated(AT_B)] + [UMigrated(BACK)] == HOME.euInbox;
  }

  const QUEUED := HOME.(a := Quietly(Back(E.Up(3), [BACK], [E.MigrateCmd(TO_B)])))
  const LOST := HOME.(a := Quietly(Back(E.Exited(3), [], [])), b := Host(LEFT, [], [DMigrate(TO_B)], true, true))
  const NOWHERE := LOST.(b := Host(LEFT, [], [], true, false))

  lemma ToQueued()
    ensures Leads(HOME, Base(HostReceive("a", 0)), QUEUED)
  {
    assert [EMigrate(TO_B)][1..] == [] && [] + [E.MigrateCmd(TO_B)] == [E.MigrateCmd(TO_B)];
  }

  lemma ToLost()
    ensures Leads(QUEUED, Base(SourceRun("a")), LOST)
  {
    assert [E.MigrateCmd(TO_B)][1..] == [] && [BACK][1..] == [] && [] + [DMigrate(TO_B)] == [DMigrate(TO_B)];
    OnePosted(QUEUED.(a := LOST.a), E.SendMigrate(TO_B));
  }

  lemma ToNowhere()
    ensures Leads(LOST, Base(DestRun("b", None)), NOWHERE)
  {
    assert [DMigrate(TO_B)][1..] == [];
  }

  // ------------------------------------------------------------- the equivalence

  /** One more act of a run. */
  lemma OneMore(p: Policy, t: Tracked, acts: seq<Act>, d: Duo, act: Act, d': Duo)
    requires DidAll(p, t, acts) == Some(Full(d)) && Leads(d, act, d') && Can(p, Full(d), act)
    ensures DidAll(p, t, acts + [act]) == Some(Full(d'))
  {
    SamePlayed(d, act);
    DidConcat(p, t, acts, [act]);
    assert [act][1..] == [];
    assert DidAll(p, Full(d), [act]) == DidAll(p, Full(d'), []);
  }

  lemma {:induction false} DidConcat(p: Policy, t: Tracked, a: seq<Act>, b: seq<Act>)
    requires DidAll(p, t, a).Some?
    ensures DidAll(p, t, a + b) == DidAll(p, DidAll(p, t, a).value, b)
    decreases |a|
  {
    if a == [] {
      assert a + b == b;
    } else {
      assert (a + b)[0] == a[0] && (a + b)[1..] == a[1..] + b;
      DidConcat(p, Did(t, a[0]), a[1..], b);
    }
  }

  /** State `d` is reached under the policy. */
  ghost predicate Reached(p: Policy, d: Duo) {
    exists acts :: DidAll(p, Full(FRESH), acts) == Some(Full(d))
  }

  lemma Reaches(p: Policy, d: Duo, act: Act, d': Duo)
    requires Reached(p, d) && Leads(d, act, d')
    requires act.Base? && Started(Full(d).s, act.step) > 0 ==> Permits(p.plans, Full(d))
    requires act.Again? && Discovery(d.ctl, d.eu.ssid, true, act.place).out != [] ==> Permits(p.orders, Full(d))
    ensures Reached(p, d')
  {
    var acts :| DidAll(p, Full(FRESH), acts) == Some(Full(d));
    SamePlayed(d, act);
    OneMore(p, Full(FRESH), acts, d, act, d');
  }

  lemma Starts(p: Policy)
    ensures Reached(p, FRESH) && Initial(Full(FRESH).s)
  {
    assert DidAll(p, Full(FRESH), []) == Some(Full(FRESH));
  }

  /** Up to the answer that resets the row: one order and one plan, sent while the service
    * is `running` and nothing is due. */
  lemma ReachesReset(p: Policy)
    requires !p.orders.Never? && !p.plans.Never?
    ensures Reached(p, RESET)
  {
    Starts(p);
    ToKnown();
    Reaches(p, FRESH, Base(Discover("a")), BORN);
    Reaches(p, BORN, Base(HostReceive("a", 1)), RUNS);
    Reaches(p, RUNS, Base(CtlReceive), KNOWN);
    ToOrdered();
    Reaches(p, KNOWN, Base(Monitored("a", E.Measure)), WATCHED);
    Reaches(p, WATCHED, Base(SourceRun("a")), MEASURED);
    Reaches(p, MEASURED, Again("a"), ORDERED);
    ToPlanned();
    Reaches(p, ORDERED, Base(RunPlan(Plan("bts", "b"), true)), PLANNED);
    ToReset();
    Reaches(p, PLANNED, Base(HostReceive("a", 0)), ANSWERED);
    Reaches(p, ANSWERED, Base(CtlReceive), RESET);
  }

  lemma ReachesDeparted(p: Policy, d: Duo, rest: seq<EdgeMsg>)
    requires Reached(p, d)
    requires d.a == Host(Serving([], true, false), [EPreMigrate(TO_B), EMigrate(TO_B)] + rest, [], true, true)
    requires d.b == NONE && d.ctlInbox == []
    ensures Reached(p, Departed(d, rest))
  {
    Departs(d, rest);
    Reaches(p, d, Base(HostReceive("a", 0)), Taken(d, [EMigrate(TO_B)] + rest, [E.Prepare(TO_B)]));
    Reaches(p, Taken(d, [EMigrate(TO_B)] + rest, [E.Prepare(TO_B)]), Base(HostReceive("a", 0)),
            Taken(d, rest, [E.Prepare(TO_B), E.MigrateCmd(TO_B)]));
    Reaches(p, Taken(d, rest, [E.Prepare(TO_B), E.MigrateCmd(TO_B)]), Base(SourceRun("a")), Prepared(d, rest));
    Reaches(p, Prepared(d, rest), Base(SourceRun("a")), Departed(d, rest));
  }

  /** A row that is `running` is no guard for an order: the user ends with two containers. */
  lemma TwoContainers(p: Policy)
    requires (p.orders.Always? || p.orders.WhileRunning?) && !p.plans.Never?
    ensures Reached(p, TWICE) && Copies(Full(TWICE).s.hosts) == {At("a"), InTransit("b", 1)}
  {
    ReachesReset(p);
    assert [EPreMigrate(TO_B), EMigrate(TO_B)] + [] == RESET.a.inbox;
    ReachesDeparted(p, RESET, []);
    ToTwice();
    Reaches(p, Departed(RESET, []), Again("a"), ASKED_AGAIN);
    Reaches(p, ASKED_AGAIN, Base(HostReceive("a", 2)), TWICE);
    CopiesOfTwice();
  }

  lemma CopiesOfTwice()
    ensures Copies(Full(TWICE).s.hosts) == {At("a"), InTransit("b", 1)}
  {
    CopiesAre(Full(TWICE).s.hosts, {At("a"), InTransit("b", 1)});
  }

  /** Nor is the row that is `running` a guard for a plan, once an order has been answered:
    * a stale MIGRATE takes the container away although nobody has prepared for it. */
  lemma NoContainer(p: Policy)
    requires !p.orders.Never? && (p.plans.Always? || p.plans.WhileRunning?)
    ensures Reached(p, NOWHERE) && Copies(Full(NOWHERE).s.hosts) == {} && SingleCopy.Allocated(Full(NOWHERE).s)
  {
    ReachesReset(p);
    ReachesAway(p);
    ReachesReturn(p);
    ReachesNowhere(p);
    CopiesOfNowhere();
  }

  lemma CopiesOfNowhere()
    ensures Copies(Full(NOWHERE).s.hosts) == {} && SingleCopy.Allocated(Full(NOWHERE).s)
  {
    CopiesAre(Full(NOWHERE).s.hosts, {});
    HearAppend(None, [UAllocated(AT_A), UAllocated(AT_A), UMigrated(AT_B)], UMigrated(BACK));
    assert [UAllocated(AT_A), UAllocated(AT_A), UMigrated(AT_B)] + [UMigrated(BACK)] == NOWHERE.euInbox;
  }

  lemma ReachesAway(p: Policy)
    requires Reached(p, RESET) && (p.plans.Always? || p.plans.WhileRunning?)
    ensures Reached(p, AWAY)
  {
    ToPlannedTwice();
    Reaches(p, RESET, Base(RunPlan(Plan("bts", "b"), true)), PLANNED_TWICE);
    ReachesDeparted(p, PLANNED_TWICE, STALE);
  }

  lemma ReachesReturn(p: Policy)
    requires Reached(p, AWAY) && (p.plans.Always? || p.plans.WhileRunning?)
    ensures Reached(p, SENT)
  {
    ReachesLanded(p);
    ToReturn();
    Reaches(p, LANDED, Base(RunPlan(Plan("bts", "a"), true)), RETURN);
    Reaches(p, RETURN, Base(HostReceive("b", 0)), Queued([EMigrate(TO_A)], [E.Prepare(TO_A)]));
    Reaches(p, Queued([EMigrate(TO_A)], [E.Prepare(TO_A)]), Base(HostReceive("b", 0)),
            Queued([], [E.Prepare(TO_A), E.MigrateCmd(TO_A)]));
    ToComing();
    Reaches(p, Queued([], [E.Prepare(TO_A), E.MigrateCmd(TO_A)]), Base(SourceRun("b")), COMING);
    ToSent();
    Reaches(p, COMING, Base(SourceRun("b")), SENT);
  }

  lemma ReachesLanded(p: Policy)
    requires Reached(p, AWAY)
    ensures Reached(p, LANDED)
  {
    ToReady();
    ToMoved();
    Reaches(p, AWAY, Base(DestRun("b", Some(2))), READY);
    Reaches(p, READY, Base(DestRun("b", None)), MOVED);
    ToLanded();
    Reaches(p, MOVED, Base(CtlReceive), HEARD);
    Reaches(p, HEARD, Base(CtlReceive), LANDED);
  }

  lemma ReachesNowhere(p: Policy)
    requires Reached(p, SENT)
    ensures Reached(p, NOWHERE)
  {
    ToDropped();
    Reaches(p, SENT, Base(DestRun("a", Some(3))), OPENED);
    Reaches(p, OPENED, Base(HostReceive("a", 0)), DROPPED);
    ToHome();
    Reaches(p, DROPPED, Base(DestRun("a", None)), HOME);
    ToQueued();
    Reaches(p, HOME, Base(HostReceive("a", 0)), QUEUED);
    ToLost();
    Reaches(p, QUEUED, Base(SourceRun("a")), LOST);
    ToNowhere();
    Reaches(p, LOST, Base(DestRun("b", None)), NOWHERE);
  }

  lemma ReachedIsUnsafe(p: Policy, d: Duo)
    requires Reached(p, d) && !OneCopy(Full(d).s)
    ensures !Safe(p)
  {
    Starts(p);
    var acts :| DidAll(p, Full(FRESH), acts) == Some(Full(d));
    assert Full(FRESH) == Tracked(Full(FRESH).s, 0);
  }

  /** However often users ask again, the container stays single in all runs exactly when
    * the controller repeats no order, or starts no migration, or does both only while every
    * MIGRATE it has published has had its MIGRATED. */
  lemma SafePolicies(p: Policy)
    ensures Safe(p) <==> p.orders.Never? || p.plans.Never? || (p.orders.WhenIdle? && p.plans.WhenIdle?)
  {
    if Cautious(p) {
      CautiousIsSafe(p);
    } else if p.orders.WhenIdle? {
      NoContainer(p);
      ReachedIsUnsafe(p, NOWHERE);
    } else {
      TwoContainers(p);
      assert |{At("a"), InTransit("b", 1)}| == 2;
      ReachedIsUnsafe(p, TWICE);
    }
  }
}
