/** A user may ask for its service again.  The controller then orders the server in its
  * database row to deploy, although the container may have left that server.  This module
  * follows the first such order of a run until it is read: it can start a second copy
  * exactly when it is sent in one of the phases of a migration.  What comes after it, and
  * what further orders do, is in the module Repeats. */
module Redeployment {
  import opened Basics
  import opened Handlers
  import opened Protocol
  import opened SingleCopy
  import E = EdgeHandlers

  /** A repeated discovery. */
  function Rediscovered(s: Sys, place: string): Sys {
    var o := Discovery(s.ctl, s.eu.ssid, true, place);
    PublishAll(s.(ctl := o.c), o.out)
  }

  function StepsFrom(s: Sys, steps: seq<Step>): Option<Sys>
    decreases |steps|
  {
    if steps == [] then Some(s) else if !Enabled(s, steps[0]) then None else StepsFrom(Apply(s, steps[0]), steps[1..])
  }

  /** Server `a` reads no message. */
  predicate Waits(steps: seq<Step>, a: string) {
    forall i | 0 <= i < |steps| :: !(steps[i].HostReceive? && steps[i].x == a)
  }

  /** After the run the user asks again, `steps` follow, and then the server reads the
    * order: now the container does not exist exactly once. */
  ghost predicate Breaks(run: seq<Sys>, place: string, steps: seq<Step>, port: nat) {
    IsRun(run) &&
    var s := run[|run| - 1];
    && s.ctl.row.Some? && s.ctl.row.value.phase != InitPhase
    && Waits(steps, s.ctl.row.value.server) && StepsFrom(Rediscovered(s, place), steps).Some?
    && Handles(StepsFrom(Rediscovered(s, place), steps).value, s.ctl.row.value.server, port)
  }

  /** Reading the message at `a` leaves a number of copies other than one. */
  ghost predicate Handles(t: Sys, a: string, port: nat) {
    && a in t.hosts && t.hosts[a].inbox != [] && t.hosts[a].inbox[0] == EDeploy
    && |Copies(HostRead(t, a, port).hosts)| != 1
  }

  function PhaseAfter(run: seq<Sys>): Option<Phase>
    requires run != []
  {
    var s := run[|run| - 1];
    if s.ctl.row.None? then None else Some(s.ctl.row.value.phase)
  }

  // ------------------------------------------------------- while it is running

  /** The state without the order at the head of `a`'s inbox. */
  function Without(s: Sys, a: string): Sys
    requires a in s.hosts && s.hosts[a].inbox != []
  {
    s.(hosts := s.hosts[a := s.hosts[a].(inbox := s.hosts[a].inbox[1..])])
  }

  /** The container runs at `a` and no command or datagram can take it away. */
  predicate Calm(s: Sys, a: string)
    requires a in s.hosts
  {
    && s.eu.discovered
    && s.hosts[a].edge.container.Up? && QueueItems(s.hosts[a].edge.queue) == []
    && forall x | x in s.hosts :: s.hosts[x].dgrams == []
  }

  /** The order waits at the head of the inbox, and but for it the run is as it should be. */
  ghost predicate Ordered(s: Sys, a: string) {
    && a in s.hosts && s.hosts[a].inbox != [] && s.hosts[a].inbox[0] == EDeploy
    && Calm(s, a) && SingleCopy.Inv(Without(s, a))
  }

  /** While the row is `running`, its server runs the container and has nothing else to do. */
  lemma RunningIsHeld(s: Sys)
    requires SingleCopy.Inv(s) && s.ctl.row.Some? && s.ctl.row.value.phase == RunningPhase
    ensures var a := s.ctl.row.value.server; a in s.hosts && s.hosts[a].inbox == [] && Calm(s, a)
  {
    var g :| InvAt(s, g);
    LearnQuiet(s.ctl.row.value, s.ctlInbox);
    assert g.Held? && g.a == s.ctl.row.value.server;
    assert QueueItems(s.hosts[g.a].edge.queue) == [] && InboxItems(s.hosts[g.a].inbox) == [];
  }

  lemma OrderIsFirst(s: Sys, place: string)
    requires SingleCopy.Inv(s) && s.ctl.row.Some? && s.ctl.row.value.phase == RunningPhase
    ensures Ordered(Rediscovered(s, place), s.ctl.row.value.server)
  {
    var a := s.ctl.row.value.server;
    RunningIsHeld(s);
    OrderSent(s, place, a);
  }

  lemma OrderSent(s: Sys, place: string, a: string)
    requires s.ctl.row.Some? && s.ctl.row.value.phase == RunningPhase && s.ctl.row.value.server == a
    requires a in s.hosts && s.hosts[a].inbox == []
    ensures var t := Rediscovered(s, place);
            && t.hosts.Keys == s.hosts.Keys && t.hosts[a].inbox == [EDeploy] && t.eu == s.eu && Without(t, a) == s
            && forall x | x in s.hosts :: t.hosts[x].edge == s.hosts[x].edge && t.hosts[x].dgrams == s.hosts[x].dgrams
  {
    var h := s.hosts[a];
    PublishShort(s, [Deploy(a)]);
    var t := s.(hosts := s.hosts[a := h.(inbox := [EDeploy])]);
    assert h.inbox + [EDeploy] == [EDeploy] && Rediscovered(s, place) == t;
    assert [EDeploy][1..] == h.inbox && Without(t, a).hosts == s.hosts;
  }

  /** What the controller publishes joins the inbox behind the order. */
  lemma {:induction false} PublishBehind(s: Sys, a: string, out: seq<Effect>)
    requires a in s.hosts && s.hosts[a].inbox != []
    ensures var t := PublishAll(s, out);
            && a in t.hosts && t.hosts[a].inbox != [] && t.hosts[a].inbox[0] == s.hosts[a].inbox[0]
            && Without(t, a) == PublishAll(Without(s, a), out)
            && t.eu == s.eu && t.hosts.Keys == s.hosts.Keys
            && forall x | x in s.hosts :: t.hosts[x].edge == s.hosts[x].edge && t.hosts[x].dgrams == s.hosts[x].dgrams
    decreases |out|
  {
    if out == [] {
    } else {
      OneBehind(s, a, out[0]);
      PublishBehind(Publish(s, out[0]), a, out[1..]);
    }
  }

  lemma OneBehind(s: Sys, a: string, e: Effect)
    requires a in s.hosts && s.hosts[a].inbox != []
    ensures var t := Publish(s, e);
            && a in t.hosts && t.hosts[a].inbox != [] && t.hosts[a].inbox[0] == s.hosts[a].inbox[0]
            && Without(t, a) == Publish(Without(s, a), e)
            && t.eu == s.eu && t.hosts.Keys == s.hosts.Keys
            && forall x | x in s.hosts :: t.hosts[x].edge == s.hosts[x].edge && t.hosts[x].dgrams == s.hosts[x].dgrams
  {
    if e.Deploy? {
      HostBehind(s, a, e.to, EDeploy);
    } else if e.PreMigrate? {
      HostBehind(s, a, e.to, EPreMigrate(e.job));
    } else if e.Migrate? {
      HostBehind(s, a, e.to, EMigrate(e.job));
    }
  }

  lemma HostBehind(s: Sys, a: string, x: string, m: EdgeMsg)
    requires a in s.hosts && s.hosts[a].inbox != []
    ensures var t := ToHost(s, x, m);
            && a in t.hosts && t.hosts[a].inbox != [] && t.hosts[a].inbox[0] == s.hosts[a].inbox[0]
            && Without(t, a) == ToHost(Without(s, a), x, m)
  {
    if x == a {
      assert (s.hosts[a].inbox + [m])[1..] == s.hosts[a].inbox[1..] + [m];
    }
    assert Without(ToHost(s, x, m), a).hosts == ToHost(Without(s, a), x, m).hosts;
  }

  /** With the container at `a`, nobody else has a message or a command to move it. */
  lemma OthersIdle(s: Sys, a: string, x: string)
    requires Ordered(s, a) && x in s.hosts
    ensures QueueItems(s.hosts[x].edge.queue) == [] && (x != a ==> s.hosts[x].inbox == [])
  {
    var g :| InvAt(Without(s, a), g);
    assert Without(s, a).hosts[a].edge.container.Up? && g.a == a;
    if x != a {
      assert Todo(Without(s, a).hosts[x]) == [];
      assert InboxItems(s.hosts[x].inbox) == [];
    }
  }

  /** A step at one host that leaves the order alone. */
  lemma SourceBehind(s: Sys, a: string, x: string)
    requires Ordered(s, a) && Enabled(s, SourceRun(x))
    ensures Ordered(Apply(s, SourceRun(x)), a)
  {
    OthersIdle(s, a, x);
    var h := s.hosts[x];
    assert CmdItem(h.edge.queue[0]) == [] && QueueItems(h.edge.queue[1..]) == [] by {
      assert QueueItems(h.edge.queue) == CmdItem(h.edge.queue[0]) + QueueItems(h.edge.queue[1..]);
    }
    MeasuredBehind(s, a, x);
    StepKeeps(Without(s, a), SourceRun(x));
  }

  lemma MeasuredBehind(s: Sys, a: string, x: string)
    requires a in s.hosts && s.hosts[a].inbox != [] && Enabled(s, SourceRun(x))
    requires CmdItem(s.hosts[x].edge.queue[0]) == []
    ensures var t, e := SourceRan(s, x), E.SourceStep(s.hosts[x].edge, true).e;
            && t.hosts.Keys == s.hosts.Keys && t.eu == s.eu && t.hosts[a].inbox == s.hosts[a].inbox
            && e.container == s.hosts[x].edge.container && e.queue == s.hosts[x].edge.queue[1..]
            && t.hosts[x].edge == e && (forall y | y in s.hosts && y != x :: t.hosts[y] == s.hosts[y])
            && t.hosts[x].dgrams == s.hosts[x].dgrams
            && Without(t, a) == SourceRan(Without(s, a), x)
  {
    assert Without(SourceRan(s, x), a).hosts == SourceRan(Without(s, a), x).hosts;
  }

  lemma MonitoredBehind(s: Sys, a: string, x: string, cmd: E.Cmd)
    requires Ordered(s, a) && Enabled(s, Monitored(x, cmd))
    ensures Ordered(Apply(s, Monitored(x, cmd)), a)
  {
    MonitoredCalm(s, a, x, cmd);
    StepKeeps(Without(s, a), Monitored(x, cmd));
  }

  lemma MonitoredCalm(s: Sys, a: string, x: string, cmd: E.Cmd)
    requires a in s.hosts && s.hosts[a].inbox != [] && Calm(s, a) && Enabled(s, Monitored(x, cmd))
    ensures var t := Apply(s, Monitored(x, cmd));
            && t.hosts.Keys == s.hosts.Keys && t.hosts[a].inbox == s.hosts[a].inbox && Calm(t, a)
            && Without(t, a) == Apply(Without(s, a), Monitored(x, cmd))
  {
    QueueAppend(s.hosts[x].edge.queue, cmd);
    HostOnly(s, a, x, Apply(s, Monitored(x, cmd)).hosts[x]);
  }

  /** A change of one host that leaves its inbox alone. */
  lemma HostOnly(s: Sys, a: string, x: string, h: Host)
    requires a in s.hosts && s.hosts[a].inbox != [] && x in s.hosts && h.inbox == s.hosts[x].inbox
    ensures var w := Without(s, a);
            Without(s.(hosts := s.hosts[x := h]), a) == w.(hosts := w.hosts[x := h.(inbox := w.hosts[x].inbox)])
  {
    var w := Without(s, a);
    assert Without(s.(hosts := s.hosts[x := h]), a).hosts == w.hosts[x := h.(inbox := w.hosts[x].inbox)];
  }

  lemma DiesBehind(s: Sys, a: string, x: string, source: bool)
    requires Ordered(s, a) && x in s.hosts
    ensures Ordered(Apply(s, Dies(x, source)), a)
  {
    DiesCalm(s, a, x, source);
    StepKeeps(Without(s, a), Dies(x, source));
  }

  lemma DiesCalm(s: Sys, a: string, x: string, source: bool)
    requires a in s.hosts && s.hosts[a].inbox != [] && Calm(s, a) && x in s.hosts
    ensures var t := Apply(s, Dies(x, source));
            && t.hosts.Keys == s.hosts.Keys && t.hosts[a].inbox == s.hosts[a].inbox && Calm(t, a)
            && Without(t, a) == Apply(Without(s, a), Dies(x, source))
  {
    HostOnly(s, a, x, Apply(s, Dies(x, source)).hosts[x]);
  }

  lemma ControllerBehind(s: Sys, a: string, step: Step)
    requires Ordered(s, a) && Enabled(s, step) && (step.RunPlan? || step.CtlReceive?)
    ensures Ordered(Apply(s, step), a)
  {
    if step.RunPlan? {
      var o := ThresholdPlan(s.ctl, step.plan, step.json);
      PublishBehind(s.(ctl := o.c, jsonLost := s.jsonLost || (!step.json && o.c.row != s.ctl.row)), a, o.out);
    } else {
      var o := CtlHandle(s.ctl, s.ctlInbox[0]);
      PublishBehind(s.(ctl := o.c, ctlInbox := s.ctlInbox[1..]), a, o.out);
    }
    StepKeeps(Without(s, a), step);
  }

  lemma StepBehind(s: Sys, a: string, step: Step)
    requires Ordered(s, a) && Enabled(s, step) && !(step.HostReceive? && step.x == a)
    ensures Ordered(Apply(s, step), a)
  {
    match step {
      case Discover(_) =>
      case RunPlan(_, _) => ControllerBehind(s, a, step);
      case CtlReceive => ControllerBehind(s, a, step);
      case HostReceive(x, _) => OthersIdle(s, a, x);
      case SourceRun(x) => SourceBehind(s, a, x);
      case DestRun(_, _) =>
      case Monitored(x, cmd) => MonitoredBehind(s, a, x, cmd);
      case Dies(x, source) => DiesBehind(s, a, x, source);
      case EuReceive(_) => StepKeeps(Without(s, a), step);
      case Reconnect => StepKeeps(Without(s, a), step);
    }
  }

  lemma {:induction false} StepsBehind(s: Sys, a: string, steps: seq<Step>)
    requires Ordered(s, a) && Waits(steps, a) && StepsFrom(s, steps).Some?
    ensures Ordered(StepsFrom(s, steps).value, a)
    decreases |steps|
  {
    if steps == [] {
    } else {
      StepBehind(s, a, steps[0]);
      assert forall i | 0 <= i < |steps[1..]| :: steps[1..][i] == steps[i + 1];
      StepsBehind(Apply(s, steps[0]), a, steps[1..]);
    }
  }

  /** The server answers the order with the service it already runs. */
  lemma OrderedIsHarmless(s: Sys, a: string, port: nat)
    requires Ordered(s, a)
    ensures |Copies(HostRead(s, a, port).hosts)| == 1
  {
    var g :| InvAt(Without(s, a), g);
    assert Without(s, a).hosts[a].edge.container.Up? && g.a == a;
    CopiesAt(Without(s, a).hosts, g);
    var h := s.hosts[a];
    var r := E.Deploy(h.edge, a, port);
    PostShort(s.(hosts := s.hosts[a := h.(edge := r.e, inbox := h.inbox[1..])]), r.out);
    assert HostRead(s, a, port).hosts == Without(s, a).hosts;
  }

  /** The first order, sent while the row is `running`, does no harm when it is read. Its
    * answer may, later: see the module RepeatRuns. */
  lemma SafeWhileRunning(run: seq<Sys>, place: string, steps: seq<Step>, port: nat)
    requires IsRun(run) && PhaseAfter(run) == Some(RunningPhase)
    ensures !Breaks(run, place, steps, port)
  {
    var s := run[|run| - 1];
    var a := s.ctl.row.value.server;
    RunKeeps(run, |run| - 1);
    OrderIsFirst(s, place);
    if Waits(steps, a) && StepsFrom(Rediscovered(s, place), steps).Some? {
      StepsBehind(Rediscovered(s, place), a, steps);
      OrderedIsHarmless(StepsFrom(Rediscovered(s, place), steps).value, a, port);
    }
  }

  // ------------------------------------------------------ while it is migrating

  const JOB := Job("b", "bts")
  const SERVICE := Service("a", 1)
  const USER := Eu(true, Some(SERVICE), "bts", true)

  function Hosts(a: Host, b: Host): map<string, Host> {
    map["a" := a, "b" := b]
  }

  lemma SetHosts(a: Host, b: Host, h: Host)
    ensures Hosts(a, b)["a" := h] == Hosts(h, b) && Hosts(a, b)["b" := h] == Hosts(a, h)
    ensures Hosts(a, b)["a"] == a && Hosts(a, b)["b"] == b && "a" in Hosts(a, b) && "b" in Hosts(a, b)
  {
  }

  lemma Short<T>(x: T, y: T)
    ensures [x][1..] == [] && [x, y][1..] == [y] && [] + [x] == [x] && [x] + [y] == [x, y]
  {
  }

  /** A system of the servers "a" and "b", in which "b" only receives datagrams. */
  function Pair(ctl: Ctl, ctlInbox: seq<CtlMsg>, a: E.Edge, inbox: seq<EdgeMsg>, dgrams: seq<Datagram>,
                eu: Eu, euInbox: seq<EuMsg>): Sys
  {
    Sys(ctl, ctlInbox, Hosts(Host(a, inbox, [], true, true), Host(E.IDLE, [], dgrams, true, true)), eu, euInbox, false)
  }

  function Known(bits: Bits, port: Option<nat>, phase: Phase): Ctl {
    Ctl(Some(bits), Some(Row("a", port, phase)), Some("bts"), None, None)
  }

  function Serving(queue: seq<E.Cmd>, pre2: bool, record: bool): E.Edge {
    E.Edge([SERVICE], E.Up(1), queue, pre2, record, None)
  }

  const ALLOCATED := Known({RunningBit}, Some(1), RunningPhase)
  const PREPARED := Known({RunningBit, PreMigrateBit, MigrateBit}, Some(1), PreMigratedPhase)
  const PLANNED := Known({RunningBit, PreMigrateBit, MigrateBit}, Some(1), PreMigratePhase)
  const GONE := E.Edge([], E.Exited(1), [], false, true, None)

  /** From the first discovery to the departure of the container, and one message on. */
  function State(i: nat): Sys {
    match i
    case 0 => Pair(UNKNOWN, [], E.IDLE, [], [], Eu(false, None, "bts", true), [])
    case 1 => Pair(Known({}, None, InitPhase), [], E.IDLE, [EDeploy], [], Eu(true, None, "bts", true), [])
    case 2 => Pair(Known({}, None, InitPhase), [CAllocated(SERVICE)], Serving([], false, false), [], [],
                   Eu(true, None, "bts", true), [UAllocated(SERVICE)])
    case 3 => Pair(Known({}, None, InitPhase), [CAllocated(SERVICE)], Serving([], false, false), [], [], USER, [])
    case 4 => Pair(ALLOCATED, [], Serving([], false, false), [], [], USER, [])
    case 5 => Pair(ALLOCATED, [], Serving([E.Measure], false, false), [], [], USER, [])
    case 6 => Pair(ALLOCATED, [], Serving([], true, false), [], [], USER, [])
    case 7 => Pair(PLANNED, [], Serving([], true, false), [EPreMigrate(JOB), EMigrate(JOB)], [], USER, [])
    case 8 => Pair(PLANNED, [], Serving([E.Prepare(JOB)], true, false), [EMigrate(JOB)], [], USER, [])
    case 9 => Pair(PLANNED, [], Serving([E.Prepare(JOB), E.MigrateCmd(JOB)], true, false), [], [], USER, [])
    case 10 => Pair(PLANNED, [CPreMigrated(JOB)], Serving([E.MigrateCmd(JOB)], true, true), [], [DPrepare(JOB)], USER,
        [])
    case 11 => Pair(PLANNED, [CPreMigrated(JOB)], GONE, [], [DPrepare(JOB), DMigrate(JOB)], USER, [])
    case _ => Pair(PREPARED, [], GONE, [], [DPrepare(JOB), DMigrate(JOB)], USER, [])
  }

  function StepAt(i: nat): Step {
    match i
    case 0 => Discover("a")
    case 1 => HostReceive("a", 1)
    case 2 => EuReceive(true)
    case 3 => CtlReceive
    case 4 => Monitored("a", E.Measure)
    case 5 => SourceRun("a")
    case 6 => RunPlan(Plan("bts", "b"), true)
    case 7 => HostReceive("a", 0)
    case 8 => HostReceive("a", 0)
    case 9 => SourceRun("a")
    case 10 => SourceRun("a")
    case _ => CtlReceive
  }

  predicate Leads(i: nat) {
    Enabled(State(i), StepAt(i)) && Apply(State(i), StepAt(i)) == State(i + 1)
  }

  lemma Step0()
    ensures Leads(0)
  {
    var s := State(0);
    var o := Discovery(UNKNOWN, "bts", true, "a");
    PublishShort(s.(ctl := o.c, eu := s.eu.(discovered := true)), o.out);
    Short(EDeploy, EDeploy);
    SetHosts(s.hosts["a"], s.hosts["b"], s.hosts["a"].(inbox := [EDeploy]));
  }

  lemma Step1()
    ensures Leads(1)
  {
    var s := State(1);
    var h := s.hosts["a"];
    Short(EDeploy, EDeploy);
    Short(SERVICE, SERVICE);
    Short(CAllocated(SERVICE), CAllocated(SERVICE));
    Short(UAllocated(SERVICE), UAllocated(SERVICE));
    var r := E.Deploy(h.edge, "a", 1);
    assert r == E.Result(Serving([], false, false), [E.PubAllocated(SERVICE)], true) by {
      DeployIdle();
    }
    SetHosts(h, s.hosts["b"], h.(edge := r.e, inbox := []));
    PostShort(s.(hosts := s.hosts["a" := h.(edge := r.e, inbox := [])]), [E.PubAllocated(SERVICE)]);
  }

  lemma DeployIdle()
    ensures E.Deploy(E.IDLE, "a", 1) == E.Result(Serving([], false, false), [E.PubAllocated(SERVICE)], true)
  {
  }

  lemma Steps2To3()
    ensures Leads(2) && Leads(3)
  {
    Short(UAllocated(SERVICE), UAllocated(SERVICE));
    Short(CAllocated(SERVICE), CAllocated(SERVICE));
  }

  lemma Step4()
    ensures Leads(4)
  {
    var h, b := State(4).hosts["a"], State(4).hosts["b"];
    Short(E.Measure, E.Measure);
    SetHosts(h, b, h.(edge := Serving([E.Measure], false, false)));
  }

  lemma Step5()
    ensures Leads(5)
  {
    var h, b := State(5).hosts["a"], State(5).hosts["b"];
    Short(E.Measure, E.Measure);
    SetHosts(h, b, h.(edge := Serving([], true, false)));
    assert E.SourceStep(Serving([E.Measure], false, false), true) == E.Result(Serving([], true, false), [], true);
  }

  lemma PlanAllocated()
    ensures ThresholdPlan(ALLOCATED, Plan("bts", "b"), true)
            == Outcome(PLANNED, [PreMigrate("a", JOB), Migrate("a", JOB)])
  {
    var bits: Bits := {RunningBit};
    assert PreMigrateBit in bits + {PreMigrateBit} && PreMigrateBit !in RUNNING_STATE;
    assert bits + {PreMigrateBit} + {MigrateBit} == {RunningBit, PreMigrateBit, MigrateBit};
    var m := ThresholdMigration(ALLOCATED, Plan("bts", "b"), true);
    assert m.out == [PreMigrate("a", JOB)] + [Migrate("a", JOB)] == [PreMigrate("a", JOB), Migrate("a", JOB)];
    assert [] + m.out == m.out;
  }

  lemma Step6()
    ensures Leads(6)
  {
    var s := State(6);
    var h := s.hosts["a"];
    var o := ThresholdPlan(s.ctl, Plan("bts", "b"), true);
    assert o == Outcome(PLANNED, [PreMigrate("a", JOB), Migrate("a", JOB)]) by {
      PlanAllocated();
    }
    Short(EPreMigrate(JOB), EMigrate(JOB));
    PublishShort(s.(ctl := o.c), o.out);
    SetHosts(h, s.hosts["b"], h.(inbox := [EPreMigrate(JOB)]));
    SetHosts(h.(inbox := [EPreMigrate(JOB)]), s.hosts["b"], h.(inbox := [EPreMigrate(JOB), EMigrate(JOB)]));
  }

  lemma Step7()
    ensures Leads(7)
  {
    var h := State(7).hosts["a"];
    Short(EPreMigrate(JOB), EMigrate(JOB));
    Short(E.Prepare(JOB), E.Prepare(JOB));
    SetHosts(h, State(7).hosts["b"], h.(edge := Serving([E.Prepare(JOB)], true, false), inbox := [EMigrate(JOB)]));
  }

  lemma Step8()
    ensures Leads(8)
  {
    var h := State(8).hosts["a"];
    Short(EMigrate(JOB), EMigrate(JOB));
    Short(E.Prepare(JOB), E.MigrateCmd(JOB));
    SetHosts(h, State(8).hosts["b"], h.(edge := Serving([E.Prepare(JOB), E.MigrateCmd(JOB)], true, false),
        inbox := []));
  }

  lemma Step9()
    ensures Leads(9)
  {
    var s := State(9);
    var h, b := s.hosts["a"], s.hosts["b"];
    Short(E.Prepare(JOB), E.MigrateCmd(JOB));
    Short(CPreMigrated(JOB), CPreMigrated(JOB));
    Short(DPrepare(JOB), DPrepare(JOB));
    var r := E.SourceStep(h.edge, true);
    assert r == E.Result(Serving([E.MigrateCmd(JOB)], true, true), [E.PubPreMigrated(JOB), E.SendPrepare(JOB)], true);
    SetHosts(h, b, h.(edge := r.e));
    SetHosts(h.(edge := r.e), b, b.(dgrams := [DPrepare(JOB)]));
    PostShort(s.(hosts := s.hosts["a" := h.(edge := r.e, sourceAlive := r.ok)]), r.out);
  }

  lemma Step10()
    ensures Leads(10)
  {
    var s := State(10);
    var h, b := s.hosts["a"], s.hosts["b"];
    Short(E.MigrateCmd(JOB), E.MigrateCmd(JOB));
    Short(DPrepare(JOB), DMigrate(JOB));
    Short(SERVICE, SERVICE);
    var r := E.SourceStep(h.edge, true);
    assert r == E.Result(GONE, [E.SendMigrate(JOB)], true);
    SetHosts(h, b, h.(edge := r.e));
    SetHosts(h.(edge := r.e), b, b.(dgrams := [DPrepare(JOB), DMigrate(JOB)]));
    PostShort(s.(hosts := s.hosts["a" := h.(edge := r.e, sourceAlive := r.ok)]), r.out);
  }

  lemma Step11()
    ensures Leads(11)
  {
    Short(CPreMigrated(JOB), CPreMigrated(JOB));
  }

  function States(n: nat): seq<Sys> {
    seq(n, i requires 0 <= i < n => State(i))
  }

  lemma EachLeads(i: nat)
    requires i < 12
    ensures Leads(i)
  {
    if i == 0 {
      Step0();
    } else if i == 1 {
      Step1();
    } else if i < 4 {
      Steps2To3();
    } else if i == 4 {
      Step4();
    } else if i == 5 {
      Step5();
    } else if i == 6 {
      Step6();
    } else if i == 7 {
      Step7();
    } else if i == 8 {
      Step8();
    } else if i == 9 {
      Step9();
    } else if i == 10 {
      Step10();
    } else {
      Step11();
    }
  }

  lemma StatesAreRun(n: nat)
    requires 0 < n <= 13
    ensures IsRun(States(n))
  {
    var run := States(n);
    assert Initial(run[0]) by {
      assert run[0] == State(0);
    }
    forall i | 0 <= i < |run| - 1
      ensures Next(run[i], run[i + 1])
    {
      EachLeads(i);
      assert run[i] == State(i) && run[i + 1] == State(i + 1);
    }
  }

  /** The container has left "a", and the controller orders "a" to deploy. */
  lemma BreaksWhileMigrating(n: nat)
    requires n == 12 || n == 13
    ensures Breaks(States(n), "a", [], 2)
    ensures PhaseAfter(States(n)) == Some(if n == 12 then PreMigratePhase else PreMigratedPhase)
  {
    StatesAreRun(n);
    var run := States(n);
    assert run[n - 1] == State(n - 1);
    LastState(n);
    Redeploy(run, n - 1, "a", 2);
    OrderBreaks(run[n - 1]);
    assert StepsFrom(Rediscovered(run[n - 1], "a"), []) == Some(Rediscovered(run[n - 1], "a"));
  }

  lemma LastState(n: nat)
    requires n == 12 || n == 13
    ensures var s := State(n - 1);
            && s.ctl.row == Some(Row("a", Some(1), if n == 12 then PreMigratePhase else PreMigratedPhase))
            && "a" in s.hosts && s.hosts["a"] == Host(GONE, [], [], true, true) && SingleCopy.Allocated(s)
  {
  }

  /** The order reaches the server that has given the container away. */
  lemma OrderBreaks(s: Sys)
    requires s.ctl.row.Some? && s.ctl.row.value.server == "a" && s.ctl.row.value.phase != InitPhase
    requires "a" in s.hosts && s.hosts["a"] == Host(GONE, [], [], true, true)
    requires var h := s.hosts["a"]; |Copies(s.hosts["a" := h.(edge := E.Deploy(h.edge, "a", 2).e)])| != 1
    ensures Handles(Rediscovered(s, "a"), "a", 2)
  {
    var h := s.hosts["a"];
    PublishShort(s, [Deploy("a")]);
    Short(EDeploy, EDeploy);
    var t := s.(hosts := s.hosts["a" := h.(inbox := [EDeploy])]);
    assert Rediscovered(s, "a") == t;
    var r := E.Deploy(h.edge, "a", 2);
    var h' := h.(edge := r.e);
    PostShort(t.(hosts := t.hosts["a" := h']), r.out);
    assert t.hosts["a" := h'] == s.hosts["a" := h'];
  }

  // --------------------------------------------------------------- the guard

  /** No handler ever writes the phase `migrate`. */
  predicate NeverMigrate(s: Sys) {
    s.ctl.row.Some? ==> s.ctl.row.value.phase != MigratePhase
  }

  lemma {:induction false} PublishKeepsCtl(s: Sys, out: seq<Effect>)
    ensures PublishAll(s, out).ctl == s.ctl
    decreases |out|
  {
    if out == [] {
    } else {
      PublishKeepsCtl(Publish(s, out[0]), out[1..]);
    }
  }

  lemma {:induction false} PostKeepsCtl(s: Sys, out: seq<E.Message>)
    ensures PostAll(s, out).ctl == s.ctl
    decreases |out|
  {
    if out == [] {
    } else {
      PostKeepsCtl(Post(s, out[0]), out[1..]);
    }
  }

  lemma PhaseKept(s: Sys, step: Step)
    requires NeverMigrate(s) && Enabled(s, step)
    ensures NeverMigrate(Apply(s, step))
  {
    match step {
      case Discover(place) =>
        var o := Discovery(s.ctl, s.eu.ssid, true, place);
        PublishKeepsCtl(s.(ctl := o.c, eu := s.eu.(discovered := true)), o.out);
      case RunPlan(plan, json) =>
        var o := ThresholdPlan(s.ctl, plan, json);
        PublishKeepsCtl(s.(ctl := o.c, jsonLost := s.jsonLost || (!json && o.c.row != s.ctl.row)), o.out);
      case CtlReceive =>
        var o := CtlHandle(s.ctl, s.ctlInbox[0]);
        PublishKeepsCtl(s.(ctl := o.c, ctlInbox := s.ctlInbox[1..]), o.out);
      case HostReceive(x, port) =>
        var h := s.hosts[x];
        var r := HostHandle(h.edge, x, h.inbox[0], port);
        PostKeepsCtl(s.(hosts := s.hosts[x := h.(edge := r.e, inbox := h.inbox[1..])]), r.out);
      case SourceRun(x) =>
        var h := s.hosts[x];
        var r := E.SourceStep(h.edge, true);
        PostKeepsCtl(s.(hosts := s.hosts[x := h.(edge := r.e, sourceAlive := r.ok)]), r.out);
      case DestRun(x, free) =>
        var h := s.hosts[x];
        var r := DestHandle(h.edge, h.dgrams[0], free);
        PostKeepsCtl(s.(hosts := s.hosts[x := h.(edge := r.e, dgrams := h.dgrams[1..], destAlive := r.ok)]), r.out);
      case _ =>
    }
  }

  lemma {:induction false} PhaseNeverMigrate(run: seq<Sys>, i: nat)
    requires IsRun(run) && i < |run|
    ensures NeverMigrate(run[i])
  {
    if i == 0 {
    } else {
      PhaseNeverMigrate(run, i - 1);
      assert Next(run[i - 1], run[i - 1 + 1]);
      var step :| Enabled(run[i - 1], step) && run[i] == Apply(run[i - 1], step);
      PhaseKept(run[i - 1], step);
    }
  }

  ghost predicate CanBreak(phase: Phase) {
    exists run, place, steps, port :: Breaks(run, place, steps, port) && PhaseAfter(run) == Some(phase)
  }

  /** The first order can break the single copy by being read exactly when it is sent in
    * one of the two phases of a migration. */
  lemma FirstOrder(phase: Phase)
    ensures CanBreak(phase) <==> phase == PreMigratePhase || phase == PreMigratedPhase
  {
    BreaksWhileMigrating(12);
    BreaksWhileMigrating(13);
    if CanBreak(phase) {
      BreaksOnlyMigrating(phase);
    }
  }

  lemma BreaksOnlyMigrating(phase: Phase)
    requires CanBreak(phase)
    ensures phase == PreMigratePhase || phase == PreMigratedPhase
  {
    var run, place, steps, port :| Breaks(run, place, steps, port) && PhaseAfter(run) == Some(phase);
    PhaseNeverMigrate(run, |run| - 1);
    if phase == RunningPhase {
      SafeWhileRunning(run, place, steps, port);
    }
  }
}
