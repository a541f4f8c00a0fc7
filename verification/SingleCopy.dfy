/** In every run of the protocol the user's container exists exactly once, and
  * whenever nothing is under way the database, the edge servers and the user
  * agree on where it is. */
module SingleCopy {
  import opened Basics
  import opened Handlers
  import opened Protocol
  import E = EdgeHandlers

  // --------------------------------------- what the queued messages will say

  function LearnOne(r: Row, m: CtlMsg): Row {
    match m
    case CAllocated(svc) => Row(svc.server, Some(svc.port), RunningPhase)
    case CMigrated(svc) => Row(svc.server, Some(svc.port), RunningPhase)
    case CPreMigrated(_) => r.(phase := PreMigratedPhase)
    case CHandovered(_) => r
  }

  /** The database row once the controller has read its inbox. */
  function Learn(r: Row, ms: seq<CtlMsg>): Row
    decreases |ms|
  {
    if ms == [] then r else Learn(LearnOne(r, ms[0]), ms[1..])
  }

  function LearnBts(b: string, ms: seq<CtlMsg>): string
    decreases |ms|
  {
    if ms == [] then b else LearnBts(if ms[0].CHandovered? then ms[0].bts else b, ms[1..])
  }

  /** How many announcements of a running service wait for the controller. */
  function Announced(ms: seq<CtlMsg>): nat {
    if ms == [] then 0 else (if ms[0].CAllocated? || ms[0].CMigrated? then 1 else 0) + Announced(ms[1..])
  }

  /** The service the user talks to once it has read its inbox. */
  function Hear(o: Option<Service>, ms: seq<EuMsg>): Option<Service>
    decreases |ms|
  {
    if ms == [] then o else Hear(if ms[0].UHandover? then o else Some(ms[0].svc), ms[1..])
  }

  lemma {:induction false} CtlAppend(r: Row, b: string, ms: seq<CtlMsg>, m: CtlMsg)
    decreases |ms|
    ensures Learn(r, ms + [m]) == LearnOne(Learn(r, ms), m)
    ensures LearnBts(b, ms + [m]) == if m.CHandovered? then m.bts else LearnBts(b, ms)
    ensures Announced(ms + [m]) == Announced(ms) + if m.CAllocated? || m.CMigrated? then 1 else 0
  {
    if ms == [] {
      assert ms + [m] == [m] && [m][1..] == [];
    } else {
      assert (ms + [m])[1..] == ms[1..] + [m];
      CtlAppend(LearnOne(r, ms[0]), if ms[0].CHandovered? then ms[0].bts else b, ms[1..], m);
    }
  }

  lemma {:induction false} HearAppend(o: Option<Service>, ms: seq<EuMsg>, m: EuMsg)
    decreases |ms|
    ensures Hear(o, ms + [m]) == if m.UHandover? then Hear(o, ms) else Some(m.svc)
  {
    if ms == [] {
      assert ms + [m] == [m] && [m][1..] == [];
    } else {
      assert (ms + [m])[1..] == ms[1..] + [m];
      HearAppend(if ms[0].UHandover? then o else Some(ms[0].svc), ms[1..], m);
    }
  }

  // ----------------------------------------------------------- the pipeline

  /** A migration is a `prepare` followed by a `migrate`, which travel from the
    * source's inbox through its queue to the destination's socket. */
  datatype Item = D | P(job: Job) | M(job: Job)

  function InboxItems(q: seq<EdgeMsg>): seq<Item> {
    if q == [] then []
    else [MsgItem(q[0])] + InboxItems(q[1..])
  }

  function MsgItem(m: EdgeMsg): Item {
    match m
    case EDeploy => D
    case EPreMigrate(j) => P(j)
    case EMigrate(j) => M(j)
  }

  function QueueItems(q: seq<E.Cmd>): seq<Item> {
    if q == [] then []
    else CmdItem(q[0]) + QueueItems(q[1..])
  }

  function CmdItem(cmd: E.Cmd): seq<Item> {
    match cmd
    case PreMeasure => []
    case Measure => []
    case Prepare(j) => [P(j)]
    case MigrateCmd(j) => [M(j)]
  }

  function DgramItems(q: seq<Datagram>): seq<Item> {
    if q == [] then []
    else [DgramItem(q[0])] + DgramItems(q[1..])
  }

  function DgramItem(d: Datagram): Item {
    match d
    case DPrepare(j) => P(j)
    case DMigrate(j) => M(j)
  }

  lemma {:induction false} InboxAppend(q: seq<EdgeMsg>, m: EdgeMsg)
    ensures InboxItems(q + [m]) == InboxItems(q) + [MsgItem(m)]
  {
    if q == [] {
      assert q + [m] == [m];
    } else {
      assert (q + [m])[1..] == q[1..] + [m];
      InboxAppend(q[1..], m);
    }
  }

  lemma {:induction false} QueueAppend(q: seq<E.Cmd>, m: E.Cmd)
    ensures QueueItems(q + [m]) == QueueItems(q) + CmdItem(m)
  {
    if q == [] {
      assert q + [m] == [m];
    } else {
      assert (q + [m])[1..] == q[1..] + [m];
      QueueAppend(q[1..], m);
    }
  }

  lemma {:induction false} DgramAppend(q: seq<Datagram>, m: Datagram)
    ensures DgramItems(q + [m]) == DgramItems(q) + [DgramItem(m)]
  {
    if q == [] {
      assert q + [m] == [m];
    } else {
      assert (q + [m])[1..] == q[1..] + [m];
      DgramAppend(q[1..], m);
    }
  }

  /** What the source still has to do. */
  function Todo(h: Host): seq<Item> {
    QueueItems(h.edge.queue) + InboxItems(h.inbox)
  }

  // ---------------------------------------------------------- the invariant

  datatype Stage =
    | Deploying(a: string)                                        // the first deployment is on its way to `a`
    | Held(a: string, port: nat)                                  // the container runs at `a`
    | Moving(a: string, port: nat, job: Job, left: bool)          // it is being moved; `left`: it has left `a`

  predicate Quiet(h: Host) {
    Todo(h) == [] && h.dgrams == [] && !h.edge.container.Up? && h.edge.listed == []
  }

  predicate Holding(h: Host, a: string, port: nat) {
    h.edge.container == E.Up(port) && h.edge.listed == [Service(a, port)]
  }

  /** The destination has created the container at the port it reserved. */
  predicate Ready(h: Host) {
    h.edge.container.Created? && h.edge.socket == Some(E.Open(h.edge.container.port))
  }

  /** What holds in every stage. */
  predicate Ground(s: Sys) {
    && s.eu.discovered
    && s.ctl.bits.Some? && s.ctl.bts.Some? && s.ctl.row.Some? && s.ctl.migrating.None?
    && (s.ctl.row.value.phase == RunningPhase ==> MigrateBit !in s.ctl.bits.value)
    && (s.ctl.row.value.phase == RunningPhase ==> Announced(s.ctlInbox) == 0)
    && Announced(s.ctlInbox) <= 1
    && (s.jsonLost ==> s.ctl.row.value.phase != RunningPhase && Announced(s.ctlInbox) == 0)
    && (s.eu.connected ==> LearnBts(s.ctl.bts.value, s.ctlInbox) == s.eu.ssid)
  }

  /** The database and the user know, or are about to, that the service runs at
    * `a` behind `port`. */
  predicate Known(s: Sys, a: string, port: nat)
    requires s.ctl.row.Some?
  {
    && Learn(s.ctl.row.value, s.ctlInbox).server == a
    && Learn(s.ctl.row.value, s.ctlInbox).port == Some(port)
    && Hear(s.eu.service, s.euInbox) == Some(Service(a, port))
  }

  /** Where the two messages of a migration are, and what the destination has
    * done with the first one. */
  predicate Pipeline(src: Host, dst: Host, job: Job, left: bool) {
    var sent := DgramItems(dst.dgrams);
    && (sent + Todo(src) == [P(job), M(job)] ||
        (sent + Todo(src) == [M(job)] && (Ready(dst) || !dst.destAlive || (!left && !src.sourceAlive))))
    && (left <==> Todo(src) == [])
    && (Todo(src) == [M(job)] && src.sourceAlive ==> src.edge.record)
  }

  /** All hosts but these have nothing to do with the user's service. */
  predicate OthersQuiet(hosts: map<string, Host>, busy: set<string>) {
    forall x | x in hosts && x !in busy :: Quiet(hosts[x])
  }

  predicate MovingHosts(src: Host, dst: Host, a: string, port: nat, job: Job, left: bool) {
    && src.dgrams == []
    && (if left then !src.edge.container.Up? && src.edge.listed == [] else Holding(src, a, port))
    && Todo(dst) == [] && !dst.edge.container.Up? && dst.edge.listed == []
    && Pipeline(src, dst, job, left)
  }

  predicate HostsAt(hosts: map<string, Host>, g: Stage) {
    match g
    case Deploying(a) =>
      && a in hosts && Todo(hosts[a]) == [D] && hosts[a].dgrams == []
      && !hosts[a].edge.container.Up? && hosts[a].edge.listed == []
      && OthersQuiet(hosts, {a})
    case Held(a, port) =>
      && a in hosts && Holding(hosts[a], a, port) && Todo(hosts[a]) == [] && hosts[a].dgrams == []
      && OthersQuiet(hosts, {a})
    case Moving(a, port, job, left) =>
      && a in hosts && job.server in hosts && a != job.server
      && MovingHosts(hosts[a], hosts[job.server], a, port, job, left)
      && OthersQuiet(hosts, {a, job.server})
  }

  predicate MindsAt(s: Sys, g: Stage)
    requires s.ctl.row.Some?
  {
    match g
    case Deploying(a) =>
      && s.ctl.row.value.phase != RunningPhase && Announced(s.ctlInbox) == 0 && !s.jsonLost
      && Hear(s.eu.service, s.euInbox) == None
    case Held(a, port) =>
      Known(s, a, port) && (!s.jsonLost ==> Learn(s.ctl.row.value, s.ctlInbox).phase == RunningPhase)
    case Moving(a, port, job, left) =>
      && s.ctl.row.value.phase != RunningPhase && Announced(s.ctlInbox) == 0 && !s.jsonLost
      && Known(s, a, port)
  }

  predicate InvAt(s: Sys, g: Stage) {
    Ground(s) && HostsAt(s.hosts, g) && MindsAt(s, g)
  }

  /** Before the user has asked for a service. */
  predicate Fresh(s: Sys) {
    && s.ctl == UNKNOWN && s.ctlInbox == [] && s.euInbox == [] && !s.jsonLost
    && !s.eu.discovered && s.eu.service.None? && s.eu.connected
    && forall x | x in s.hosts :: Quiet(s.hosts[x])
  }

  ghost predicate Inv(s: Sys) {
    if s.eu.discovered then exists g :: InvAt(s, g) else Fresh(s)
  }

  // -------------------------------------------------- one lemma per step

  lemma PublishShort(s: Sys, out: seq<Effect>)
    ensures out == [] ==> PublishAll(s, out) == s
    ensures |out| == 1 ==> PublishAll(s, out) == Publish(s, out[0])
    ensures |out| == 2 ==> PublishAll(s, out) == Publish(Publish(s, out[0]), out[1])
    ensures |out| == 3 ==> PublishAll(s, out) == Publish(Publish(Publish(s, out[0]), out[1]), out[2])
  {
    if |out| >= 1 {
      var t := out[1..];
      assert PublishAll(s, out) == PublishAll(Publish(s, out[0]), t);
      if |t| >= 1 {
        assert PublishAll(Publish(s, out[0]), t) == PublishAll(Publish(Publish(s, out[0]), t[0]), t[1..]);
      }
    }
  }

  lemma PostShort(s: Sys, out: seq<E.Message>)
    ensures out == [] ==> PostAll(s, out) == s
    ensures |out| == 1 ==> PostAll(s, out) == Post(s, out[0])
    ensures |out| == 2 ==> PostAll(s, out) == Post(Post(s, out[0]), out[1])
  {
    if |out| >= 1 {
      assert PostAll(s, out) == PostAll(Post(s, out[0]), out[1..]);
    }
  }

  /** A change of one host the protocol does not notice. */
  predicate Alike(h: Host, h': Host) {
    && Todo(h') == Todo(h) && h'.dgrams == h.dgrams
    && h'.edge.container == h.edge.container && h'.edge.listed == h.edge.listed
    && h'.edge.socket == h.edge.socket && h'.edge.record == h.edge.record
    && (h'.sourceAlive ==> h.sourceAlive) && (h'.destAlive ==> h.destAlive)
  }

  lemma AlikeKeeps(hosts: map<string, Host>, g: Stage, x: string, h': Host)
    requires HostsAt(hosts, g) && x in hosts && Alike(hosts[x], h')
    ensures HostsAt(hosts[x := h'], g)
  {
    if g.Moving? && x == g.job.server {
      assert Pipeline(hosts[g.a], h', g.job, g.left);
    }
  }

  lemma DiscoverKeeps(s: Sys, place: string)
    requires Fresh(s) && place in s.hosts
    ensures InvAt(Discovered(s, place), Deploying(place))
  {
    var o := Discovery(s.ctl, s.eu.ssid, true, place);
    var h := s.hosts[place];
    PublishShort(s.(ctl := o.c, eu := s.eu.(discovered := true)), o.out);
    InboxAppend(h.inbox, EDeploy);
    assert Todo(h.(inbox := h.inbox + [EDeploy])) == [D];
  }

  lemma CtlReceiveKeeps(s: Sys, g: Stage)
    requires InvAt(s, g) && s.ctlInbox != []
    ensures InvAt(CtlRead(s), g)
  {
    var o := CtlHandle(s.ctl, s.ctlInbox[0]);
    var s' := s.(ctl := o.c, ctlInbox := s.ctlInbox[1..]);
    CtlLearns(s);
    PublishShort(s', o.out);
    CtlGround(s);
    MindsSame(s, s', g);
  }

  /** The controller only learns: it publishes nothing. */
  lemma CtlLearns(s: Sys)
    requires Ground(s) && s.ctlInbox != []
    ensures var o := CtlHandle(s.ctl, s.ctlInbox[0]);
            o.out == [] && o.c.row == Some(LearnOne(s.ctl.row.value, s.ctlInbox[0]))
  {
  }

  lemma CtlGround(s: Sys)
    requires Ground(s) && s.ctlInbox != []
    ensures Ground(s.(ctl := CtlHandle(s.ctl, s.ctlInbox[0]).c, ctlInbox := s.ctlInbox[1..]))
  {
  }

  lemma MindsSame(s: Sys, s': Sys, g: Stage)
    requires Ground(s) && MindsAt(s, g) && s.ctlInbox != []
    requires s'.ctl.row == Some(LearnOne(s.ctl.row.value, s.ctlInbox[0])) && s'.ctlInbox == s.ctlInbox[1..]
    requires s'.eu == s.eu && s'.euInbox == s.euInbox && s'.jsonLost == s.jsonLost
    ensures MindsAt(s', g)
  {
    assert Learn(s.ctl.row.value, s.ctlInbox) == Learn(s'.ctl.row.value, s'.ctlInbox);
  }

  /** Without an announcement in the inbox the row already says where. */
  lemma {:induction false} LearnQuiet(r: Row, ms: seq<CtlMsg>)
    requires Announced(ms) == 0
    decreases |ms|
    ensures Learn(r, ms).server == r.server && Learn(r, ms).port == r.port
    ensures Learn(r.(phase := Learn(r, ms).phase), ms).server == r.server
  {
    if ms == [] {
    } else {
      LearnQuiet(LearnOne(r, ms[0]), ms[1..]);
    }
  }

  /** Where the database believes the service runs does not depend on the phase. */
  lemma {:induction false} LearnWhere(r: Row, p: Phase, ms: seq<CtlMsg>)
    decreases |ms|
    ensures Learn(r.(phase := p), ms).server == Learn(r, ms).server
    ensures Learn(r.(phase := p), ms).port == Learn(r, ms).port
  {
    if ms == [] {
    } else {
      if ms[0].CHandovered? {
        LearnWhere(r, p, ms[1..]);
      } else if ms[0].CPreMigrated? {
      }
    }
  }

  /** A plan that only hands the user over. */
  lemma HandoverPlanKeeps(s: Sys, g: Stage, plan: Plan)
    requires InvAt(s, g)
    ensures var h := ThresholdHandover(s.ctl, plan);
            InvAt(PublishAll(s.(ctl := h.c), h.out), g) && h.c.row == s.ctl.row
            && PublishAll(s.(ctl := h.c), h.out).hosts == s.hosts
  {
    var h := ThresholdHandover(s.ctl, plan);
    PublishShort(s.(ctl := h.c), h.out);
    HearAppend(s.eu.service, s.euInbox, UHandover(plan.bts));
  }

  /** Two messages sent to the holder enter the pipeline. */
  lemma MigrationHosts(hosts: map<string, Host>, a: string, port: nat, job: Job)
    requires HostsAt(hosts, Held(a, port)) && job.server in hosts && job.server != a
    ensures var h := hosts[a];
            HostsAt(hosts[a := h.(inbox := h.inbox + [EPreMigrate(job)] + [EMigrate(job)])],
                Moving(a, port, job, false))
  {
    var h := hosts[a];
    InboxAppend(h.inbox, EPreMigrate(job));
    InboxAppend(h.inbox + [EPreMigrate(job)], EMigrate(job));
    var h' := h.(inbox := h.inbox + [EPreMigrate(job)] + [EMigrate(job)]);
    assert Todo(h') == [P(job), M(job)];
    assert MovingHosts(h', hosts[job.server], a, port, job, false);
  }

  /** A plan that starts a migration: the two messages enter the pipeline. */
  lemma MigrationPlanKeeps(s: Sys, g: Stage, plan: Plan)
    requires InvAt(s, g) && plan.server in s.hosts
    requires s.ctl.row.value.phase == RunningPhase && plan.server != s.ctl.row.value.server
    ensures g.Held?
    ensures var m := ThresholdMigration(s.ctl, plan, true);
            InvAt(PublishAll(s.(ctl := m.c), m.out), Moving(g.a, g.port, Job(plan.server, plan.bts), false))
  {
    var a, job := g.a, Job(plan.server, plan.bts);
    LearnQuiet(s.ctl.row.value, s.ctlInbox);
    LearnWhere(s.ctl.row.value, PreMigratePhase, s.ctlInbox);
    var m := ThresholdMigration(s.ctl, plan, true);
    OrdersSent(s, a, job, m);
    MigrationHosts(s.hosts, a, g.port, job);
    var s' := PublishAll(s.(ctl := m.c), m.out);
    assert Ground(s');
    assert MindsAt(s', Moving(a, g.port, job, false));
  }

  lemma OrdersSent(s: Sys, a: string, job: Job, m: Outcome)
    requires a in s.hosts && m.out == [PreMigrate(a, job), Migrate(a, job)]
    ensures PublishAll(s.(ctl := m.c), m.out) ==
              var h := s.hosts[a];
              s.(ctl := m.c, hosts := s.hosts[a := h.(inbox := h.inbox + [EPreMigrate(job)] + [EMigrate(job)])])
  {
    PublishShort(s.(ctl := m.c), m.out);
    var h := s.hosts[a];
    assert s.hosts[a := h.(inbox := h.inbox + [EPreMigrate(job)])]
                  [a := h.(inbox := h.inbox + [EPreMigrate(job)] + [EMigrate(job)])]
           == s.hosts[a := h.(inbox := h.inbox + [EPreMigrate(job)] + [EMigrate(job)])];
  }

  /** The head of a queue that is part of the pipeline. */
  lemma HeadItem(src: Host, dst: Host, job: Job, left: bool)
    requires Pipeline(src, dst, job, left)
    ensures src.inbox != [] ==> MsgItem(src.inbox[0]) in [P(job), M(job)]
    ensures src.edge.queue != [] ==> CmdItem(src.edge.queue[0]) in [[], [P(job)], [M(job)]]
    ensures dst.dgrams != [] ==> DgramItem(dst.dgrams[0]) in [P(job), M(job)]
  {
    var all := DgramItems(dst.dgrams) + Todo(src);
    if src.inbox != [] {
      assert InboxItems(src.inbox)[0] in all;
    }
    if src.edge.queue != [] && CmdItem(src.edge.queue[0]) != [] {
      assert QueueItems(src.edge.queue)[0] in all;
    }
    if dst.dgrams != [] {
      assert DgramItems(dst.dgrams)[0] in all;
    }
  }

  /** The only pending item of a host with a message is that message. */
  lemma OneItem(h: Host)
    requires Todo(h) == [D] && h.inbox != []
    ensures QueueItems(h.edge.queue) == [] && h.inbox[0] == EDeploy && InboxItems(h.inbox[1..]) == []
  {
    var q, i := QueueItems(h.edge.queue), InboxItems(h.inbox);
    assert |q| + |i| == 1 && |i| >= 1;
    assert q == [] && i == [D];
    assert i[0] == MsgItem(h.inbox[0]);
  }

  /** Moving the next item from the source to the destination. */
  lemma Shift(sent: seq<Item>, todo: seq<Item>, job: Job, rest: seq<Item>)
    requires todo != [] && rest == todo[1..]
    requires sent + todo == [P(job), M(job)] || sent + todo == [M(job)]
    ensures (sent + [todo[0]]) + rest == sent + todo
    ensures todo[0] == P(job) ==> sent == [] && rest == [M(job)]
    ensures todo[0] == M(job) ==> rest == []
    ensures todo[0] == P(job) || todo[0] == M(job)
  {
    assert todo == [todo[0]] + rest;
    if todo[0] == P(job) {
      assert (sent + todo)[|sent|] == P(job) && sent == [] && sent + todo == todo;
    }
    assert (sent + todo)[|sent|] == todo[0];
  }

  lemma HostReceiveKeeps(s: Sys, g: Stage, x: string, port: nat) returns (g': Stage)
    requires InvAt(s, g) && x in s.hosts && s.hosts[x].inbox != []
    ensures InvAt(HostRead(s, x, port), g')
  {
    var h := s.hosts[x];
    assert InboxItems(h.inbox) != [] && Todo(h) != [] && x == g.a;
    if g.Deploying? {
      DeployKeeps(s, x, port);
      g' := Held(x, port);
    } else {
      OrderKeeps(s, g, port);
      g' := g;
    }
  }

  /** The first deployment arrives: the container starts. */
  lemma DeployKeeps(s: Sys, x: string, port: nat)
    requires InvAt(s, Deploying(x)) && s.hosts[x].inbox != []
    ensures InvAt(HostRead(s, x, port), Held(x, port))
  {
    var h := s.hosts[x];
    OneItem(h);
    var r := E.Deploy(h.edge, x, port);
    PostShort(s.(hosts := s.hosts[x := h.(edge := r.e, inbox := h.inbox[1..])]), r.out);
    CtlAppend(s.ctl.row.value, s.ctl.bts.value, s.ctlInbox, CAllocated(Service(x, port)));
    HearAppend(s.eu.service, s.euInbox, UAllocated(Service(x, port)));
  }

  /** An order that moves from the inbox to the queue stays where it is in the pipeline. */
  lemma QueueGrows(h: Host, h': Host, cmd: E.Cmd)
    requires h.inbox != [] && CmdItem(cmd) == [MsgItem(h.inbox[0])]
    requires h' == h.(edge := h.edge.(queue := h.edge.queue + [cmd]), inbox := h.inbox[1..])
    ensures Alike(h, h')
  {
    QueueAppend(h.edge.queue, cmd);
    assert Todo(h') == QueueItems(h.edge.queue) + CmdItem(cmd) + InboxItems(h.inbox[1..]);
  }

  /** A migration order arrives at the source and joins its queue. */
  lemma OrderKeeps(s: Sys, g: Stage, port: nat)
    requires InvAt(s, g) && g.Moving? && s.hosts[g.a].inbox != []
    ensures InvAt(HostRead(s, g.a, port), g)
  {
    var h := s.hosts[g.a];
    assert InboxItems(h.inbox) != [] && Todo(h) != [];
    HeadItem(h, s.hosts[g.job.server], g.job, g.left);
    var cmd := if h.inbox[0].EPreMigrate? then E.Prepare(g.job) else E.MigrateCmd(g.job);
    var h' := h.(edge := h.edge.(queue := h.edge.queue + [cmd]), inbox := h.inbox[1..]);
    OrderHost(h, g.a, g.job, port, h');
    QueueGrows(h, h', cmd);
    AlikeKeeps(s.hosts, g, g.a, h');
    HostsOnly(s, g, s.hosts[g.a := h']);
  }

  lemma OrderHost(h: Host, x: string, job: Job, port: nat, h': Host)
    requires h.inbox != [] && MsgItem(h.inbox[0]) in [P(job), M(job)] && job.server != x && h.edge.listed != []
    requires h' == h.(edge := h.edge.(queue := h.edge.queue +
                        [if h.inbox[0].EPreMigrate? then E.Prepare(job) else E.MigrateCmd(job)]), inbox := h.inbox[1..])
    ensures HostHandle(h.edge, x, h.inbox[0], port) == E.Result(h'.edge, [], true)
  {
  }

  lemma HostsOnly(s: Sys, g: Stage, hosts: map<string, Host>)
    requires InvAt(s, g) && HostsAt(hosts, g)
    ensures InvAt(s.(hosts := hosts), g)
  {
  }

  /** A command that takes no part in the migration: a measurement. */
  lemma MeasureKeeps(s: Sys, g: Stage, x: string)
    requires InvAt(s, g) && x in s.hosts && s.hosts[x].sourceAlive && s.hosts[x].edge.queue != []
    requires CmdItem(s.hosts[x].edge.queue[0]) == []
    ensures InvAt(SourceRan(s, x), g)
  {
    var h := s.hosts[x];
    var r := E.SourceStep(h.edge, true);
    var h' := h.(edge := r.e, sourceAlive := r.ok);
    MeasureHost(h, h');
    AlikeKeeps(s.hosts, g, x, h');
    PostShort(s.(hosts := s.hosts[x := h']), r.out);
    HostsOnly(s, g, s.hosts[x := h']);
  }

  lemma MeasureHost(h: Host, h': Host)
    requires h.edge.queue != [] && CmdItem(h.edge.queue[0]) == [] && h.sourceAlive
    requires h' == h.(edge := E.SourceStep(h.edge, true).e, sourceAlive := E.SourceStep(h.edge, true).ok)
    ensures Alike(h, h') && E.SourceStep(h.edge, true).out == []
  {
    assert [] + QueueItems(h.edge.queue[1..]) == QueueItems(h.edge.queue[1..]);
  }

  /** The source thread runs the `prepare` command. */
  lemma PrepareHosts(hosts: map<string, Host>, g: Stage)
    requires HostsAt(hosts, g) && g.Moving? && hosts[g.a].edge.queue != [] && hosts[g.a].sourceAlive
    requires hosts[g.a].edge.queue[0] == E.Prepare(g.job)
    ensures var h, dst, r := hosts[g.a], hosts[g.job.server], E.SourceStep(hosts[g.a].edge, true);
            var hosts' := hosts[g.a := h.(edge := r.e, sourceAlive := r.ok)];
            HostsAt(if r.ok then hosts'[g.job.server := dst.(dgrams := dst.dgrams + [DPrepare(g.job)])] else hosts', g)
  {
    var h, dst := hosts[g.a], hosts[g.job.server];
    var r := E.SourceStep(h.edge, true);
    PreparePipeline(h, dst, g.job, g.left);
    assert MovingHosts(h.(edge := r.e, sourceAlive := r.ok),
                       if r.ok then dst.(dgrams := dst.dgrams + [DPrepare(g.job)]) else dst, g.a, g.port, g.job, false);
  }

  lemma PreparePipeline(h: Host, dst: Host, job: Job, left: bool)
    requires Pipeline(h, dst, job, left) && h.edge.queue != [] && h.edge.queue[0] == E.Prepare(job) && h.sourceAlive
    ensures !left
    ensures var r := E.SourceStep(h.edge, true);
            Pipeline(h.(edge := r.e, sourceAlive := r.ok),
                     if r.ok then dst.(dgrams := dst.dgrams + [DPrepare(job)]) else dst, job, false)
  {
    var r := E.SourceStep(h.edge, true);
    var h' := h.(edge := r.e, sourceAlive := r.ok);
    assert QueueItems(h.edge.queue) == [P(job)] + QueueItems(h.edge.queue[1..]);
    Shift(DgramItems(dst.dgrams), Todo(h), job, Todo(h'));
    DgramAppend(dst.dgrams, DPrepare(job));
  }

  /** The source thread runs the `migrate` command: the container leaves. */
  lemma MigrateHosts(hosts: map<string, Host>, g: Stage)
    requires HostsAt(hosts, g) && g.Moving? && hosts[g.a].edge.queue != [] && hosts[g.a].sourceAlive
    requires hosts[g.a].edge.queue[0] == E.MigrateCmd(g.job)
    ensures hosts[g.a].edge.record
    ensures var h, dst, r := hosts[g.a], hosts[g.job.server], E.SourceStep(hosts[g.a].edge, true);
            HostsAt(hosts[g.a := h.(edge := r.e, sourceAlive := r.ok)]
                         [g.job.server := dst.(dgrams := dst.dgrams + [DMigrate(g.job)])], g.(left := true))
  {
    var h, dst := hosts[g.a], hosts[g.job.server];
    var r := E.SourceStep(h.edge, true);
    MigratePipeline(h, dst, g.job, g.left);
    assert MovingHosts(h.(edge := r.e, sourceAlive := r.ok), dst.(dgrams := dst.dgrams + [DMigrate(g.job)]),
                       g.a, g.port, g.job, true);
  }

  lemma MigratePipeline(h: Host, dst: Host, job: Job, left: bool)
    requires Pipeline(h, dst, job, left) && h.edge.queue != [] && h.edge.queue[0] == E.MigrateCmd(job) && h.sourceAlive
    ensures h.edge.record && !left
    ensures var r := E.SourceStep(h.edge, true);
            Pipeline(h.(edge := r.e, sourceAlive := r.ok), dst.(dgrams := dst.dgrams + [DMigrate(job)]), job, true)
  {
    var r := E.SourceStep(h.edge, true);
    var h' := h.(edge := r.e, sourceAlive := r.ok);
    assert QueueItems(h.edge.queue) == [M(job)] + QueueItems(h.edge.queue[1..]);
    assert Todo(h)[1..] == QueueItems(h.edge.queue[1..]) + InboxItems(h.inbox);
    Shift(DgramItems(dst.dgrams), Todo(h), job, Todo(h)[1..]);
    assert Todo(h) == [M(job)] && Todo(h') == [];
    DgramAppend(dst.dgrams, DMigrate(job));
  }

  lemma SourceRunKeeps(s: Sys, g: Stage, x: string) returns (g': Stage)
    requires InvAt(s, g) && x in s.hosts && s.hosts[x].sourceAlive && s.hosts[x].edge.queue != []
    ensures InvAt(SourceRan(s, x), g')
  {
    var h := s.hosts[x];
    var cmd := h.edge.queue[0];
    g' := g;
    if CmdItem(cmd) == [] {
      MeasureKeeps(s, g, x);
      return;
    }
    OrderAtSource(s.hosts, g, x);
    HeadCommand(h, s.hosts[g.job.server], g.job, g.left);
    if cmd == E.Prepare(g.job) {
      SourcePrepareKeeps(s, g);
    } else {
      SourceMigrateKeeps(s, g);
      g' := g.(left := true);
    }
  }

  /** Only the source of a migration has other commands than measurements. */
  lemma OrderAtSource(hosts: map<string, Host>, g: Stage, x: string)
    requires HostsAt(hosts, g) && x in hosts && hosts[x].edge.queue != [] && CmdItem(hosts[x].edge.queue[0]) != []
    ensures g.Moving? && x == g.a
  {
    HeadOfTodo(hosts[x]);
  }

  lemma HeadCommand(src: Host, dst: Host, job: Job, left: bool)
    requires Pipeline(src, dst, job, left) && src.edge.queue != [] && CmdItem(src.edge.queue[0]) != []
    ensures src.edge.queue[0] == E.Prepare(job) || src.edge.queue[0] == E.MigrateCmd(job)
  {
    HeadItem(src, dst, job, left);
  }

  lemma HeadOfTodo(h: Host)
    requires h.edge.queue != [] && CmdItem(h.edge.queue[0]) != []
    ensures QueueItems(h.edge.queue) != [] && Todo(h) != [] && Todo(h)[0] == CmdItem(h.edge.queue[0])[0]
  {
    assert QueueItems(h.edge.queue)[0] == CmdItem(h.edge.queue[0])[0];
  }

  lemma SourcePrepareKeeps(s: Sys, g: Stage)
    requires InvAt(s, g) && g.Moving? && s.hosts[g.a].edge.queue != [] && s.hosts[g.a].sourceAlive
    requires s.hosts[g.a].edge.queue[0] == E.Prepare(g.job)
    ensures InvAt(SourceRan(s, g.a), g)
  {
    var h := s.hosts[g.a];
    var r := E.SourceStep(h.edge, true);
    PostShort(s.(hosts := s.hosts[g.a := h.(edge := r.e, sourceAlive := r.ok)]), r.out);
    PrepareHosts(s.hosts, g);
    CtlAppend(s.ctl.row.value, s.ctl.bts.value, s.ctlInbox, CPreMigrated(g.job));
  }

  lemma SourceMigrateKeeps(s: Sys, g: Stage)
    requires InvAt(s, g) && g.Moving? && s.hosts[g.a].edge.queue != [] && s.hosts[g.a].sourceAlive
    requires s.hosts[g.a].edge.queue[0] == E.MigrateCmd(g.job)
    ensures InvAt(SourceRan(s, g.a), g.(left := true))
  {
    var h := s.hosts[g.a];
    var r := E.SourceStep(h.edge, true);
    var hosts := s.hosts[g.a := h.(edge := r.e, sourceAlive := r.ok)];
    MigrateHosts(s.hosts, g);
    MigrateSent(s, g, hosts);
    LeftOnly(s, g, SourceRan(s, g.a).hosts);
  }

  lemma MigrateSent(s: Sys, g: Stage, hosts: map<string, Host>)
    requires g.Moving? && g.a in s.hosts && g.job.server in s.hosts && g.a != g.job.server
    requires s.hosts[g.a].edge.queue != [] && s.hosts[g.a].edge.record
    requires s.hosts[g.a].edge.queue[0] == E.MigrateCmd(g.job)
    requires var r := E.SourceStep(s.hosts[g.a].edge, true);
             hosts == s.hosts[g.a := s.hosts[g.a].(edge := r.e, sourceAlive := r.ok)]
    ensures var dst := s.hosts[g.job.server];
            SourceRan(s, g.a) == s.(hosts := hosts[g.job.server := dst.(dgrams := dst.dgrams + [DMigrate(g.job)])])
  {
    PostShort(s.(hosts := hosts), [E.SendMigrate(g.job)]);
  }

  lemma LeftOnly(s: Sys, g: Stage, hosts: map<string, Host>)
    requires InvAt(s, g) && g.Moving? && HostsAt(hosts, g.(left := true))
    ensures InvAt(s.(hosts := hosts), g.(left := true))
  {
  }

  /** The destination thread handles the `prepare` datagram. */
  lemma DestPrepareHosts(hosts: map<string, Host>, g: Stage, free: Option<nat>)
    requires HostsAt(hosts, g) && g.Moving? && hosts[g.job.server].dgrams != []
    requires hosts[g.job.server].dgrams[0] == DPrepare(g.job)
    ensures var h, r := hosts[g.job.server], E.DestPrepare(hosts[g.job.server].edge, free);
            HostsAt(hosts[g.job.server := h.(edge := r.e, dgrams := h.dgrams[1..], destAlive := r.ok)], g)
  {
    var src, h := hosts[g.a], hosts[g.job.server];
    var r := E.DestPrepare(h.edge, free);
    var h' := h.(edge := r.e, dgrams := h.dgrams[1..], destAlive := r.ok);
    assert DgramItems(h.dgrams) == [P(g.job)] + DgramItems(h'.dgrams);
    var all := DgramItems(h.dgrams) + Todo(src);
    assert all[0] == P(g.job) && all[1..] == DgramItems(h'.dgrams) + Todo(src);
    assert Pipeline(src, h', g.job, g.left);
    assert MovingHosts(src, h', g.a, g.port, g.job, g.left);
  }

  /** The destination thread handles the `migrate` datagram: the container lands. */
  lemma LandHosts(hosts: map<string, Host>, g: Stage)
    requires HostsAt(hosts, g) && g.Moving? && hosts[g.job.server].dgrams != [] && hosts[g.job.server].destAlive
    requires hosts[g.job.server].dgrams[0] == DMigrate(g.job)
    ensures Ready(hosts[g.job.server])
    ensures var h, r := hosts[g.job.server], E.DestMigrate(hosts[g.job.server].edge, g.job, true);
            HostsAt(hosts[g.job.server := h.(edge := r.e, dgrams := h.dgrams[1..], destAlive := r.ok)],
                    Held(g.job.server, h.edge.container.port))
  {
    var src, h := hosts[g.a], hosts[g.job.server];
    assert DgramItems(h.dgrams) == [M(g.job)] + DgramItems(h.dgrams[1..]);
    var all := DgramItems(h.dgrams) + Todo(src);
    assert all[0] == M(g.job) && all == [M(g.job)] + (DgramItems(h.dgrams[1..]) + Todo(src));
    assert DgramItems(h.dgrams[1..]) == [] && Todo(src) == [] && g.left;
    assert h.dgrams[1..] == [];
  }

  /** Only the destination of a migration has datagrams. */
  lemma DatagramAt(hosts: map<string, Host>, g: Stage, x: string)
    requires HostsAt(hosts, g) && x in hosts && hosts[x].dgrams != []
    ensures g.Moving? && x == g.job.server
  {
  }

  lemma HeadDatagram(src: Host, dst: Host, job: Job, left: bool)
    requires Pipeline(src, dst, job, left) && dst.dgrams != []
    ensures dst.dgrams[0] == DPrepare(job) || dst.dgrams[0] == DMigrate(job)
  {
    HeadItem(src, dst, job, left);
  }

  lemma DestRunKeeps(s: Sys, g: Stage, x: string, free: Option<nat>) returns (g': Stage)
    requires InvAt(s, g) && x in s.hosts && s.hosts[x].destAlive && s.hosts[x].dgrams != []
    ensures InvAt(DestRan(s, x, free), g')
  {
    var h := s.hosts[x];
    DatagramAt(s.hosts, g, x);
    HeadDatagram(s.hosts[g.a], h, g.job, g.left);
    if h.dgrams[0].DPrepare? {
      CreateKeeps(s, g, free);
      g' := g;
    } else {
      LandKeeps(s, g, free);
      g' := Held(x, h.edge.container.port);
    }
  }

  lemma CreateKeeps(s: Sys, g: Stage, free: Option<nat>)
    requires InvAt(s, g) && g.Moving? && s.hosts[g.job.server].dgrams != []
    requires s.hosts[g.job.server].dgrams[0] == DPrepare(g.job)
    ensures InvAt(DestRan(s, g.job.server, free), g)
  {
    DestPrepareHosts(s.hosts, g, free);
    HostsOnly(s, g, DestRan(s, g.job.server, free).hosts);
  }

  lemma LandKeeps(s: Sys, g: Stage, free: Option<nat>)
    requires InvAt(s, g) && g.Moving? && s.hosts[g.job.server].dgrams != [] && s.hosts[g.job.server].destAlive
    requires s.hosts[g.job.server].dgrams[0] == DMigrate(g.job)
    ensures Ready(s.hosts[g.job.server])
    ensures InvAt(DestRan(s, g.job.server, free), Held(g.job.server, s.hosts[g.job.server].edge.container.port))
  {
    LandHosts(s.hosts, g);
    var x := g.job.server;
    var h := s.hosts[x];
    var p := h.edge.container.port;
    var r := E.DestMigrate(h.edge, g.job, true);
    PostShort(s.(hosts := s.hosts[x := h.(edge := r.e, dgrams := h.dgrams[1..], destAlive := r.ok)]), r.out);
    CtlAppend(s.ctl.row.value, s.ctl.bts.value, s.ctlInbox, CMigrated(Service(x, p)));
    HearAppend(s.eu.service, s.euInbox, UMigrated(Service(x, p)));
  }

  lemma MonitoredHost(h: Host, cmd: E.Cmd, h': Host)
    requires cmd.PreMeasure? || cmd.Measure?
    requires h' == h.(edge := h.edge.(queue := h.edge.queue + [cmd]))
    ensures Alike(h, h')
  {
    QueueAppend(h.edge.queue, cmd);
  }

  lemma MonitoredKeeps(s: Sys, g: Stage, x: string, cmd: E.Cmd, h': Host)
    requires InvAt(s, g) && x in s.hosts && (cmd.PreMeasure? || cmd.Measure?)
    requires h' == s.hosts[x].(edge := s.hosts[x].edge.(queue := s.hosts[x].edge.queue + [cmd]))
    ensures InvAt(s.(hosts := s.hosts[x := h']), g)
  {
    MonitoredHost(s.hosts[x], cmd, h');
    AlikeKeeps(s.hosts, g, x, h');
  }

  lemma DiesKeeps(s: Sys, g: Stage, x: string, h': Host)
    requires InvAt(s, g) && x in s.hosts
    requires h' == s.hosts[x].(sourceAlive := false) || h' == s.hosts[x].(destAlive := false)
    ensures InvAt(s.(hosts := s.hosts[x := h']), g)
  {
    assert Alike(s.hosts[x], h');
    AlikeKeeps(s.hosts, g, x, h');
  }

  lemma EuReceiveKeeps(s: Sys, g: Stage, known: bool)
    requires InvAt(s, g) && s.euInbox != []
    ensures InvAt(s.(eu := EuHandle(s.eu, s.euInbox[0], known), euInbox := s.euInbox[1..]), g)
  {
    assert Hear(s.eu.service, s.euInbox) == Hear(EuHandle(s.eu, s.euInbox[0], known).service, s.euInbox[1..]);
  }

  lemma ReconnectKeeps(s: Sys, g: Stage)
    requires InvAt(s, g)
    ensures InvAt(s.(eu := s.eu.(connected := true), ctlInbox := s.ctlInbox + [CHandovered(s.eu.ssid)]), g)
  {
    CtlAppend(s.ctl.row.value, s.ctl.bts.value, s.ctlInbox, CHandovered(s.eu.ssid));
  }

  lemma {:induction false} PublishConcat(s: Sys, a: seq<Effect>, b: seq<Effect>)
    decreases |a|
    ensures PublishAll(s, a + b) == PublishAll(PublishAll(s, a), b)
  {
    if a == [] {
      assert a + b == b;
    } else {
      assert (a + b)[1..] == a[1..] + b;
      PublishConcat(Publish(s, a[0]), a[1..], b);
    }
  }

  /** Handing the user over does not depend on the rest of the controller's mind. */
  lemma PublishHandover(s: Sys, plan: Plan, c: Ctl, lost: bool)
    ensures var out := ThresholdHandover(s.ctl, plan).out;
            PublishAll(s.(ctl := c, jsonLost := lost), out) == PublishAll(s, out).(ctl := c, jsonLost := lost)
  {
    var out := ThresholdHandover(s.ctl, plan).out;
    PublishShort(s, out);
    PublishShort(s.(ctl := c, jsonLost := lost), out);
  }

  lemma PlanKeeps(s: Sys, g: Stage, plan: Plan, json: bool) returns (g': Stage)
    requires InvAt(s, g) && plan.server in s.hosts
    ensures InvAt(Planned(s, plan, json), g')
  {
    var h := ThresholdHandover(s.ctl, plan);
    var m := ThresholdMigration(h.c, plan, json);
    var lost := s.jsonLost || (!json && m.c.row != s.ctl.row);
    var t := PublishAll(s.(ctl := h.c), h.out);
    HandoverPlanKeeps(s, g, plan);
    PublishHandover(s, plan, h.c, s.jsonLost);
    PublishHandover(s, plan, m.c, lost);
    PublishConcat(s.(ctl := m.c, jsonLost := lost), h.out, m.out);
    assert Planned(s, plan, json) == PublishAll(t.(ctl := m.c, jsonLost := lost), m.out);
    g' := g;
    PublishShort(t.(ctl := m.c, jsonLost := lost), m.out);
    if t.ctl.row.value.phase == RunningPhase && plan.server != t.ctl.row.value.server {
      if json {
        MigrationPlanKeeps(t, g, plan);
        g' := Moving(g.a, g.port, Job(plan.server, plan.bts), false);
      } else {
        LearnWhere(t.ctl.row.value, PreMigratePhase, t.ctlInbox);
      }
    }
  }

  // ------------------------------------------------------------- every run

  lemma StepKeeps(s: Sys, step: Step)
    requires Inv(s) && Enabled(s, step)
    ensures Inv(Apply(s, step))
  {
    if !s.eu.discovered {
      FreshSteps(s, step);
      return;
    }
    var g :| InvAt(s, g);
    match step {
      case Discover(_) =>
      case RunPlan(plan, json) =>
        g := PlanKeeps(s, g, plan, json);
      case CtlReceive =>
        CtlReceiveKeeps(s, g);
      case HostReceive(x, port) =>
        g := HostReceiveKeeps(s, g, x, port);
      case SourceRun(x) =>
        g := SourceRunKeeps(s, g, x);
      case DestRun(x, free) =>
        g := DestRunKeeps(s, g, x, free);
      case Monitored(x, cmd) =>
        var h := s.hosts[x];
        MonitoredKeeps(s, g, x, cmd, h.(edge := h.edge.(queue := h.edge.queue + [cmd])));
      case Dies(x, source) =>
        DiesKeeps(s, g, x, if source then s.hosts[x].(sourceAlive := false) else s.hosts[x].(destAlive := false));
      case EuReceive(known) =>
        EuReceiveKeeps(s, g, known);
      case Reconnect =>
        ReconnectKeeps(s, g);
    }
    assert InvAt(Apply(s, step), g);
  }

  lemma FreshSteps(s: Sys, step: Step)
    requires Fresh(s) && Enabled(s, step)
    ensures Inv(Apply(s, step))
  {
    forall x | x in s.hosts
      ensures s.hosts[x].inbox == []
    {
      assert InboxItems(s.hosts[x].inbox) == [];
    }
    match step {
      case Discover(place) =>
        DiscoverKeeps(s, place);
      case SourceRun(x) =>
        FreshSource(s, x);
      case _ =>
    }
  }

  lemma FreshSource(s: Sys, x: string)
    requires Fresh(s) && x in s.hosts && s.hosts[x].sourceAlive && s.hosts[x].edge.queue != []
    ensures Fresh(SourceRan(s, x))
  {
    var h := s.hosts[x];
    assert QueueItems(h.edge.queue) == CmdItem(h.edge.queue[0]) + QueueItems(h.edge.queue[1..]) == [];
    var r := E.SourceStep(h.edge, true);
    assert SourceRan(s, x) == s.(hosts := s.hosts[x := h.(edge := r.e, sourceAlive := r.ok)]);
  }

  lemma {:induction false} RunKeeps(run: seq<Sys>, i: nat)
    requires IsRun(run) && i < |run|
    ensures Inv(run[i])
  {
    if i == 0 {
      assert Fresh(run[0]);
    } else {
      RunKeeps(run, i - 1);
      assert Next(run[i - 1], run[i - 1 + 1]);
      var step :| Enabled(run[i - 1], step) && run[i] == Apply(run[i - 1], step);
      StepKeeps(run[i - 1], step);
    }
  }

  // ------------------------------------------------------------- theorems

  /** A place where the user's container exists: a server that runs or lists it,
    * or a `migrate` datagram on its way to one. */
  datatype Copy = At(x: string) | InTransit(x: string, i: nat)

  function Copies(hosts: map<string, Host>): set<Copy> {
    (set x | x in hosts && Has(hosts[x]) :: At(x)) +
    (set x, i | x in hosts && 0 <= i < |hosts[x].dgrams| && Carries(hosts[x], i) :: InTransit(x, i))
  }

  /** The edge has announced the service, so its first deployment is over. */
  predicate Allocated(s: Sys) {
    Hear(s.eu.service, s.euInbox).Some?
  }

  /** The destination's socket holds the `migrate` datagram exactly when the
    * container has left, and then at one place. */
  lemma DgramsOf(src: Host, dst: Host, job: Job, left: bool)
    requires Pipeline(src, dst, job, left)
    ensures !left ==> forall i | 0 <= i < |dst.dgrams| :: dst.dgrams[i].DPrepare?
    ensures left ==> dst.dgrams != [] && dst.dgrams[|dst.dgrams| - 1].DMigrate?
    ensures left ==> forall i | 0 <= i < |dst.dgrams| - 1 :: dst.dgrams[i].DPrepare?
  {
    var q := dst.dgrams;
    var sent, todo := DgramItems(q), Todo(src);
    ItemsAt(q);
    if left {
      assert sent == sent + todo;
    } else {
      assert |sent| < |sent + todo| <= 2;
      assert |q| == 1 ==> sent[0] == (sent + todo)[0];
    }
  }

  lemma {:induction false} ItemsAt(q: seq<Datagram>)
    ensures |DgramItems(q)| == |q|
    ensures forall i | 0 <= i < |q| :: DgramItems(q)[i] == DgramItem(q[i])
  {
    if q == [] {
    } else {
      ItemsAt(q[1..]);
      forall i | 0 < i < |q|
        ensures DgramItems(q)[i] == DgramItem(q[i])
      {
        assert DgramItems(q)[i] == DgramItems(q[1..])[i - 1] == DgramItem(q[1..][i - 1]);
      }
    }
  }

  /** The container exists exactly once from the first allocation on, and not at
    * all before.  A server that has it runs it and lists it, once, under the port
    * it listens on. */
  ghost predicate OneCopy(s: Sys) {
    && |Copies(s.hosts)| == (if Allocated(s) then 1 else 0)
    && forall x | At(x) in Copies(s.hosts) ::
         var e := s.hosts[x].edge;
         e.container.Up? && e.listed == [Service(x, e.container.port)]
  }

  lemma SingleCopy(run: seq<Sys>, i: nat)
    requires IsRun(run) && i < |run|
    ensures OneCopy(run[i])
  {
    RunKeeps(run, i);
    InvIsOneCopy(run[i]);
  }

  lemma InvIsOneCopy(s: Sys)
    requires Inv(s)
    ensures OneCopy(s)
  {
    if !s.eu.discovered {
      assert Copies(s.hosts) == {};
      assert Hear(s.eu.service, s.euInbox) == None;
    } else {
      var g :| InvAt(s, g);
      CopiesAt(s.hosts, g);
    }
  }

  predicate Has(h: Host) {
    h.edge.container.Up? || h.edge.listed != []
  }

  predicate Carries(h: Host, i: int) {
    0 <= i < |h.dgrams| && h.dgrams[i].DMigrate?
  }

  predicate IsCopy(hosts: map<string, Host>, c: Copy) {
    match c
    case At(x) => x in hosts && Has(hosts[x])
    case InTransit(x, i) => x in hosts && Carries(hosts[x], i)
  }

  lemma CopiesAre(hosts: map<string, Host>, only: set<Copy>)
    requires forall c: Copy :: IsCopy(hosts, c) <==> c in only
    ensures Copies(hosts) == only
  {
    forall c: Copy
      ensures c in Copies(hosts) <==> IsCopy(hosts, c)
    {
      IsCopyIff(hosts, c);
    }
  }

  lemma IsCopyIff(hosts: map<string, Host>, c: Copy)
    ensures c in Copies(hosts) <==> IsCopy(hosts, c)
  {
  }

  lemma CopiesAt(hosts: map<string, Host>, g: Stage)
    requires HostsAt(hosts, g)
    ensures match g
            case Deploying(_) => Copies(hosts) == {}
            case Held(a, _) => Copies(hosts) == {At(a)}
            case Moving(a, _, job, left) =>
              if left then Copies(hosts) == {InTransit(job.server, |hosts[job.server].dgrams| - 1)}
              else Copies(hosts) == {At(a)}
  {
    match g
    case Deploying(_) =>
      CopiesAre(hosts, {});
    case Held(a, _) =>
      CopiesAre(hosts, {At(a)});
    case Moving(a, port, job, left) =>
      DgramsOf(hosts[a], hosts[job.server], job, left);
      CopiesMoving(hosts, a, port, job, left);
  }

  lemma CopiesMoving(hosts: map<string, Host>, a: string, port: nat, job: Job, left: bool)
    requires HostsAt(hosts, Moving(a, port, job, left))
    requires var q := hosts[job.server].dgrams;
             forall i | 0 <= i < |q| :: q[i].DMigrate? <==> left && i == |q| - 1
    requires left ==> hosts[job.server].dgrams != []
    ensures Copies(hosts) == if left then {InTransit(job.server, |hosts[job.server].dgrams| - 1)} else {At(a)}
  {
    CopiesAre(hosts, if left then {InTransit(job.server, |hosts[job.server].dgrams| - 1)} else {At(a)});
  }

  /** No message and no migration command of the user is pending. */
  predicate Settled(s: Sys) {
    && s.ctlInbox == [] && s.euInbox == []
    && forall x | x in s.hosts :: Todo(s.hosts[x]) == [] && s.hosts[x].dgrams == []
  }

  /** Whenever nothing is pending, the one server that runs the container, the
    * database and the user agree on the server and the port, and the database
    * knows the base station of a connected device.  The service can be moved
    * again unless some plan lost its message. */
  ghost predicate AgreedOn(s: Sys, a: string, port: nat) {
    && a in s.hosts && s.hosts[a].edge.container == E.Up(port)
    && (forall x | x in s.hosts && x != a :: !s.hosts[x].edge.container.Up?)
    && s.ctl.row.Some? && s.ctl.row.value.server == a && s.ctl.row.value.port == Some(port)
    && s.eu.service == Some(Service(a, port))
    && (s.eu.connected ==> s.ctl.bts == Some(s.eu.ssid))
    && (s.ctl.row.value.phase == RunningPhase <==> !s.jsonLost)
  }

  lemma Agreement(run: seq<Sys>, i: nat) returns (a: string, port: nat)
    requires IsRun(run) && i < |run| && run[i].eu.discovered && Settled(run[i])
    ensures AgreedOn(run[i], a, port)
  {
    RunKeeps(run, i);
    a, port := InvIsAgreed(run[i]);
  }

  lemma InvIsAgreed(s: Sys) returns (a: string, port: nat)
    requires Inv(s) && s.eu.discovered && Settled(s)
    ensures AgreedOn(s, a, port)
  {
    var g :| InvAt(s, g);
    SettledIsHeld(s, g);
    HostsAgree(s.hosts, g);
    MindsAgree(s, g);
    a, port := g.a, g.port;
  }

  lemma HostsAgree(hosts: map<string, Host>, g: Stage)
    requires HostsAt(hosts, g) && g.Held?
    ensures g.a in hosts && hosts[g.a].edge.container == E.Up(g.port)
    ensures forall x | x in hosts && x != g.a :: !hosts[x].edge.container.Up?
  {
  }

  lemma MindsAgree(s: Sys, g: Stage)
    requires Ground(s) && MindsAt(s, g) && g.Held? && s.ctlInbox == [] && s.euInbox == []
    ensures s.ctl.row.value.server == g.a && s.ctl.row.value.port == Some(g.port)
    ensures s.eu.service == Some(Service(g.a, g.port)) && (s.eu.connected ==> s.ctl.bts == Some(s.eu.ssid))
    ensures s.ctl.row.value.phase == RunningPhase <==> !s.jsonLost
  {
  }

  lemma SettledIsHeld(s: Sys, g: Stage)
    requires InvAt(s, g) && Settled(s)
    ensures g.Held?
  {
    assert Todo(s.hosts[g.a]) == [];
    if g.Moving? {
      MovingIsBusy(s.hosts[g.a], s.hosts[g.job.server], g.job, g.left);
    }
  }

  lemma MovingIsBusy(src: Host, dst: Host, job: Job, left: bool)
    requires Pipeline(src, dst, job, left)
    ensures Todo(src) != [] || dst.dgrams != []
  {
    assert DgramItems(dst.dgrams) + Todo(src) != [];
  }

  /** Starting the container where it does not run adds a copy. */
  lemma SecondCopy(hosts: map<string, Host>, c: Copy, x: string, h': Host)
    requires Copies(hosts) == {c} && c != At(x) && x in hosts
    requires h'.edge.container.Up? && h'.dgrams == hosts[x].dgrams
    ensures |Copies(hosts[x := h'])| == 2
  {
    var hosts' := hosts[x := h'];
    forall d: Copy
      ensures IsCopy(hosts', d) <==> d in {c, At(x)}
    {
      IsCopyIff(hosts, d);
    }
    CopiesAre(hosts', {c, At(x)});
    assert |{c, At(x)}| == 2;
  }

  /** A second deployment order, as a repeated discovery sends it, keeps the copy
    * single exactly when it reaches the server that runs the container. */
  lemma Redeploy(run: seq<Sys>, i: nat, x: string, port: nat)
    requires IsRun(run) && i < |run| && Allocated(run[i]) && x in run[i].hosts
    ensures var h := run[i].hosts[x];
            |Copies(run[i].hosts[x := h.(edge := E.Deploy(h.edge, x, port).e)])| == 1 <==> h.edge.container.Up?
  {
    SingleCopy(run, i);
    var hosts := run[i].hosts;
    var h := hosts[x];
    if h.edge.container.Up? {
      assert At(x) in Copies(hosts);
      assert hosts[x := h.(edge := E.Deploy(h.edge, x, port).e)] == hosts;
    } else {
      var c :| c in Copies(hosts);
      assert Copies(hosts) == {c} + (Copies(hosts) - {c});
      SecondCopy(hosts, c, x, h.(edge := E.Deploy(h.edge, x, port).e));
    }
  }
}
