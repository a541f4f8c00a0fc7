/** Users that ask for their service again, any number of times.  Each request may order
  * the server in the database row to deploy, and the answer to such an order puts the row
  * back to `running`, even in the middle of a migration.  The container stays single in
  * all runs exactly when the controller never repeats an order, or never migrates, or
  * sends both orders and migrations only while every MIGRATE has had its MIGRATED. */
module Repeats {
  import opened Basics
  import opened Handlers
  import opened Protocol
  import opened SingleCopy
  import E = EdgeHandlers
  import R = Redeployment

  /** `due` is what a careful controller would count: the MIGRATEs it has published and for
    * which no MIGRATED has come. */
  datatype Tracked = Tracked(s: Sys, due: nat)

  datatype Act =
    | Base(step: Step)        // a step of the protocol
    | Again(place: string)    // a user that has a service asks for it again

  /** When a controller does something the code would let it do. */
  datatype When = Never | Always | WhileRunning | WhenIdle

  /** When it repeats an order to deploy, and when it starts a migration. The code's own
    * controller does both `Always`; that it migrates a `running` service only is its
    * handler's business, not the policy's. */
  datatype Policy = Policy(orders: When, plans: When)

  predicate Permits(w: When, t: Tracked) {
    match w
    case Never => false
    case Always => true
    case WhileRunning => t.s.ctl.row.Some? && t.s.ctl.row.value.phase == RunningPhase
    case WhenIdle => t.due == 0
  }

  function Migrates(out: seq<Effect>): nat {
    if out == [] then 0 else (if out[0].Migrate? then 1 else 0) + Migrates(out[1..])
  }

  /** The MIGRATEs a step publishes. */
  function Started(s: Sys, step: Step): nat {
    if step.RunPlan? then Migrates(ThresholdPlan(s.ctl, step.plan, step.json).out) else 0
  }

  /** The MIGRATEDs a step takes in. */
  function Finished(s: Sys, step: Step): nat {
    if step.CtlReceive? && s.ctlInbox != [] && s.ctlInbox[0].CMigrated? then 1 else 0
  }

  predicate Can(p: Policy, t: Tracked, act: Act) {
    match act
    case Base(step) => Enabled(t.s, step) && (Started(t.s, step) > 0 ==> Permits(p.plans, t))
    case Again(place) =>
      t.s.ctl.row.Some? && (Discovery(t.s.ctl, t.s.eu.ssid, true, place).out != [] ==> Permits(p.orders, t))
  }

  function Did(t: Tracked, act: Act): Tracked
    requires act.Base? ==> Enabled(t.s, act.step)
  {
    match act
    case Base(step) =>
      var due := t.due + Started(t.s, step);
      Tracked(Apply(t.s, step), if Finished(t.s, step) > due then 0 else due - Finished(t.s, step))
    case Again(place) => Tracked(R.Rediscovered(t.s, place), t.due)
  }

  function DidAll(p: Policy, t: Tracked, acts: seq<Act>): Option<Tracked>
    decreases |acts|
  {
    if acts == [] then Some(t) else if !Can(p, t, acts[0]) then None else DidAll(p, Did(t, acts[0]), acts[1..])
  }

  /** Every user has one copy from the first allocation on, in every state of every run. */
  ghost predicate Safe(p: Policy) {
    forall s, acts | Initial(s) && DidAll(p, Tracked(s, 0), acts).Some? ::
      OneCopy(DidAll(p, Tracked(s, 0), acts).value.s)
  }

  // ---------------------------------------------------------------- invariant

  /** The hosts without the first `k` messages of `a`. */
  function Drop(hosts: map<string, Host>, a: string, k: nat): map<string, Host>
    requires a in hosts && k <= |hosts[a].inbox|
  {
    hosts[a := hosts[a].(inbox := hosts[a].inbox[k..])]
  }

  /** While orders wait at the holder, nothing of a migration has passed them. */
  predicate Unmoved(hosts: map<string, Host>, g: Stage) {
    && !g.Deploying? && g.a in hosts && QueueItems(hosts[g.a].edge.queue) == []
    && (g.Moving? ==> !g.left && g.job.server in hosts && hosts[g.job.server].dgrams == [])
  }

  /** But for `k` repeated orders, which the holder reads first, all is as in a run without. */
  predicate HostsOk(hosts: map<string, Host>, g: Stage, k: nat) {
    && g.a in hosts && k <= |hosts[g.a].inbox|
    && (forall i | 0 <= i < k :: hosts[g.a].inbox[i] == EDeploy)
    && HostsAt(Drop(hosts, g.a, k), g)
    && (k > 0 ==> Unmoved(hosts, g))
  }

  predicate GroundOk(s: Sys) {
    && s.eu.discovered
    && s.ctl.bits.Some? && s.ctl.bts.Some? && s.ctl.row.Some? && s.ctl.migrating.None?
    && (s.ctl.row.value.phase == RunningPhase ==> MigrateBit !in s.ctl.bits.value)
    && (s.eu.connected ==> LearnBts(s.ctl.bts.value, s.ctlInbox) == s.eu.ssid)
  }

  /** Answers to orders name the server the row names when they are read. */
  predicate Steady(server: string, ms: seq<CtlMsg>)
    decreases |ms|
  {
    ms == [] ||
    match ms[0]
    case CAllocated(svc) => svc.server == server && Steady(server, ms[1..])
    case CMigrated(svc) => Steady(svc.server, ms[1..])
    case _ => Steady(server, ms[1..])
  }

  function Landed(ms: seq<CtlMsg>): nat {
    if ms == [] then 0 else (if ms[0].CMigrated? then 1 else 0) + Landed(ms[1..])
  }

  predicate MindsOk(t: Tracked, g: Stage)
    requires t.s.ctl.row.Some?
  {
    && Steady(t.s.ctl.row.value.server, t.s.ctlInbox)
    && t.due == (if g.Moving? then 1 else 0) + Landed(t.s.ctlInbox)
    && match g
       case Deploying(a) =>
         && t.s.ctl.row.value.phase == InitPhase && t.s.ctl.row.value.server == a
         && (forall m | m in t.s.ctlInbox :: m.CHandovered?)
         && Hear(t.s.eu.service, t.s.euInbox) == None && !t.s.jsonLost
       case Held(a, port) =>
         Known(t.s, a, port) && (!t.s.jsonLost ==> Learn(t.s.ctl.row.value, t.s.ctlInbox).phase == RunningPhase)
       case Moving(a, port, job, left) => Known(t.s, a, port)
  }

  predicate Orderly(t: Tracked, g: Stage, k: nat) {
    GroundOk(t.s) && HostsOk(t.s.hosts, g, k) && MindsOk(t, g)
  }

  ghost predicate Ok(t: Tracked) {
    if t.s.eu.discovered then exists g, k :: Orderly(t, g, k) else Fresh(t.s) && t.due == 0
  }

  // ------------------------------------------------------------------- inboxes

  lemma {:induction false} SteadyAppend(r: Row, ms: seq<CtlMsg>, m: CtlMsg)
    requires Steady(r.server, ms) && (m.CAllocated? ==> m.svc.server == Learn(r, ms).server)
    ensures Steady(r.server, ms + [m])
    ensures Landed(ms + [m]) == Landed(ms) + if m.CMigrated? then 1 else 0
    decreases |ms|
  {
    if ms == [] {
      assert ms + [m] == [m] && [m][1..] == [];
    } else {
      assert (ms + [m])[0] == ms[0] && (ms + [m])[1..] == ms[1..] + [m];
      SteadyAppend(LearnOne(r, ms[0]), ms[1..], m);
    }
  }

  /** Without a landing in the inbox the row already says where. */
  lemma {:induction false} SteadyQuiet(r: Row, ms: seq<CtlMsg>)
    requires Steady(r.server, ms) && Landed(ms) == 0
    ensures Learn(r, ms).server == r.server
    decreases |ms|
  {
    if ms == [] {
    } else {
      SteadyQuiet(LearnOne(r, ms[0]), ms[1..]);
    }
  }

  // --------------------------------------------------------------------- hosts

  lemma DropNone(hosts: map<string, Host>, a: string)
    requires a in hosts
    ensures Drop(hosts, a, 0) == hosts
  {
    assert hosts[a].inbox[0..] == hosts[a].inbox;
  }

  /** A change the protocol does not notice, of a host whose messages stay. */
  lemma AlikeOk(hosts: map<string, Host>, g: Stage, k: nat, x: string, h: Host)
    requires HostsOk(hosts, g, k) && x in hosts && Alike(hosts[x], h) && h.inbox == hosts[x].inbox
    requires QueueItems(h.edge.queue) == QueueItems(hosts[x].edge.queue)
    ensures HostsOk(hosts[x := h], g, k)
  {
    var d := Drop(hosts, g.a, k);
    var h' := h.(inbox := d[x].inbox);
    DropAlike(hosts, g.a, k, x, h);
    AlikeKeeps(d, g, x, h');
    if k > 0 {
      AlikeUnmoved(hosts, g, x, h);
    }
  }

  lemma AlikeUnmoved(hosts: map<string, Host>, g: Stage, x: string, h: Host)
    requires Unmoved(hosts, g) && x in hosts && h.dgrams == hosts[x].dgrams
    requires QueueItems(h.edge.queue) == QueueItems(hosts[x].edge.queue)
    ensures Unmoved(hosts[x := h], g)
  {
  }

  lemma DropAlike(hosts: map<string, Host>, a: string, k: nat, x: string, h: Host)
    requires a in hosts && k <= |hosts[a].inbox| && x in hosts && Alike(hosts[x], h) && h.inbox == hosts[x].inbox
    requires QueueItems(h.edge.queue) == QueueItems(hosts[x].edge.queue)
    ensures var d := Drop(hosts, a, k);
            var h' := h.(inbox := d[x].inbox);
            Alike(d[x], h') && Drop(hosts[x := h], a, k) == d[x := h']
  {
  }

  /** Orders make no copies. */
  lemma DropCopies(hosts: map<string, Host>, a: string, k: nat)
    requires a in hosts && k <= |hosts[a].inbox|
    ensures Copies(Drop(hosts, a, k)) == Copies(hosts)
  {
    forall c: Copy
      ensures IsCopy(Drop(hosts, a, k), c) <==> c in Copies(hosts)
    {
      IsCopyIff(hosts, c);
    }
    CopiesAre(Drop(hosts, a, k), Copies(hosts));
  }

  lemma OkIsOneCopy(t: Tracked)
    requires Ok(t)
    ensures OneCopy(t.s)
  {
    if !t.s.eu.discovered {
      InvIsOneCopy(t.s);
    } else {
      var g, k :| Orderly(t, g, k);
      OrderlyIsOneCopy(t, g, k);
    }
  }

  lemma OrderlyIsOneCopy(t: Tracked, g: Stage, k: nat)
    requires Orderly(t, g, k)
    ensures OneCopy(t.s)
  {
    CopiesAt(Drop(t.s.hosts, g.a, k), g);
    DropCopies(t.s.hosts, g.a, k);
  }

  lemma HasTodo(h: Host)
    ensures h.inbox != [] || QueueItems(h.edge.queue) != [] ==> Todo(h) != []
  {
    if h.inbox != [] {
      assert InboxItems(h.inbox) != [];
    }
  }

  /** Where a message can be. */
  lemma InboxAtHolder(hosts: map<string, Host>, g: Stage, k: nat, x: string)
    requires HostsOk(hosts, g, k) && x in hosts && hosts[x].inbox != []
    ensures x == g.a
  {
    if x != g.a {
      assert Drop(hosts, g.a, k)[x] == hosts[x];
      HasTodo(hosts[x]);
    }
  }

  // --------------------------------------------------------------------- steps

  /** Another order joins those that wait, behind nothing else. */
  lemma AgainOk(t: Tracked, g: Stage, k: nat, place: string)
    requires Orderly(t, g, k) && (Discovery(t.s.ctl, t.s.eu.ssid, true, place).out != [] ==> t.due == 0)
    ensures Ok(Did(t, Again(place)))
  {
    var s := t.s;
    var o := Discovery(s.ctl, s.eu.ssid, true, place);
    PublishShort(s.(ctl := o.c), o.out);
    if o.out == [] {
      assert Orderly(Did(t, Again(place)), g, k);
    } else {
      SteadyQuiet(s.ctl.row.value, s.ctlInbox);
      assert g.Held? && s.ctl.row.value.server == g.a;
      var h := s.hosts[g.a];
      OrderJoins(s.hosts, g, k);
      var t' := Tracked(s.(hosts := s.hosts[g.a := h.(inbox := h.inbox + [EDeploy])]), t.due);
      assert Did(t, Again(place)) == t';
      assert Orderly(t', g, k + 1);
    }
  }

  lemma OrderJoins(hosts: map<string, Host>, g: Stage, k: nat)
    requires HostsOk(hosts, g, k) && g.Held?
    ensures var h := hosts[g.a]; HostsOk(hosts[g.a := h.(inbox := h.inbox + [EDeploy])], g, k + 1)
  {
    HasTodo(Drop(hosts, g.a, k)[g.a]);
    DropOneMore(hosts, g.a, k);
  }

  lemma DropOneMore(hosts: map<string, Host>, a: string, k: nat)
    requires a in hosts && k <= |hosts[a].inbox| && Drop(hosts, a, k)[a].inbox == []
    ensures |hosts[a].inbox| == k
    ensures var h := hosts[a]; Drop(hosts[a := h.(inbox := h.inbox + [EDeploy])], a, k + 1) == Drop(hosts, a, k)
  {
    var h := hosts[a];
    assert (h.inbox + [EDeploy])[k + 1..] == [] == h.inbox[k..];
  }

  /** The controller only learns. */
  lemma CtlReceiveOk(t: Tracked, g: Stage, k: nat)
    requires Orderly(t, g, k) && t.s.ctlInbox != []
    ensures Orderly(Did(t, Base(CtlReceive)), g, k)
  {
    var s := t.s;
    var o := CtlHandle(s.ctl, s.ctlInbox[0]);
    CtlLearnsToo(s);
    PublishShort(s.(ctl := o.c, ctlInbox := s.ctlInbox[1..]), o.out);
    MindsLearn(t, Did(t, Base(CtlReceive)), g);
  }

  lemma CtlLearnsToo(s: Sys)
    requires GroundOk(s) && s.ctlInbox != []
    ensures var o := CtlHandle(s.ctl, s.ctlInbox[0]);
            && o.out == [] && o.c.row == Some(LearnOne(s.ctl.row.value, s.ctlInbox[0]))
            && GroundOk(s.(ctl := o.c, ctlInbox := s.ctlInbox[1..]))
  {
  }

  lemma MindsLearn(t: Tracked, t': Tracked, g: Stage)
    requires GroundOk(t.s) && MindsOk(t, g) && t.s.ctlInbox != []
    requires t'.s.ctl.row == Some(LearnOne(t.s.ctl.row.value, t.s.ctlInbox[0])) && t'.s.ctlInbox == t.s.ctlInbox[1..]
    requires t'.s.eu == t.s.eu && t'.s.euInbox == t.s.euInbox && t'.s.jsonLost == t.s.jsonLost
    requires t'.due == if t.s.ctlInbox[0].CMigrated? then t.due - 1 else t.due
    ensures MindsOk(t', g)
  {
    assert t.s.ctlInbox[0] in t.s.ctlInbox;
    assert forall m | m in t'.s.ctlInbox :: m in t.s.ctlInbox;
    assert Learn(t.s.ctl.row.value, t.s.ctlInbox) == Learn(t'.s.ctl.row.value, t'.s.ctlInbox);
  }

  /** A server reads its oldest message. */
  lemma HostReceiveOk(t: Tracked, g: Stage, k: nat, x: string, port: nat)
    requires Orderly(t, g, k) && x in t.s.hosts && t.s.hosts[x].inbox != []
    ensures Ok(Did(t, Base(HostReceive(x, port))))
  {
    InboxAtHolder(t.s.hosts, g, k, x);
    if k > 0 {
      AnswerOk(t, g, k, port);
    } else {
      DropNone(t.s.hosts, g.a);
      if g.Deploying? {
        DeployOk(t, g, port);
      } else {
        OrderOk(t, g, port);
      }
    }
  }

  /** The holder answers an order with the service it runs. */
  lemma AnswerOk(t: Tracked, g: Stage, k: nat, port: nat)
    requires Orderly(t, g, k) && k > 0
    ensures Orderly(Did(t, Base(HostReceive(g.a, port))), g, k - 1)
  {
    var s := t.s;
    var h := s.hosts[g.a];
    var svc := Service(g.a, g.port);
    HolderRuns(s.hosts, g, k);
    assert E.Deploy(h.edge, g.a, port) == E.Result(h.edge, [E.PubAllocated(svc)], true);
    var s' := s.(hosts := s.hosts[g.a := h.(inbox := h.inbox[1..])]);
    PostShort(s', [E.PubAllocated(svc)]);
    OrderRead(s.hosts, g, k);
    AnswerMinds(t, g);
  }

  lemma AnswerMinds(t: Tracked, g: Stage)
    requires GroundOk(t.s) && MindsOk(t, g) && !g.Deploying?
    ensures var svc := Service(g.a, g.port);
            var s' := t.s.(ctlInbox := t.s.ctlInbox + [CAllocated(svc)], euInbox := t.s.euInbox + [UAllocated(svc)]);
            GroundOk(s') && MindsOk(Tracked(s', t.due), g)
  {
    var s, svc := t.s, Service(g.a, g.port);
    SteadyAppend(s.ctl.row.value, s.ctlInbox, CAllocated(svc));
    CtlAppend(s.ctl.row.value, s.ctl.bts.value, s.ctlInbox, CAllocated(svc));
    HearAppend(s.eu.service, s.euInbox, UAllocated(svc));
  }

  lemma HolderRuns(hosts: map<string, Host>, g: Stage, k: nat)
    requires HostsOk(hosts, g, k) && k > 0
    ensures !g.Deploying? && Holding(hosts[g.a], g.a, g.port)
  {
    assert Drop(hosts, g.a, k)[g.a].edge == hosts[g.a].edge;
  }

  lemma OrderRead(hosts: map<string, Host>, g: Stage, k: nat)
    requires HostsOk(hosts, g, k) && k > 0
    ensures var h := hosts[g.a]; HostsOk(hosts[g.a := h.(inbox := h.inbox[1..])], g, k - 1)
  {
    DropRead(hosts, g.a, k);
  }

  lemma DropRead(hosts: map<string, Host>, a: string, k: nat)
    requires a in hosts && 0 < k <= |hosts[a].inbox|
    ensures var h := hosts[a]; Drop(hosts[a := h.(inbox := h.inbox[1..])], a, k - 1) == Drop(hosts, a, k)
  {
    assert hosts[a].inbox[1..][k - 1..] == hosts[a].inbox[k..];
  }

  /** The first deployment arrives. */
  lemma DeployOk(t: Tracked, g: Stage, port: nat)
    requires Orderly(t, g, 0) && g.Deploying? && t.s.hosts[g.a].inbox != []
    ensures Orderly(Did(t, Base(HostReceive(g.a, port))), Held(g.a, port), 0)
  {
    var s, a := t.s, g.a;
    var h, svc := s.hosts[a], Service(a, port);
    DropNone(s.hosts, a);
    OneItem(h);
    var r := E.Deploy(h.edge, a, port);
    var hosts := s.hosts[a := h.(edge := r.e, inbox := h.inbox[1..])];
    PostShort(s.(hosts := hosts), r.out);
    DeployedHosts(s.hosts, a, port);
    SteadyOfHandovers(s.ctl.row.value, s.ctlInbox);
    SteadyAppend(s.ctl.row.value, s.ctlInbox, CAllocated(svc));
    CtlAppend(s.ctl.row.value, s.ctl.bts.value, s.ctlInbox, CAllocated(svc));
    HearAppend(s.eu.service, s.euInbox, UAllocated(svc));
  }

  lemma DeployedHosts(hosts: map<string, Host>, a: string, port: nat)
    requires HostsAt(hosts, Deploying(a)) && hosts[a].inbox != []
    ensures var h := hosts[a];
            HostsOk(hosts[a := h.(edge := E.Deploy(h.edge, a, port).e, inbox := h.inbox[1..])], Held(a, port), 0)
  {
    var h := hosts[a];
    OneItem(h);
    DropNone(hosts[a := h.(edge := E.Deploy(h.edge, a, port).e, inbox := h.inbox[1..])], a);
  }

  lemma {:induction false} SteadyOfHandovers(r: Row, ms: seq<CtlMsg>)
    requires forall m | m in ms :: m.CHandovered?
    ensures Learn(r, ms) == r && Landed(ms) == 0
    decreases |ms|
  {
    if ms == [] {
    } else {
      assert ms[0] in ms && forall m | m in ms[1..] :: m in ms;
      SteadyOfHandovers(r, ms[1..]);
    }
  }

  /** A migration order joins the queue of the source. */
  lemma OrderOk(t: Tracked, g: Stage, port: nat)
    requires Orderly(t, g, 0) && !g.Deploying? && t.s.hosts[g.a].inbox != []
    ensures Orderly(Did(t, Base(HostReceive(g.a, port))), g, 0)
  {
    var hosts, h := t.s.hosts, t.s.hosts[g.a];
    DropNone(hosts, g.a);
    HasTodo(h);
    HeadItem(h, hosts[g.job.server], g.job, g.left);
    var cmd := if h.inbox[0].EPreMigrate? then E.Prepare(g.job) else E.MigrateCmd(g.job);
    var h' := h.(edge := h.edge.(queue := h.edge.queue + [cmd]), inbox := h.inbox[1..]);
    OrderHost(h, g.a, g.job, port, h');
    QueueGrows(h, h', cmd);
    AlikeKeeps(hosts, g, g.a, h');
    HostsOnlyOk(t, g, hosts[g.a := h']);
  }

  lemma HostsOnlyOk(t: Tracked, g: Stage, hosts: map<string, Host>)
    requires GroundOk(t.s) && MindsOk(t, g) && HostsAt(hosts, g)
    ensures Orderly(Tracked(t.s.(hosts := hosts), t.due), g, 0)
  {
    DropNone(hosts, g.a);
  }

  /** The source thread runs a command. */
  lemma SourceRunOk(t: Tracked, g: Stage, k: nat, x: string)
    requires Orderly(t, g, k) && Enabled(t.s, SourceRun(x))
    ensures Ok(Did(t, Base(SourceRun(x))))
  {
    var h := t.s.hosts[x];
    if CmdItem(h.edge.queue[0]) == [] {
      MeasureOk(t, g, k, x);
    } else {
      CommandAtSource(t.s.hosts, g, k, x);
      DropNone(t.s.hosts, g.a);
      HeadItem(h, t.s.hosts[g.job.server], g.job, g.left);
      if h.edge.queue[0].Prepare? {
        PrepareOk(t, g);
      } else {
        MigrateOk(t, g);
      }
    }
  }

  lemma MeasureOk(t: Tracked, g: Stage, k: nat, x: string)
    requires Orderly(t, g, k) && Enabled(t.s, SourceRun(x)) && CmdItem(t.s.hosts[x].edge.queue[0]) == []
    ensures Orderly(Did(t, Base(SourceRun(x))), g, k)
  {
    var h := t.s.hosts[x];
    var r := E.SourceStep(h.edge, true);
    var h' := h.(edge := r.e, sourceAlive := r.ok);
    MeasuredItems(h, h');
    AlikeOk(t.s.hosts, g, k, x, h');
    PostShort(t.s.(hosts := t.s.hosts[x := h']), []);
    HostsChanged(t, g, k, t.s.hosts[x := h']);
  }

  lemma HostsChanged(t: Tracked, g: Stage, k: nat, hosts: map<string, Host>)
    requires Orderly(t, g, k) && HostsOk(hosts, g, k)
    ensures Orderly(Tracked(t.s.(hosts := hosts), t.due), g, k)
  {
  }

  lemma MeasuredItems(h: Host, h': Host)
    requires h.edge.queue != [] && CmdItem(h.edge.queue[0]) == [] && h.sourceAlive
    requires h' == h.(edge := E.SourceStep(h.edge, true).e, sourceAlive := E.SourceStep(h.edge, true).ok)
    ensures Alike(h, h') && E.SourceStep(h.edge, true).out == [] &&
            QueueItems(h'.edge.queue) == QueueItems(h.edge.queue)
  {
    MeasureHost(h, h');
    assert QueueItems(h.edge.queue) == [] + QueueItems(h.edge.queue[1..]) == QueueItems(h'.edge.queue);
  }

  /** Only the source of a migration has other commands, and then no orders wait. */
  lemma CommandAtSource(hosts: map<string, Host>, g: Stage, k: nat, x: string)
    requires HostsOk(hosts, g, k) && x in hosts && hosts[x].edge.queue != [] && CmdItem(hosts[x].edge.queue[0]) != []
    ensures g.Moving? && x == g.a && k == 0
  {
    assert Drop(hosts, g.a, k)[x].edge == hosts[x].edge;
    HeadOfTodo(Drop(hosts, g.a, k)[x]);
  }

  lemma PrepareOk(t: Tracked, g: Stage)
    requires Orderly(t, g, 0) && g.Moving? && Enabled(t.s, SourceRun(g.a))
    requires t.s.hosts[g.a].edge.queue[0] == E.Prepare(g.job)
    ensures Orderly(Did(t, Base(SourceRun(g.a))), g, 0)
  {
    DropNone(t.s.hosts, g.a);
    PreparedHosts(t.s, g);
    PreparedMinds(t, g);
    DropNone(SourceRan(t.s, g.a).hosts, g.a);
  }

  lemma PreparedHosts(s: Sys, g: Stage)
    requires HostsAt(s.hosts, g) && g.Moving? && Enabled(s, SourceRun(g.a))
    requires s.hosts[g.a].edge.queue[0] == E.Prepare(g.job)
    ensures var s' := SourceRan(s, g.a);
            && HostsAt(s'.hosts, g)
            && (s' == s.(hosts := s'.hosts) ||
                s' == s.(hosts := s'.hosts, ctlInbox := s.ctlInbox + [CPreMigrated(g.job)]))
  {
    var h := s.hosts[g.a];
    var r := E.SourceStep(h.edge, true);
    PostShort(s.(hosts := s.hosts[g.a := h.(edge := r.e, sourceAlive := r.ok)]), r.out);
    PrepareHosts(s.hosts, g);
  }

  lemma PreparedMinds(t: Tracked, g: Stage)
    requires GroundOk(t.s) && MindsOk(t, g) && g.Moving?
    ensures var s' := t.s.(ctlInbox := t.s.ctlInbox + [CPreMigrated(g.job)]);
            GroundOk(s') && MindsOk(Tracked(s', t.due), g)
  {
    CtlAppend(t.s.ctl.row.value, t.s.ctl.bts.value, t.s.ctlInbox, CPreMigrated(g.job));
    SteadyAppend(t.s.ctl.row.value, t.s.ctlInbox, CPreMigrated(g.job));
  }

  lemma MigrateOk(t: Tracked, g: Stage)
    requires Orderly(t, g, 0) && g.Moving? && Enabled(t.s, SourceRun(g.a))
    requires t.s.hosts[g.a].edge.queue[0] == E.MigrateCmd(g.job)
    ensures Orderly(Did(t, Base(SourceRun(g.a))), g.(left := true), 0)
  {
    DropNone(t.s.hosts, g.a);
    MigratedHosts(t.s, g);
    HostsOnlyOk(t, g.(left := true), SourceRan(t.s, g.a).hosts);
  }

  lemma MigratedHosts(s: Sys, g: Stage)
    requires HostsAt(s.hosts, g) && g.Moving? && Enabled(s, SourceRun(g.a))
    requires s.hosts[g.a].edge.queue[0] == E.MigrateCmd(g.job)
    ensures var s' := SourceRan(s, g.a); s' == s.(hosts := s'.hosts) && HostsAt(s'.hosts, g.(left := true))
  {
    var h := s.hosts[g.a];
    var r := E.SourceStep(h.edge, true);
    MigrateHosts(s.hosts, g);
    PostShort(s.(hosts := s.hosts[g.a := h.(edge := r.e, sourceAlive := r.ok)]), [E.SendMigrate(g.job)]);
  }

  /** The destination thread handles a datagram. */
  lemma DestRunOk(t: Tracked, g: Stage, k: nat, x: string, free: Option<nat>)
    requires Orderly(t, g, k) && Enabled(t.s, DestRun(x, free))
    ensures Ok(Did(t, Base(DestRun(x, free))))
  {
    DatagramAtDestination(t.s.hosts, g, k, x);
    DropNone(t.s.hosts, g.a);
    HeadItem(t.s.hosts[g.a], t.s.hosts[x], g.job, g.left);
    if t.s.hosts[x].dgrams[0].DPrepare? {
      DestPrepareOk(t, g, free);
    } else {
      LandOk(t, g, free);
    }
  }

  lemma DestPrepareOk(t: Tracked, g: Stage, free: Option<nat>)
    requires Orderly(t, g, 0) && g.Moving? && Enabled(t.s, DestRun(g.job.server, free))
    requires t.s.hosts[g.job.server].dgrams[0] == DPrepare(g.job)
    ensures Orderly(Did(t, Base(DestRun(g.job.server, free))), g, 0)
  {
    DropNone(t.s.hosts, g.a);
    CreatedHosts(t.s, g, free);
    HostsOnlyOk(t, g, DestRan(t.s, g.job.server, free).hosts);
  }

  lemma CreatedHosts(s: Sys, g: Stage, free: Option<nat>)
    requires HostsAt(s.hosts, g) && g.Moving? && Enabled(s, DestRun(g.job.server, free))
    requires s.hosts[g.job.server].dgrams[0] == DPrepare(g.job)
    ensures var s' := DestRan(s, g.job.server, free); s' == s.(hosts := s'.hosts) && HostsAt(s'.hosts, g)
  {
    var h := s.hosts[g.job.server];
    var r := E.DestPrepare(h.edge, free);
    DestPrepareHosts(s.hosts, g, free);
    PostShort(s.(hosts := s.hosts[g.job.server := h.(edge := r.e, dgrams := h.dgrams[1..], destAlive := r.ok)]), []);
  }

  lemma DatagramAtDestination(hosts: map<string, Host>, g: Stage, k: nat, x: string)
    requires HostsOk(hosts, g, k) && x in hosts && hosts[x].dgrams != []
    ensures g.Moving? && x == g.job.server && k == 0
  {
    assert Drop(hosts, g.a, k)[x].dgrams == hosts[x].dgrams;
  }

  lemma LandOk(t: Tracked, g: Stage, free: Option<nat>)
    requires Orderly(t, g, 0) && g.Moving? && Enabled(t.s, DestRun(g.job.server, free))
    requires t.s.hosts[g.job.server].dgrams[0] == DMigrate(g.job)
    ensures Ok(Did(t, Base(DestRun(g.job.server, free))))
  {
    var s, x := t.s, g.job.server;
    DropNone(s.hosts, g.a);
    LandHosts(s.hosts, g);
    var h := s.hosts[x];
    var p := h.edge.container.port;
    var r := E.DestMigrate(h.edge, g.job, true);
    var hosts := s.hosts[x := h.(edge := r.e, dgrams := h.dgrams[1..], destAlive := r.ok)];
    DropNone(hosts, x);
    LandedMinds(t, g, p);
    PostShort(s.(hosts := hosts), [E.PubMigrated(Service(x, p))]);
    var t' := Did(t, Base(DestRun(x, free)));
    assert t'.s.hosts == hosts;
    assert Orderly(t', Held(x, p), 0);
  }

  /** The announcement of the landing. */
  lemma LandedMinds(t: Tracked, g: Stage, port: nat)
    requires GroundOk(t.s) && MindsOk(t, g) && g.Moving?
    ensures var svc := Service(g.job.server, port);
            var s' := t.s.(ctlInbox := t.s.ctlInbox + [CMigrated(svc)], euInbox := t.s.euInbox + [UMigrated(svc)]);
            GroundOk(s') && MindsOk(Tracked(s', t.due), Held(g.job.server, port))
  {
    var s, svc := t.s, Service(g.job.server, port);
    SteadyAppend(s.ctl.row.value, s.ctlInbox, CMigrated(svc));
    CtlAppend(s.ctl.row.value, s.ctl.bts.value, s.ctlInbox, CMigrated(svc));
    HearAppend(s.eu.service, s.euInbox, UMigrated(svc));
  }

  lemma MonitoredOk(t: Tracked, g: Stage, k: nat, x: string, cmd: E.Cmd)
    requires Orderly(t, g, k) && Enabled(t.s, Monitored(x, cmd))
    ensures Orderly(Did(t, Base(Monitored(x, cmd))), g, k)
  {
    var h := t.s.hosts[x];
    var h' := h.(edge := h.edge.(queue := h.edge.queue + [cmd]));
    MonitoredHost(h, cmd, h');
    QueueAppend(h.edge.queue, cmd);
    AlikeOk(t.s.hosts, g, k, x, h');
    HostsChanged(t, g, k, t.s.hosts[x := h']);
  }

  lemma DiesOk(t: Tracked, g: Stage, k: nat, x: string, source: bool)
    requires Orderly(t, g, k) && x in t.s.hosts
    ensures Orderly(Did(t, Base(Dies(x, source))), g, k)
  {
    var h' := DeadHost(t.s.hosts[x], source);
    AlikeOk(t.s.hosts, g, k, x, h');
    HostsChanged(t, g, k, t.s.hosts[x := h']);
    assert Did(t, Base(Dies(x, source))) == Tracked(t.s.(hosts := t.s.hosts[x := h']), t.due);
  }

  function DeadHost(h: Host, source: bool): (h': Host)
    ensures Alike(h, h') && h'.inbox == h.inbox && h'.edge == h.edge
  {
    if source then h.(sourceAlive := false) else h.(destAlive := false)
  }

  lemma ReconnectOk(t: Tracked, g: Stage, k: nat)
    requires Orderly(t, g, k) && !t.s.eu.connected
    ensures Orderly(Did(t, Base(Reconnect)), g, k)
  {
    var m := CHandovered(t.s.eu.ssid);
    CtlAppend(t.s.ctl.row.value, t.s.ctl.bts.value, t.s.ctlInbox, m);
    SteadyAppend(t.s.ctl.row.value, t.s.ctlInbox, m);
  }

  lemma EuReceiveOk(t: Tracked, g: Stage, k: nat, known: bool)
    requires Orderly(t, g, k) && t.s.euInbox != []
    ensures Orderly(Did(t, Base(EuReceive(known))), g, k)
  {
    EuMinds(t, g, known);
    assert Did(t, Base(EuReceive(known))).s.hosts == t.s.hosts;
  }

  lemma EuMinds(t: Tracked, g: Stage, known: bool)
    requires GroundOk(t.s) && MindsOk(t, g) && t.s.euInbox != []
    ensures var t' := Did(t, Base(EuReceive(known))); GroundOk(t'.s) && MindsOk(t', g)
  {
    var s := t.s;
    assert Hear(s.eu.service, s.euInbox) == Hear(EuHandle(s.eu, s.euInbox[0], known).service, s.euInbox[1..]);
  }

  // --------------------------------------------------------------------- plans

  /** After the handover half of a plan. */
  function Handed(t: Tracked, plan: Plan): Tracked {
    var h := ThresholdHandover(t.s.ctl, plan);
    Tracked(PublishAll(t.s.(ctl := h.c), h.out), t.due)
  }

  /** After the migration half. */
  function Ordered(t: Tracked, plan: Plan, json: bool): Tracked {
    var m := ThresholdMigration(t.s.ctl, plan, json);
    var lost := t.s.jsonLost || (!json && m.c.row != t.s.ctl.row);
    Tracked(PublishAll(t.s.(ctl := m.c, jsonLost := lost), m.out), t.due + Migrates(m.out))
  }

  predicate OnlyHands(t: Tracked, plan: Plan) {
    var h := ThresholdHandover(t.s.ctl, plan);
    && Handed(t, plan).s.ctl == h.c && h.c.row == t.s.ctl.row && Migrates(h.out) == 0
    && Handed(t, plan).s.jsonLost == t.s.jsonLost
  }

  /** A plan that only hands the user over. */
  lemma HandoverOk(t: Tracked, g: Stage, k: nat, plan: Plan)
    requires Orderly(t, g, k)
    ensures Orderly(Handed(t, plan), g, k) && Handed(t, plan).s.hosts == t.s.hosts && OnlyHands(t, plan)
  {
    HandoverMinds(t, g, plan);
    assert Handed(t, plan).s.hosts == t.s.hosts;
  }

  lemma HandoverMinds(t: Tracked, g: Stage, plan: Plan)
    requires GroundOk(t.s) && MindsOk(t, g)
    ensures GroundOk(Handed(t, plan).s) && MindsOk(Handed(t, plan), g)
    ensures Handed(t, plan).s.hosts == t.s.hosts && OnlyHands(t, plan)
  {
    var h := ThresholdHandover(t.s.ctl, plan);
    assert h.out == [] || h.out == [Handover(plan.bts)];
    assert h.out != [] ==> h.out[1..] == [];
    PublishShort(t.s.(ctl := h.c), h.out);
    HearAppend(t.s.eu.service, t.s.euInbox, UHandover(plan.bts));
  }

  /** The migration half publishes nothing, or both orders. */
  lemma MigrationOut(s: Sys, plan: Plan, json: bool)
    requires GroundOk(s)
    ensures var m, job := ThresholdMigration(s.ctl, plan, json), Job(plan.server, plan.bts);
            && (m.out == [] ||
                (m.out == [PreMigrate(s.ctl.row.value.server, job), Migrate(s.ctl.row.value.server, job)] &&
                 plan.server != s.ctl.row.value.server))
            && Migrates(m.out) == (if m.out == [] then 0 else 1)
  {
    var m, job := ThresholdMigration(s.ctl, plan, json), Job(plan.server, plan.bts);
    var a := s.ctl.row.value.server;
    assert PreMigrateBit in s.ctl.bits.value + {PreMigrateBit} && PreMigrateBit !in RUNNING_STATE;
    MigratesPair(a, job);
  }

  lemma MigratesPair(a: string, job: Job)
    ensures Migrates([PreMigrate(a, job), Migrate(a, job)]) == 1
  {
    MigratesConcat([PreMigrate(a, job)], [Migrate(a, job)]);
    assert [PreMigrate(a, job)] + [Migrate(a, job)] == [PreMigrate(a, job), Migrate(a, job)];
    assert [PreMigrate(a, job)][1..] == [] && [Migrate(a, job)][1..] == [];
  }

  lemma {:induction false} MigratesConcat(a: seq<Effect>, b: seq<Effect>)
    ensures Migrates(a + b) == Migrates(a) + Migrates(b)
  {
    if a == [] {
      assert a + b == b;
    } else {
      assert (a + b)[0] == a[0] && (a + b)[1..] == a[1..] + b;
      MigratesConcat(a[1..], b);
    }
  }

  /** A plan is its handover half and then its migration half. */
  lemma PlanSplit(s: Sys, plan: Plan, json: bool)
    requires s.ctl.row.Some?
    ensures var h := ThresholdHandover(s.ctl, plan);
            var m := ThresholdMigration(h.c, plan, json);
            var lost := s.jsonLost || (!json && m.c.row != s.ctl.row);
            var s1 := PublishAll(s.(ctl := h.c), h.out);
            && Planned(s, plan, json) == PublishAll(s1.(ctl := m.c, jsonLost := lost), m.out)
            && Started(s, RunPlan(plan, json)) == Migrates(h.out) + Migrates(m.out)
  {
    var h := ThresholdHandover(s.ctl, plan);
    var m := ThresholdMigration(h.c, plan, json);
    var lost := s.jsonLost || (!json && m.c.row != s.ctl.row);
    PublishHandover(s, plan, h.c, s.jsonLost);
    PublishHandover(s, plan, m.c, lost);
    PublishConcat(s.(ctl := m.c, jsonLost := lost), h.out, m.out);
    MigratesConcat(h.out, m.out);
  }

  lemma PlanOk(t: Tracked, g: Stage, k: nat, plan: Plan, json: bool)
    requires Orderly(t, g, k) && Enabled(t.s, RunPlan(plan, json))
    requires Started(t.s, RunPlan(plan, json)) > 0 ==> t.due == 0
    ensures Ok(Did(t, Base(RunPlan(plan, json))))
  {
    HandoverOk(t, g, k, plan);
    PlanDid(t, plan, json);
    MigrationHalfOk(Handed(t, plan), g, k, plan, json);
  }

  lemma PlanDid(t: Tracked, plan: Plan, json: bool)
    requires Enabled(t.s, RunPlan(plan, json)) && OnlyHands(t, plan)
    ensures Started(t.s, RunPlan(plan, json)) == Migrates(ThresholdMigration(Handed(t, plan).s.ctl, plan, json).out)
    ensures Did(t, Base(RunPlan(plan, json))) == Ordered(Handed(t, plan), plan, json)
  {
    PlanSplit(t.s, plan, json);
  }

  lemma MigrationHalfOk(t: Tracked, g: Stage, k: nat, plan: Plan, json: bool)
    requires Orderly(t, g, k) && plan.server in t.s.hosts
    requires Migrates(ThresholdMigration(t.s.ctl, plan, json).out) > 0 ==> t.due == 0
    ensures Ok(Ordered(t, plan, json))
  {
    MigrationOut(t.s, plan, json);
    if ThresholdMigration(t.s.ctl, plan, json).out == [] {
      QuietPlanOk(t, g, k, plan, json);
    } else {
      MovingPlanOk(t, g, k, plan, json);
    }
  }

  /** A plan that publishes no order. */
  lemma QuietPlanOk(t: Tracked, g: Stage, k: nat, plan: Plan, json: bool)
    requires Orderly(t, g, k) && ThresholdMigration(t.s.ctl, plan, json).out == []
    ensures Orderly(Ordered(t, plan, json), g, k)
  {
    QuietMinds(t, g, plan, json);
    assert Ordered(t, plan, json).s.hosts == t.s.hosts;
  }

  lemma QuietMinds(t: Tracked, g: Stage, plan: Plan, json: bool)
    requires GroundOk(t.s) && MindsOk(t, g) && ThresholdMigration(t.s.ctl, plan, json).out == []
    ensures var t' := Ordered(t, plan, json); t'.s.hosts == t.s.hosts && GroundOk(t'.s) && MindsOk(t', g)
  {
    var m := ThresholdMigration(t.s.ctl, plan, json);
    PublishShort(t.s.(ctl := m.c, jsonLost := t.s.jsonLost || (!json && m.c.row != t.s.ctl.row)), []);
    LearnWhere(t.s.ctl.row.value, PreMigratePhase, t.s.ctlInbox);
  }

  /** A plan that starts a migration while nothing is due. */
  lemma MovingPlanOk(t: Tracked, g: Stage, k: nat, plan: Plan, json: bool)
    requires Orderly(t, g, k) && t.due == 0 && plan.server in t.s.hosts
    requires ThresholdMigration(t.s.ctl, plan, json).out != []
    ensures Ok(Ordered(t, plan, json))
  {
    var s, m, job := t.s, ThresholdMigration(t.s.ctl, plan, json), Job(plan.server, plan.bts);
    var lost := s.jsonLost || (!json && m.c.row != s.ctl.row);
    MigrationOut(s, plan, json);
    SteadyQuiet(s.ctl.row.value, s.ctlInbox);
    LearnWhere(s.ctl.row.value, PreMigratePhase, s.ctlInbox);
    assert g.Held? && s.ctl.row.value.server == g.a;
    var s' := s.(ctl := m.c, jsonLost := lost);
    OrdersSent(s', g.a, job, m);
    OrdersJoin(s.hosts, g, k, job);
    assert Orderly(Ordered(t, plan, json), Moving(g.a, g.port, job, false), k);
  }

  lemma OrdersJoin(hosts: map<string, Host>, g: Stage, k: nat, job: Job)
    requires HostsOk(hosts, g, k) && g.Held? && job.server in hosts && job.server != g.a
    ensures var h := hosts[g.a];
            HostsOk(hosts[g.a := h.(inbox := h.inbox + [EPreMigrate(job)] + [EMigrate(job)])],
                Moving(g.a, g.port, job, false), k)
  {
    var h, d := hosts[g.a], Drop(hosts, g.a, k);
    MigrationHosts(d, g.a, g.port, job);
    DropJoin(hosts, g.a, k, job);
    HasTodo(d[g.a]);
    assert d[job.server] == hosts[job.server];
  }

  lemma DropJoin(hosts: map<string, Host>, a: string, k: nat, job: Job)
    requires a in hosts && k <= |hosts[a].inbox|
    ensures var h, d := hosts[a], Drop(hosts, a, k);
            Drop(hosts[a := h.(inbox := h.inbox + [EPreMigrate(job)] + [EMigrate(job)])], a, k)
            == d[a := d[a].(inbox := d[a].inbox + [EPreMigrate(job)] + [EMigrate(job)])]
  {
    var h := hosts[a];
    assert (h.inbox + [EPreMigrate(job)] + [EMigrate(job)])[k..] == h.inbox[k..] + [EPreMigrate(job)] + [EMigrate(job)];
  }

  // ------------------------------------------------------------------ every run

  /** A controller that sends orders and migrations only while nothing is due. */
  predicate Careful(t: Tracked, act: Act) {
    match act
    case Base(step) => Enabled(t.s, step) && (Started(t.s, step) > 0 ==> t.due == 0)
    case Again(place) =>
      t.s.ctl.row.Some? && (Discovery(t.s.ctl, t.s.eu.ssid, true, place).out != [] ==> t.due == 0)
  }

  lemma ActOk(t: Tracked, act: Act)
    requires Ok(t) && Careful(t, act)
    ensures Ok(Did(t, act))
  {
    if !t.s.eu.discovered {
      FreshOk(t, act);
    } else {
      var g, k :| Orderly(t, g, k);
      match act {
        case Again(place) => AgainOk(t, g, k, place);
        case Base(step) => StepOk(t, g, k, step);
      }
    }
  }

  lemma StepOk(t: Tracked, g: Stage, k: nat, step: Step)
    requires Orderly(t, g, k) && Enabled(t.s, step) && (Started(t.s, step) > 0 ==> t.due == 0)
    ensures Ok(Did(t, Base(step)))
  {
    match step {
      case Discover(_) =>
      case RunPlan(plan, json) => PlanOk(t, g, k, plan, json);
      case CtlReceive => CtlReceiveOk(t, g, k);
      case HostReceive(x, port) => HostReceiveOk(t, g, k, x, port);
      case SourceRun(x) => SourceRunOk(t, g, k, x);
      case DestRun(x, free) => DestRunOk(t, g, k, x, free);
      case Monitored(x, cmd) => MonitoredOk(t, g, k, x, cmd);
      case Dies(x, source) => DiesOk(t, g, k, x, source);
      case EuReceive(known) => EuReceiveOk(t, g, k, known);
      case Reconnect => ReconnectOk(t, g, k);
    }
  }

  lemma FreshOk(t: Tracked, act: Act)
    requires Fresh(t.s) && t.due == 0 && Careful(t, act)
    ensures Ok(Did(t, act))
  {
    var step := act.step;
    if step.Discover? {
      DiscoverOk(t, step.place);
    } else {
      FreshStays(t.s, step);
      assert Fresh(Did(t, act).s) && Did(t, act).due == 0;
    }
  }

  lemma FreshStays(s: Sys, step: Step)
    requires Fresh(s) && Enabled(s, step) && !step.Discover?
    ensures Fresh(Apply(s, step)) && Started(s, step) == 0
  {
    forall x | x in s.hosts
      ensures s.hosts[x].inbox == []
    {
      HasTodo(s.hosts[x]);
    }
    match step {
      case SourceRun(x) => FreshSource(s, x);
      case _ =>
    }
  }

  lemma DiscoverOk(t: Tracked, place: string)
    requires Fresh(t.s) && t.due == 0 && place in t.s.hosts
    ensures Orderly(Did(t, Base(Discover(place))), Deploying(place), 0)
  {
    DiscoverKeeps(t.s, place);
    DiscoveredMind(t.s, place);
    DropNone(Discovered(t.s, place).hosts, place);
  }

  lemma DiscoveredMind(s: Sys, place: string)
    requires Fresh(s) && place in s.hosts
    ensures var t := Discovered(s, place);
            && t.ctl == Ctl(Some(INIT_STATE), Some(Row(place, None, InitPhase)), Some(s.eu.ssid), None, None)
            && t.ctlInbox == [] && t.euInbox == [] && t.eu == s.eu.(discovered := true) && !t.jsonLost
  {
    var o := Discovery(s.ctl, s.eu.ssid, true, place);
    PublishShort(s.(ctl := o.c, eu := s.eu.(discovered := true)), o.out);
  }

  // ------------------------------------------------------------- safe policies

  predicate Cautious(p: Policy) {
    p.orders.Never? || p.plans.Never? || (p.orders.WhenIdle? && p.plans.WhenIdle?)
  }

  /** Without orders the protocol's own invariant holds; without migrations nothing is
    * ever due, so everything is sent carefully. */
  ghost predicate Kept(p: Policy, t: Tracked) {
    if p.orders.Never? then SingleCopy.Inv(t.s) else Ok(t) && (p.plans.Never? ==> t.due == 0)
  }

  lemma ActKept(p: Policy, t: Tracked, act: Act)
    requires Cautious(p) && Kept(p, t) && Can(p, t, act)
    ensures Kept(p, Did(t, act))
  {
    if !p.orders.Never? {
      ActOk(t, act);
    } else if act.Base? {
      StepKeeps(t.s, act.step);
    } else {
      var o := Discovery(t.s.ctl, t.s.eu.ssid, true, act.place);
      assert o.out == [];
      PublishShort(t.s.(ctl := o.c), o.out);
      assert Did(t, act).s == t.s;
    }
  }

  lemma {:induction false} ActsKept(p: Policy, t: Tracked, acts: seq<Act>)
    requires Cautious(p) && Kept(p, t) && DidAll(p, t, acts).Some?
    ensures Kept(p, DidAll(p, t, acts).value)
    decreases |acts|
  {
    if acts == [] {
    } else {
      ActKept(p, t, acts[0]);
      ActsKept(p, Did(t, acts[0]), acts[1..]);
    }
  }

  lemma CautiousIsSafe(p: Policy)
    requires Cautious(p)
    ensures Safe(p)
  {
    forall s, acts | Initial(s) && DidAll(p, Tracked(s, 0), acts).Some?
      ensures OneCopy(DidAll(p, Tracked(s, 0), acts).value.s)
    {
      assert Fresh(s);
      ActsKept(p, Tracked(s, 0), acts);
      var t := DidAll(p, Tracked(s, 0), acts).value;
      if p.orders.Never? {
        InvIsOneCopy(t.s);
      } else {
        OkIsOneCopy(t);
      }
    }
  }

  /** The one server that runs the container, the database and the user name the same
    * place, and nothing is due. */
  ghost predicate Rests(t: Tracked, a: string, port: nat) {
    && t.due == 0 && a in t.s.hosts && t.s.hosts[a].edge.container == E.Up(port)
    && (forall x | x in t.s.hosts && x != a :: !t.s.hosts[x].edge.container.Up?)
    && t.s.ctl.row.Some? && t.s.ctl.row.value.server == a && t.s.ctl.row.value.port == Some(port)
    && t.s.eu.service == Some(Service(a, port))
    && (t.s.eu.connected ==> t.s.ctl.bts == Some(t.s.eu.ssid))
    && (!t.s.jsonLost ==> t.s.ctl.row.value.phase == RunningPhase)
  }

  /** A careful controller agrees with the servers and the user once nothing is pending. */
  lemma CarefulAgreement(s: Sys, acts: seq<Act>) returns (a: string, port: nat)
    requires Initial(s) && DidAll(Policy(WhenIdle, WhenIdle), Tracked(s, 0), acts).Some?
    requires var t := DidAll(Policy(WhenIdle, WhenIdle), Tracked(s, 0), acts).value; t.s.eu.discovered && Settled(t.s)
    ensures Rests(DidAll(Policy(WhenIdle, WhenIdle), Tracked(s, 0), acts).value, a, port)
  {
    var p := Policy(WhenIdle, WhenIdle);
    assert Fresh(s);
    ActsKept(p, Tracked(s, 0), acts);
    a, port := OkRests(DidAll(p, Tracked(s, 0), acts).value);
  }

  lemma OkRests(t: Tracked) returns (a: string, port: nat)
    requires Ok(t) && t.s.eu.discovered && Settled(t.s)
    ensures Rests(t, a, port)
  {
    var g, k :| Orderly(t, g, k);
    OrderlyRests(t, g, k);
    a, port := g.a, g.port;
  }

  lemma OrderlyRests(t: Tracked, g: Stage, k: nat)
    requires Orderly(t, g, k) && Settled(t.s)
    ensures g.Held? && Rests(t, g.a, g.port)
  {
    RestsAtHolder(t, g, k);
    HostsRest(t.s.hosts, g);
    MindsRest(t, g);
  }

  lemma HostsRest(hosts: map<string, Host>, g: Stage)
    requires HostsAt(hosts, g) && g.Held?
    ensures g.a in hosts && hosts[g.a].edge.container == E.Up(g.port)
    ensures forall x | x in hosts && x != g.a :: !hosts[x].edge.container.Up?
  {
  }

  lemma MindsRest(t: Tracked, g: Stage)
    requires GroundOk(t.s) && MindsOk(t, g) && g.Held? && t.s.ctlInbox == [] && t.s.euInbox == []
    ensures t.due == 0 && t.s.ctl.row.value.server == g.a && t.s.ctl.row.value.port == Some(g.port)
    ensures t.s.eu.service == Some(Service(g.a, g.port)) && (t.s.eu.connected ==> t.s.ctl.bts == Some(t.s.eu.ssid))
    ensures !t.s.jsonLost ==> t.s.ctl.row.value.phase == RunningPhase
  {
  }

  lemma RestsAtHolder(t: Tracked, g: Stage, k: nat)
    requires Orderly(t, g, k) && Settled(t.s)
    ensures g.Held? && k == 0 && Drop(t.s.hosts, g.a, k) == t.s.hosts
  {
    assert Todo(t.s.hosts[g.a]) == [];
    HasTodo(t.s.hosts[g.a]);
    DropNone(t.s.hosts, g.a);
    if g.Moving? {
      MovingIsBusy(t.s.hosts[g.a], t.s.hosts[g.job.server], g.job, g.left);
    }
  }
}
