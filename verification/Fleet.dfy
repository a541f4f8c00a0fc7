/** Many users at once.  Every user goes through the protocol of its own, but the inbox
  * of an edge server, the queue of its source thread and the socket of that thread are
  * shared.  Under a threshold planner no migrate ever finds the socket closed, so each
  * user's single copy is safe from the others. */
module Fleet {
  import opened Basics
  import opened Handlers
  import opened Protocol
  import opened SingleCopy
  import opened Pairs
  import T = SourceThread
  import E = EdgeHandlers

  /** A shared queue is given by the order of its entries; the entries themselves are in
    * the users' own queues, and the i-th of a user here is the i-th there. */
  datatype Server = Server(sock: bool, alive: bool, queue: seq<Token<string>>, inbox: seq<Token<string>>)

  datatype World = World(users: map<string, Sys>, servers: map<string, Server>)

  function MsgKind(m: EdgeMsg): Kind {
    match m
    case EDeploy => Measuring
    case EPreMigrate(_) => Preparing
    case EMigrate(_) => Migrating
  }

  function MsgKinds(q: seq<EdgeMsg>): seq<Kind> {
    if q == [] then [] else [MsgKind(q[0])] + MsgKinds(q[1..])
  }

  function CmdKinds(q: seq<E.Cmd>): seq<Kind> {
    if q == [] then [] else [T.KindOf(q[0])] + CmdKinds(q[1..])
  }

  function Marked(u: string, ks: seq<Kind>): seq<Token<string>> {
    if ks == [] then [] else [Token(u, ks[0])] + Marked(u, ks[1..])
  }

  /** A user's own entries of a shared queue. */
  function Of(ts: seq<Token<string>>, u: string): seq<Kind> {
    if ts == [] then [] else (if ts[0].who == u then [ts[0].kind] else []) + Of(ts[1..], u)
  }

  // -------------------------------------------------------------------- steps

  /** What a step of one user appends to a queue of that user. */
  function Added<X>(before: seq<X>, after: seq<X>): seq<X> {
    if |before| <= |after| then after[|before|..] else []
  }

  function QueueOf(s: Sys, x: string): seq<E.Cmd> {
    if x in s.hosts then s.hosts[x].edge.queue else []
  }

  datatype Move =
    | Own(u: string, step: Step)                 // a step that neither reads a shared queue nor uses the socket
    | Deliver(x: string, port: nat)              // server `x` handles its oldest message
    | Work(x: string)                            // its source thread runs its oldest command
    | Land(u: string, x: string, free: Option<nat>)   // its destination thread handles a datagram of `u`

  predicate IsOwn(step: Step) {
    !step.HostReceive? && !step.SourceRun? && !step.DestRun? && !step.Dies?
  }

  predicate CanMove(w: World, m: Move) {
    match m
    case Own(u, step) => u in w.users && IsOwn(step) && Enabled(w.users[u], step)
    case Deliver(x, _) => x in w.servers && w.servers[x].inbox != [] && MayRead(w, x)
    case Work(x) => x in w.servers && w.servers[x].alive && w.servers[x].queue != [] && MayWork(w, x)
    case Land(u, x, free) => u in w.users && Enabled(w.users[u], DestRun(x, free))
  }

  /** The shared queues fit the users' own, as they do in every run. */
  predicate MayRead(w: World, x: string)
    requires x in w.servers && w.servers[x].inbox != []
  {
    var u := w.servers[x].inbox[0].who;
    u in w.users && x in w.users[u].hosts && w.users[u].hosts[x].inbox != []
  }

  predicate MayWork(w: World, x: string)
    requires x in w.servers && w.servers[x].queue != []
  {
    var u := w.servers[x].queue[0].who;
    u in w.users && x in w.users[u].hosts && w.users[u].hosts[x].edge.queue != []
  }

  /** The servers after user `u` went from `s` to `t` without reading a shared queue. */
  function Grown(servers: map<string, Server>, u: string, s: Sys, t: Sys): map<string, Server> {
    map x | x in servers :: if x in s.hosts && x in t.hosts then
      servers[x].(inbox := servers[x].inbox + Marked(u, MsgKinds(Added(s.hosts[x].inbox, t.hosts[x].inbox))),
                  queue := servers[x].queue + Marked(u, CmdKinds(Added(s.hosts[x].edge.queue, t.hosts[x].edge.queue))))
      else servers[x]
  }

  /** The other users lose a thread of `x` that a command of `u` has ended. */
  function Bereaved(users: map<string, Sys>, u: string, x: string, source: bool): map<string, Sys> {
    map v | v in users :: if v != u && x in users[v].hosts then Apply(users[v], Dies(x, source)) else users[v]
  }

  function Moved(w: World, m: Move): World
    requires CanMove(w, m)
  {
    match m
    case Own(u, step) =>
      var t := Apply(w.users[u], step);
      World(w.users[u := t], Grown(w.servers, u, w.users[u], t))
    case Deliver(x, port) =>
      var u, srv := w.servers[x].inbox[0].who, w.servers[x];
      var t := HostRead(w.users[u], x, port);
      World(w.users[u := t], w.servers[x := srv.(inbox := srv.inbox[1..],
        queue := srv.queue + Marked(u, CmdKinds(Added(QueueOf(w.users[u], x), QueueOf(t, x)))))])
    case Work(x) =>
      var u, srv := w.servers[x].queue[0].who, w.servers[x];
      var e := w.users[u].hosts[x].edge;
      var t := SourceRanWith(w.users[u], x, srv.sock);
      var ok := E.SourceStep(e, srv.sock).ok;
      World(if ok then w.users[u := t] else Bereaved(w.users, u, x, true)[u := t],
            w.servers[x := srv.(queue := srv.queue[1..], alive := ok, sock := E.SockAfter(e, e.queue[0], srv.sock))])
    case Land(u, x, free) =>
      var t := DestRan(w.users[u], x, free);
      var h := w.users[u].hosts[x];
      World(if DestHandle(h.edge, h.dgrams[0], free).ok then w.users[u := t]
          else Bereaved(w.users, u, x, false)[u := t], w.servers)
  }

  ghost predicate Initial(w: World) {
    && (forall x | x in w.servers :: w.servers[x].queue == [] && w.servers[x].inbox == [])
    && forall u | u in w.users ::
         Protocol.Initial(w.users[u]) && w.users[u].hosts.Keys == w.servers.Keys &&
         forall x | x in w.users[u].hosts :: w.users[u].hosts[x].sourceAlive == w.servers[x].alive
  }

  function MovedAll(w: World, ms: seq<Move>): Option<World>
    decreases |ms|
  {
    if ms == [] then Some(w) else if !CanMove(w, ms[0]) then None else MovedAll(Moved(w, ms[0]), ms[1..])
  }

  // ---------------------------------------------------------------- invariant

  /** The shared queues of server `x` are those of user `u`, as far as `u` goes. */
  predicate Fits(srv: Server, h: Host, u: string) {
    && Of(srv.queue, u) == CmdKinds(h.edge.queue)
    && Of(srv.inbox, u) == MsgKinds(h.inbox)
    && h.sourceAlive == srv.alive
  }

  predicate QueuesOk(servers: map<string, Server>, s: Sys, u: string) {
    && s.hosts.Keys == servers.Keys
    && forall x | x in servers :: Fits(servers[x], s.hosts[x], u)
  }

  predicate KnownUsers(users: set<string>, ts: seq<Token<string>>) {
    forall i | 0 <= i < |ts| :: ts[i].who in users
  }

  /** The commands that run and the messages that wait come in pairs; of a pair whose
    * prepare has run already, the socket is open. */
  ghost predicate PairedServer(srv: Server) {
    srv.alive ==> exists p :: PairedFrom(srv.queue + srv.inbox, p) && (p.Some? ==> srv.sock)
  }

  predicate AllUsersOk(users: map<string, Sys>, servers: map<string, Server>) {
    forall u | u in users :: QueuesOk(servers, users[u], u)
  }

  ghost predicate AllServersOk(users: set<string>, servers: map<string, Server>) {
    forall x | x in servers :: ServerOk(users, servers[x])
  }

  ghost predicate AllQueuesOk(w: World) {
    AllUsersOk(w.users, w.servers) && AllServersOk(w.users.Keys, w.servers)
  }

  ghost predicate Inv(w: World) {
    AllQueuesOk(w) && AllSingle(w.users)
  }

  ghost predicate AllSingle(users: map<string, Sys>) {
    forall u | u in users :: SingleCopy.Inv(users[u])
  }

  ghost predicate ServerOk(users: set<string>, srv: Server) {
    KnownUsers(users, srv.queue) && KnownUsers(users, srv.inbox) && PairedServer(srv)
  }

  // ------------------------------------------------------------ shared queues

  lemma {:induction false} OfAppend(a: seq<Token<string>>, b: seq<Token<string>>, u: string)
    ensures Of(a + b, u) == Of(a, u) + Of(b, u)
  {
    if a == [] {
      assert a + b == b;
    } else {
      OfAppend(a[1..], b, u);
      assert (a + b)[0] == a[0] && (a + b)[1..] == a[1..] + b;
      OfHead(a, u);
      OfHead(a + b, u);
      Regroup(if a[0].who == u then [a[0].kind] else [], Of(a[1..], u), Of(b, u));
    }
  }

  lemma OfHead(ts: seq<Token<string>>, u: string)
    requires ts != []
    ensures Of(ts, u) == (if ts[0].who == u then [ts[0].kind] else []) + Of(ts[1..], u)
  {
  }

  lemma Regroup<X>(a: seq<X>, b: seq<X>, c: seq<X>)
    ensures a + (b + c) == (a + b) + c
  {
  }

  lemma {:induction false} OfMarked(u: string, ks: seq<Kind>, v: string)
    ensures Of(Marked(u, ks), v) == if u == v then ks else []
    ensures forall i | 0 <= i < |Marked(u, ks)| :: Marked(u, ks)[i].who == u
  {
    if ks == [] {
    } else {
      OfMarked(u, ks[1..], v);
    }
  }

  lemma {:induction false} MsgKindsAppend(a: seq<EdgeMsg>, b: seq<EdgeMsg>)
    ensures MsgKinds(a + b) == MsgKinds(a) + MsgKinds(b)
  {
    if a == [] {
      assert a + b == b;
    } else {
      assert (a + b)[0] == a[0] && (a + b)[1..] == a[1..] + b;
      MsgKindsAppend(a[1..], b);
    }
  }

  lemma {:induction false} CmdKindsAppend(a: seq<E.Cmd>, b: seq<E.Cmd>)
    ensures CmdKinds(a + b) == CmdKinds(a) + CmdKinds(b)
  {
    if a == [] {
      assert a + b == b;
    } else {
      assert (a + b)[0] == a[0] && (a + b)[1..] == a[1..] + b;
      CmdKindsAppend(a[1..], b);
    }
  }

  lemma AddedSuffix<X>(a: seq<X>, b: seq<X>)
    ensures Added(a, a + b) == b
  {
  }

  // ------------------------------------------------- what a user's steps change

  /** Posting changes no queue that is shared. */
  lemma {:induction false} PostLeaves(s: Sys, out: seq<E.Message>)
    ensures var t := PostAll(s, out);
            t.hosts.Keys == s.hosts.Keys && forall x | x in s.hosts :: SameQueues(s.hosts[x], t.hosts[x])
    decreases |out|
  {
    if out == [] {
    } else {
      PostLeaves(Post(s, out[0]), out[1..]);
    }
  }

  predicate SameQueues(h: Host, h': Host) {
    h'.inbox == h.inbox && h'.edge == h.edge && h'.sourceAlive == h.sourceAlive
  }

  /** What a user's own step may append to the inbox of a server: nothing, a deployment,
    * or the two messages of a migration. */
  predicate Appended(add: seq<EdgeMsg>) {
    add == [] || add == [EDeploy] || (|add| == 2 && add[0].EPreMigrate? && add[1] == EMigrate(add[0].job))
  }

  predicate Measurements(cmds: seq<E.Cmd>) {
    cmds == [] || (|cmds| == 1 && T.KindOf(cmds[0]) == Measuring)
  }

  /** The shared queues of one host grow by these. */
  predicate GrowsBy(h: Host, h': Host, add: seq<EdgeMsg>, cmds: seq<E.Cmd>) {
    && h'.inbox == h.inbox + add && Appended(add)
    && h'.edge.queue == h.edge.queue + cmds && Measurements(cmds)
    && h'.sourceAlive == h.sourceAlive
  }

  lemma Unchanged(h: Host)
    ensures GrowsBy(h, h, [], [])
  {
  }

  lemma OwnGrows(s: Sys, step: Step, x: string) returns (add: seq<EdgeMsg>, cmds: seq<E.Cmd>)
    requires SingleCopy.Inv(s) && IsOwn(step) && Enabled(s, step) && x in s.hosts
    ensures Apply(s, step).hosts.Keys == s.hosts.Keys
    ensures GrowsBy(s.hosts[x], Apply(s, step).hosts[x], add, cmds)
  {
    add, cmds := [], [];
    match step {
      case Discover(place) =>
        assert Fresh(s);
        add := DiscoverGrows(s, place, x);
      case RunPlan(plan, json) =>
        add := PlanGrows(s, plan, json, x);
      case CtlReceive =>
        CtlGrows(s, x);
      case Monitored(y, cmd) =>
        cmds := MonitoredGrows(s, y, cmd, x);
      case EuReceive(_) =>
        Unchanged(s.hosts[x]);
      case Reconnect =>
        Unchanged(s.hosts[x]);
    }
  }

  lemma DiscoverGrows(s: Sys, place: string, x: string) returns (add: seq<EdgeMsg>)
    requires Fresh(s) && place in s.hosts && x in s.hosts
    ensures Discovered(s, place).hosts.Keys == s.hosts.Keys
    ensures GrowsBy(s.hosts[x], Discovered(s, place).hosts[x], add, [])
  {
    var o := Discovery(s.ctl, s.eu.ssid, true, place);
    PublishShort(s.(ctl := o.c, eu := s.eu.(discovered := true)), o.out);
    add := if x == place then [EDeploy] else [];
  }

  lemma CtlGrows(s: Sys, x: string)
    requires SingleCopy.Inv(s) && s.ctlInbox != [] && x in s.hosts
    ensures CtlRead(s).hosts == s.hosts && GrowsBy(s.hosts[x], s.hosts[x], [], [])
  {
    CtlLearns(s);
    PublishShort(s.(ctl := CtlHandle(s.ctl, s.ctlInbox[0]).c, ctlInbox := s.ctlInbox[1..]), []);
  }

  lemma MonitoredGrows(s: Sys, y: string, cmd: E.Cmd, x: string) returns (cmds: seq<E.Cmd>)
    requires Enabled(s, Monitored(y, cmd)) && x in s.hosts
    ensures GrowsBy(s.hosts[x], Apply(s, Monitored(y, cmd)).hosts[x], [], cmds)
  {
    cmds := if x == y then [cmd] else [];
  }

  lemma PlanGrows(s: Sys, plan: Plan, json: bool, x: string) returns (add: seq<EdgeMsg>)
    requires SingleCopy.Inv(s) && Enabled(s, RunPlan(plan, json)) && x in s.hosts
    ensures Planned(s, plan, json).hosts.Keys == s.hosts.Keys
    ensures GrowsBy(s.hosts[x], Planned(s, plan, json).hosts[x], add, [])
  {
    var g :| InvAt(s, g);
    var hosts, source := PlanHosts(s, g, plan, json);
    add := if source == Some(x) then [EPreMigrate(Job(plan.server, plan.bts)), EMigrate(Job(plan.server, plan.bts))]
        else [];
    Unchanged(s.hosts[x]);
  }

  /** A plan appends nothing, or a prepare and a migrate to the inbox of one server. */
  lemma PlanHosts(s: Sys, g: Stage, plan: Plan, json: bool) returns (hosts: map<string, Host>, source: Option<string>)
    requires InvAt(s, g) && plan.server in s.hosts
    ensures hosts == Planned(s, plan, json).hosts
    ensures match source
            case None => hosts == s.hosts
            case Some(a) =>
              var job := Job(plan.server, plan.bts);
              a in s.hosts && var h := s.hosts[a];
              hosts == s.hosts[a := h.(inbox := h.inbox + [EPreMigrate(job)] + [EMigrate(job)])]
  {
    var h := ThresholdHandover(s.ctl, plan);
    var m := ThresholdMigration(h.c, plan, json);
    var lost := s.jsonLost || (!json && m.c.row != s.ctl.row);
    var t := PublishAll(s.(ctl := h.c), h.out);
    HandoverPlanKeeps(s, g, plan);
    PublishHandover(s, plan, h.c, s.jsonLost);
    PublishHandover(s, plan, m.c, lost);
    PublishConcat(s.(ctl := m.c, jsonLost := lost), h.out, m.out);
    var t' := t.(ctl := m.c, jsonLost := lost);
    assert Planned(s, plan, json) == PublishAll(t', m.out);
    hosts, source := Planned(s, plan, json).hosts, None;
    PublishShort(t', m.out);
    if m.out != [] {
      source := Some(g.a);
      OrderedFromHolder(t, g, plan, json);
      OrdersSent(t', g.a, Job(plan.server, plan.bts), m);
    }
  }

  /** Only the server that holds the container gets orders to move it. */
  lemma OrderedFromHolder(s: Sys, g: Stage, plan: Plan, json: bool)
    requires InvAt(s, g) && ThresholdMigration(s.ctl, plan, json).out != []
    ensures g.a in s.hosts
    ensures var job := Job(plan.server, plan.bts);
            ThresholdMigration(s.ctl, plan, json).out == [PreMigrate(g.a, job), Migrate(g.a, job)]
  {
    LearnQuiet(s.ctl.row.value, s.ctlInbox);
    OrdersBoth(s.ctl, plan, json);
  }

  /** A plan that publishes anything publishes both orders, to the server of the row. */
  lemma OrdersBoth(c: Ctl, plan: Plan, json: bool)
    requires ThresholdMigration(c, plan, json).out != [] && c.row.Some? && c.bits.Some?
    requires c.row.value.phase == RunningPhase ==> MigrateBit !in c.bits.value
    ensures c.row.value.phase == RunningPhase
    ensures var job := Job(plan.server, plan.bts);
            ThresholdMigration(c, plan, json).out == [PreMigrate(c.row.value.server, job),
                Migrate(c.row.value.server, job)]
  {
    var bits := c.bits.value + {PreMigrateBit};
    assert PreMigrateBit in bits && PreMigrateBit !in RUNNING_STATE;
  }

  // ------------------------------------------------------------- own steps keep

  lemma FitsGrown(srv: Server, srv': Server, h: Host, h': Host, u: string, add: seq<EdgeMsg>, cmds: seq<E.Cmd>)
    requires Fits(srv, h, u) && GrowsBy(h, h', add, cmds)
    requires srv' == srv.(inbox := srv.inbox + Marked(u, MsgKinds(add)), queue := srv.queue + Marked(u, CmdKinds(cmds)))
    ensures Fits(srv', h', u)
  {
    OfAppend(srv.inbox, Marked(u, MsgKinds(add)), u);
    OfAppend(srv.queue, Marked(u, CmdKinds(cmds)), u);
    OfMarked(u, MsgKinds(add), u);
    OfMarked(u, CmdKinds(cmds), u);
    MsgKindsAppend(h.inbox, add);
    CmdKindsAppend(h.edge.queue, cmds);
  }

  /** Another user's entries are not disturbed. */
  lemma FitsOther(srv: Server, srv': Server, h: Host, v: string, u: string, msgs: seq<Kind>, cmds: seq<Kind>)
    requires Fits(srv, h, v) && u != v
    requires srv' == srv.(inbox := srv.inbox + Marked(u, msgs), queue := srv.queue + Marked(u, cmds))
    ensures Fits(srv', h, v)
  {
    OfOther(srv.inbox, u, msgs, v);
    OfOther(srv.queue, u, cmds, v);
  }

  lemma OfOther(ts: seq<Token<string>>, u: string, ks: seq<Kind>, v: string)
    requires u != v
    ensures Of(ts + Marked(u, ks), v) == Of(ts, v)
  {
    OfAppend(ts, Marked(u, ks), v);
    OfMarked(u, ks, v);
  }

  lemma PairedGrown(srv: Server, srv': Server, u: string, add: seq<EdgeMsg>, cmds: seq<E.Cmd>)
    requires PairedServer(srv) && Appended(add) && Measurements(cmds)
    requires srv' == srv.(inbox := srv.inbox + Marked(u, MsgKinds(add)), queue := srv.queue + Marked(u, CmdKinds(cmds)))
    ensures PairedServer(srv')
  {
    if srv.alive {
      var p :| PairedFrom(srv.queue + srv.inbox, p) && (p.Some? ==> srv.sock);
      QueueGrownPaired(srv.queue, srv.inbox, u, cmds, p);
      InboxGrownPaired(srv'.queue, srv.inbox, u, add, p);
    }
  }

  lemma QueueGrownPaired(queue: seq<Token<string>>, inbox: seq<Token<string>>, u: string, cmds: seq<E.Cmd>,
                         p: Option<string>)
    requires PairedFrom(queue + inbox, p) && Measurements(cmds)
    ensures PairedFrom(queue + Marked(u, CmdKinds(cmds)) + inbox, p)
  {
    if cmds == [] {
      assert queue + [] == queue;
    } else {
      assert cmds[1..] == [] && Marked(u, CmdKinds(cmds)) == [Token(u, Measuring)];
      DropMeasuring(queue, Token(u, Measuring), inbox, p);
    }
  }

  lemma InboxGrownPaired(queue: seq<Token<string>>, inbox: seq<Token<string>>, u: string, add: seq<EdgeMsg>,
                         p: Option<string>)
    requires PairedFrom(queue + inbox, p) && Appended(add)
    ensures PairedFrom(queue + (inbox + Marked(u, MsgKinds(add))), p)
  {
    var more := Marked(u, MsgKinds(add));
    assert queue + (inbox + more) == (queue + inbox) + more;
    if add == [] {
      assert (queue + inbox) + [] == queue + inbox;
    } else if |add| == 1 {
      OneMsg(EDeploy);
      OneMarked(u, Measuring);
      assert more == Marked(u, [Measuring]) == [Token(u, Measuring)];
      assert (queue + inbox) + more == (queue + inbox) + [Token(u, Measuring)] + [];
      assert (queue + inbox) + [] == queue + inbox;
      DropMeasuring(queue + inbox, Token(u, Measuring), [], p);
    } else {
      PairMarked(u, add);
      AppendPair(queue + inbox, u, p);
    }
  }

  lemma OneMsg(m: EdgeMsg)
    ensures MsgKinds([m]) == [MsgKind(m)]
  {
    assert [m][1..] == [];
  }

  lemma OneMarked(u: string, k: Kind)
    ensures Marked(u, [k]) == [Token(u, k)]
  {
    assert [k][1..] == [];
  }

  lemma PairMarked(u: string, add: seq<EdgeMsg>)
    requires |add| == 2 && Appended(add)
    ensures Marked(u, MsgKinds(add)) == [Token(u, Preparing), Token(u, Migrating)]
  {
    OneMsg(add[0]);
    OneMsg(add[1]);
    MsgKindsAppend([add[0]], [add[1]]);
    assert add == [add[0]] + [add[1]] && MsgKinds(add) == [Preparing, Migrating];
    assert [Preparing, Migrating][1..] == [Migrating] && [Migrating][1..] == [];
    assert Marked(u, [Migrating]) == [Token(u, Migrating)];
  }

  function GrownBy(srv: Server, u: string, add: seq<EdgeMsg>, cmds: seq<E.Cmd>): Server {
    srv.(inbox := srv.inbox + Marked(u, MsgKinds(add)), queue := srv.queue + Marked(u, CmdKinds(cmds)))
  }

  ghost predicate Grows(h: Host, h': Host) {
    exists add, cmds :: GrowsBy(h, h', add, cmds)
  }

  /** Every shared queue of the user grows as it may. */
  ghost predicate AllGrow(servers: map<string, Server>, s: Sys, t: Sys) {
    && s.hosts.Keys == t.hosts.Keys == servers.Keys
    && forall x | x in servers :: Grows(s.hosts[x], t.hosts[x])
  }

  lemma GrownAt(servers: map<string, Server>, u: string, s: Sys, t: Sys, x: string)
    returns (add: seq<EdgeMsg>, cmds: seq<E.Cmd>)
    requires x in servers && x in s.hosts && x in t.hosts && Grows(s.hosts[x], t.hosts[x])
    ensures GrowsBy(s.hosts[x], t.hosts[x], add, cmds)
    ensures Grown(servers, u, s, t)[x] == GrownBy(servers[x], u, add, cmds)
  {
    add, cmds :| GrowsBy(s.hosts[x], t.hosts[x], add, cmds);
    AddedSuffix(s.hosts[x].inbox, add);
    AddedSuffix(s.hosts[x].edge.queue, cmds);
  }

  lemma GrownFits(servers: map<string, Server>, u: string, s: Sys, t: Sys)
    requires QueuesOk(servers, s, u) && AllGrow(servers, s, t)
    ensures QueuesOk(Grown(servers, u, s, t), t, u)
  {
    var servers' := Grown(servers, u, s, t);
    forall x | x in servers'
      ensures Fits(servers'[x], t.hosts[x], u)
    {
      var add, cmds := GrownAt(servers, u, s, t, x);
      FitsGrown(servers[x], servers'[x], s.hosts[x], t.hosts[x], u, add, cmds);
    }
  }

  lemma GrownFitsOther(servers: map<string, Server>, u: string, s: Sys, t: Sys, sv: Sys, v: string)
    requires QueuesOk(servers, sv, v) && AllGrow(servers, s, t) && u != v
    ensures QueuesOk(Grown(servers, u, s, t), sv, v)
  {
    var servers' := Grown(servers, u, s, t);
    forall x | x in servers'
      ensures Fits(servers'[x], sv.hosts[x], v)
    {
      var add, cmds := GrownAt(servers, u, s, t, x);
      FitsOther(servers[x], servers'[x], sv.hosts[x], v, u, MsgKinds(add), CmdKinds(cmds));
    }
  }

  lemma GrownServer(users: set<string>, servers: map<string, Server>, u: string, s: Sys, t: Sys, x: string)
    requires x in servers && ServerOk(users, servers[x]) && AllGrow(servers, s, t) && u in users
    ensures ServerOk(users, Grown(servers, u, s, t)[x])
  {
    var add, cmds := GrownAt(servers, u, s, t, x);
    GrownByOk(users, servers[x], u, add, cmds);
  }

  lemma GrownByOk(users: set<string>, srv: Server, u: string, add: seq<EdgeMsg>, cmds: seq<E.Cmd>)
    requires ServerOk(users, srv) && u in users && Appended(add) && Measurements(cmds)
    ensures ServerOk(users, GrownBy(srv, u, add, cmds))
  {
    PairedGrown(srv, GrownBy(srv, u, add, cmds), u, add, cmds);
    KnownGrown(users, srv.inbox, u, MsgKinds(add));
    KnownGrown(users, srv.queue, u, CmdKinds(cmds));
  }

  lemma KnownGrown(users: set<string>, ts: seq<Token<string>>, u: string, ks: seq<Kind>)
    requires KnownUsers(users, ts) && u in users
    ensures KnownUsers(users, ts + Marked(u, ks))
  {
    OfMarked(u, ks, u);
  }

  lemma OwnAllGrow(servers: map<string, Server>, s: Sys, step: Step)
    requires SingleCopy.Inv(s) && s.hosts.Keys == servers.Keys && IsOwn(step) && Enabled(s, step)
    ensures AllGrow(servers, s, Apply(s, step))
  {
    OwnKeys(s, step);
    forall x | x in servers
      ensures Grows(s.hosts[x], Apply(s, step).hosts[x])
    {
      var add, cmds := OwnGrows(s, step, x);
    }
  }

  lemma OwnKeeps(w: World, u: string, step: Step)
    requires Inv(w) && CanMove(w, Own(u, step))
    ensures Inv(Moved(w, Own(u, step)))
  {
    OwnAllGrow(w.servers, w.users[u], step);
    GrownKeeps(w, u, Apply(w.users[u], step));
    StepKeeps(w.users[u], step);
    OneSingle(w.users, u, Apply(w.users[u], step));
  }

  lemma GrownKeeps(w: World, u: string, t: Sys)
    requires AllQueuesOk(w) && u in w.users && AllGrow(w.servers, w.users[u], t)
    ensures AllQueuesOk(World(w.users[u := t], Grown(w.servers, u, w.users[u], t)))
  {
    GrownKeepsUsers(w, u, t);
    GrownKeepsServers(w, u, t);
    assert w.users[u := t].Keys == w.users.Keys;
  }

  lemma GrownKeepsUsers(w: World, u: string, t: Sys)
    requires u in w.users && AllGrow(w.servers, w.users[u], t)
    requires AllUsersOk(w.users, w.servers)
    ensures AllUsersOk(w.users[u := t], Grown(w.servers, u, w.users[u], t))
  {
    var users' := w.users[u := t];
    forall v | v in users'
      ensures QueuesOk(Grown(w.servers, u, w.users[u], t), users'[v], v)
    {
      GrownKeepsUser(w.servers, u, w.users[u], t, v, w.users[v]);
    }
  }

  lemma GrownKeepsServers(w: World, u: string, t: Sys)
    requires u in w.users && AllGrow(w.servers, w.users[u], t)
    requires AllServersOk(w.users.Keys, w.servers)
    ensures AllServersOk(w.users.Keys, Grown(w.servers, u, w.users[u], t))
  {
    var servers' := Grown(w.servers, u, w.users[u], t);
    forall x | x in servers'
      ensures ServerOk(w.users.Keys, servers'[x])
    {
      GrownServer(w.users.Keys, w.servers, u, w.users[u], t, x);
    }
  }

  lemma GrownKeepsUser(servers: map<string, Server>, u: string, s: Sys, t: Sys, v: string, sv: Sys)
    requires QueuesOk(servers, s, u) && QueuesOk(servers, sv, v) && AllGrow(servers, s, t)
    ensures QueuesOk(Grown(servers, u, s, t), if u == v then t else sv, v)
  {
    if u == v {
      GrownFits(servers, u, s, t);
    } else {
      GrownFitsOther(servers, u, s, t, sv, v);
    }
  }

  lemma OwnKeys(s: Sys, step: Step)
    requires SingleCopy.Inv(s) && IsOwn(step) && Enabled(s, step)
    ensures Apply(s, step).hosts.Keys == s.hosts.Keys
  {
    if x :| x in s.hosts {
      var add, cmds := OwnGrows(s, step, x);
    } else {
      NoHosts(s, step);
    }
  }

  lemma NoHosts(s: Sys, step: Step)
    requires s.hosts == map[] && IsOwn(step) && Enabled(s, step)
    ensures Apply(s, step).hosts == map[]
  {
    if step.CtlReceive? {
      PublishNowhere(s.(ctl := CtlHandle(s.ctl, s.ctlInbox[0]).c, ctlInbox := s.ctlInbox[1..]),
          CtlHandle(s.ctl, s.ctlInbox[0]).out);
    }
  }

  lemma {:induction false} PublishNowhere(s: Sys, out: seq<Effect>)
    requires s.hosts == map[]
    ensures PublishAll(s, out).hosts == map[]
    decreases |out|
  {
    if out == [] {
    } else {
      PublishNowhere(Publish(s, out[0]), out[1..]);
    }
  }

  // ----------------------------------------------------------- shared steps keep

  /** A message that is read goes into the queue as a command of the same kind; only a
    * deployment leaves none. */
  lemma ReadMoves(s: Sys, x: string, port: nat) returns (cmds: seq<E.Cmd>)
    requires SingleCopy.Inv(s) && x in s.hosts && s.hosts[x].inbox != []
    ensures Queued(s.hosts[x], HostHandle(s.hosts[x].edge, x, s.hosts[x].inbox[0], port).e.queue, cmds)
  {
    var h := s.hosts[x];
    MessageMeansDiscovered(s, x);
    var g :| InvAt(s, g);
    assert InboxItems(h.inbox) != [] && Todo(h) != [] && x == g.a;
    if g.Deploying? {
      OneItem(h);
      cmds := [];
    } else {
      cmds := OrderMoves(h, s.hosts[g.job.server], g.a, g.job, g.left, port);
    }
  }

  lemma OrderMoves(h: Host, dst: Host, x: string, job: Job, left: bool, port: nat) returns (cmds: seq<E.Cmd>)
    requires Pipeline(h, dst, job, left) && h.inbox != [] && job.server != x && h.edge.listed != []
    ensures Queued(h, HostHandle(h.edge, x, h.inbox[0], port).e.queue, cmds)
  {
    HeadItem(h, dst, job, left);
    var cmd := if h.inbox[0].EPreMigrate? then E.Prepare(job) else E.MigrateCmd(job);
    OrderHost(h, x, job, port, h.(edge := h.edge.(queue := h.edge.queue + [cmd]), inbox := h.inbox[1..]));
    cmds := [cmd];
  }

  lemma MessageMeansDiscovered(s: Sys, x: string)
    requires SingleCopy.Inv(s) && x in s.hosts && s.hosts[x].inbox != []
    ensures s.eu.discovered
  {
    assert InboxItems(s.hosts[x].inbox) != [];
  }

  lemma ReadHosts(s: Sys, x: string, port: nat)
    requires x in s.hosts && s.hosts[x].inbox != []
    ensures var h, t := s.hosts[x], HostRead(s, x, port);
            && t.hosts.Keys == s.hosts.Keys
            && t.hosts[x].inbox == h.inbox[1..] && t.hosts[x].sourceAlive == h.sourceAlive
            && t.hosts[x].edge == HostHandle(h.edge, x, h.inbox[0], port).e
            && forall y | y in s.hosts && y != x :: SameQueues(s.hosts[y], t.hosts[y])
  {
    var h := s.hosts[x];
    var r := HostHandle(h.edge, x, h.inbox[0], port);
    PostLeaves(s.(hosts := s.hosts[x := h.(edge := r.e, inbox := h.inbox[1..])]), r.out);
  }

  predicate Queued(h: Host, queue: seq<E.Cmd>, cmds: seq<E.Cmd>)
    requires h.inbox != []
  {
    && queue == h.edge.queue + cmds
    && (if h.inbox[0].EDeploy? then cmds == [] else |cmds| == 1 && T.KindOf(cmds[0]) == MsgKind(h.inbox[0]))
  }

  /** The servers after a message was read. */
  function ReadServer(srv: Server, u: string, cmds: seq<E.Cmd>): Server
    requires srv.inbox != []
  {
    srv.(inbox := srv.inbox[1..], queue := srv.queue + Marked(u, CmdKinds(cmds)))
  }

  lemma PairedRead(srv: Server, u: string, h: Host, cmds: seq<E.Cmd>)
    requires PairedServer(srv) && srv.inbox != [] && srv.inbox[0].who == u && Fits(srv, h, u)
    requires h.inbox != [] && Queued(h, h.edge.queue + cmds, cmds)
    ensures PairedServer(ReadServer(srv, u, cmds))
  {
    if srv.alive {
      var p :| PairedFrom(srv.queue + srv.inbox, p) && (p.Some? ==> srv.sock);
      var t, rest := srv.inbox[0], srv.inbox[1..];
      assert t == Token(u, MsgKind(h.inbox[0])) by {
        assert Of(srv.inbox, u)[0] == t.kind;
      }
      assert srv.inbox == [t] + rest;
      if cmds == [] {
        assert srv.queue + srv.inbox == srv.queue + [t] + rest && srv.queue + [] == srv.queue;
        DropMeasuring(srv.queue, t, rest, p);
      } else {
        assert cmds[1..] == [] && CmdKinds(cmds) == [t.kind] && [t.kind][1..] == [];
        assert Marked(u, CmdKinds(cmds)) == [t];
        assert srv.queue + [t] + rest == srv.queue + srv.inbox;
      }
    }
  }

  lemma FitsRead(srv: Server, u: string, h: Host, h': Host, cmds: seq<E.Cmd>)
    requires srv.inbox != [] && srv.inbox[0].who == u && Fits(srv, h, u)
    requires h.inbox != [] && Queued(h, h'.edge.queue, cmds) && h'.inbox == h.inbox[1..]
    requires h'.sourceAlive == h.sourceAlive
    ensures Fits(ReadServer(srv, u, cmds), h', u)
  {
    OfAppend(srv.queue, Marked(u, CmdKinds(cmds)), u);
    OfMarked(u, CmdKinds(cmds), u);
    CmdKindsAppend(h.edge.queue, cmds);
    assert MsgKinds(h.inbox)[1..] == MsgKinds(h.inbox[1..]);
    assert Of(srv.inbox, u)[1..] == Of(srv.inbox[1..], u);
  }

  lemma FitsReadOther(srv: Server, u: string, h: Host, v: string, cmds: seq<E.Cmd>)
    requires srv.inbox != [] && srv.inbox[0].who == u && u != v && Fits(srv, h, v)
    ensures Fits(ReadServer(srv, u, cmds), h, v)
  {
    OfAppend(srv.queue, Marked(u, CmdKinds(cmds)), v);
    OfMarked(u, CmdKinds(cmds), v);
    assert Of(srv.inbox, v) == [] + Of(srv.inbox[1..], v);
  }

  /** The server map after a change of server `x` that suits user `v`. */
  lemma ServerChanged(servers: map<string, Server>, s: Sys, t: Sys, v: string, x: string, srv: Server)
    requires QueuesOk(servers, s, v) && x in servers && t.hosts.Keys == s.hosts.Keys
    requires Fits(srv, t.hosts[x], v)
    requires forall y | y in s.hosts && y != x :: SameQueues(s.hosts[y], t.hosts[y])
    ensures QueuesOk(servers[x := srv], t, v)
  {
    forall y | y in servers[x := srv]
      ensures Fits(servers[x := srv][y], t.hosts[y], v)
    {
      if y != x {
        assert Fits(servers[y], s.hosts[y], v) && SameQueues(s.hosts[y], t.hosts[y]);
      }
    }
  }

  lemma ServersChanged(users: set<string>, servers: map<string, Server>, x: string, srv: Server)
    requires AllServersOk(users, servers) && ServerOk(users, srv)
    ensures AllServersOk(users, servers[x := srv])
  {
  }

  /** User `u` went from its state to `t` as server `x` read its oldest message. */
  ghost predicate HasRead(s: Sys, t: Sys, x: string, cmds: seq<E.Cmd>) {
    && t.hosts.Keys == s.hosts.Keys && x in s.hosts && s.hosts[x].inbox != []
    && t.hosts[x].inbox == s.hosts[x].inbox[1..] && t.hosts[x].sourceAlive == s.hosts[x].sourceAlive
    && Queued(s.hosts[x], t.hosts[x].edge.queue, cmds)
    && forall y | y in s.hosts && y != x :: SameQueues(s.hosts[y], t.hosts[y])
  }

  lemma ReadKeepsOther(servers: map<string, Server>, u: string, sv: Sys, v: string, x: string, cmds: seq<E.Cmd>)
    requires QueuesOk(servers, sv, v) && u != v
    requires x in servers && servers[x].inbox != [] && servers[x].inbox[0].who == u
    ensures QueuesOk(servers[x := ReadServer(servers[x], u, cmds)], sv, v)
  {
    assert Fits(servers[x], sv.hosts[x], v);
    FitsReadOther(servers[x], u, sv.hosts[x], v, cmds);
    ServerChanged(servers, sv, sv, v, x, ReadServer(servers[x], u, cmds));
  }

  lemma ReadKeepsSelf(servers: map<string, Server>, u: string, s: Sys, t: Sys, x: string, cmds: seq<E.Cmd>)
    requires QueuesOk(servers, s, u) && HasRead(s, t, x, cmds)
    requires x in servers && servers[x].inbox != [] && servers[x].inbox[0].who == u
    ensures QueuesOk(servers[x := ReadServer(servers[x], u, cmds)], t, u)
  {
    assert Fits(servers[x], s.hosts[x], u);
    FitsRead(servers[x], u, s.hosts[x], t.hosts[x], cmds);
    ServerChanged(servers, s, t, u, x, ReadServer(servers[x], u, cmds));
  }

  lemma ReadServerOk(users: set<string>, srv: Server, u: string, h: Host, queue: seq<E.Cmd>, cmds: seq<E.Cmd>)
    requires ServerOk(users, srv) && u in users && srv.inbox != [] && srv.inbox[0].who == u && Fits(srv, h, u)
    requires h.inbox != [] && Queued(h, queue, cmds)
    ensures ServerOk(users, ReadServer(srv, u, cmds))
  {
    PairedRead(srv, u, h, cmds);
    KnownGrown(users, srv.queue, u, CmdKinds(cmds));
  }

  lemma OneUserChanged(users: map<string, Sys>, servers: map<string, Server>, u: string, t: Sys)
    requires QueuesOk(servers, t, u) && forall v | v in users && v != u :: QueuesOk(servers, users[v], v)
    ensures AllUsersOk(users[u := t], servers)
  {
  }

  lemma ReadKeeps(w: World, u: string, t: Sys, x: string, cmds: seq<E.Cmd>)
    requires AllQueuesOk(w) && u in w.users && x in w.servers && w.servers[x].inbox != []
    requires w.servers[x].inbox[0].who == u
    requires HasRead(w.users[u], t, x, cmds)
    ensures AllQueuesOk(World(w.users[u := t], w.servers[x := ReadServer(w.servers[x], u, cmds)]))
  {
    assert w.users[u := t].Keys == w.users.Keys;
    assert QueuesOk(w.servers, w.users[u], u);
    ReadKeepsServers(w.users.Keys, w.servers, u, w.users[u], t, x, cmds);
    ReadKeepsUsers(w.users, w.servers, u, t, x, cmds);
  }

  lemma ReadKeepsServers(users: set<string>, servers: map<string, Server>, u: string, s: Sys, t: Sys,
                         x: string, cmds: seq<E.Cmd>)
    requires AllServersOk(users, servers) && u in users && QueuesOk(servers, s, u) && HasRead(s, t, x, cmds)
    requires x in servers && servers[x].inbox != [] && servers[x].inbox[0].who == u
    ensures AllServersOk(users, servers[x := ReadServer(servers[x], u, cmds)])
  {
    ReadServerOk(users, servers[x], u, s.hosts[x], t.hosts[x].edge.queue, cmds);
    ServersChanged(users, servers, x, ReadServer(servers[x], u, cmds));
  }

  lemma ReadKeepsUsers(users: map<string, Sys>, servers: map<string, Server>, u: string, t: Sys, x: string,
                       cmds: seq<E.Cmd>)
    requires AllUsersOk(users, servers) && u in users && HasRead(users[u], t, x, cmds)
    requires x in servers && servers[x].inbox != [] && servers[x].inbox[0].who == u
    ensures AllUsersOk(users[u := t], servers[x := ReadServer(servers[x], u, cmds)])
  {
    ReadKeepsSelf(servers, u, users[u], t, x, cmds);
    forall v | v in users && v != u
      ensures QueuesOk(servers[x := ReadServer(servers[x], u, cmds)], users[v], v)
    {
      ReadKeepsOther(servers, u, users[v], v, x, cmds);
    }
    OneUserChanged(users, servers[x := ReadServer(servers[x], u, cmds)], u, t);
  }

  lemma DeliverKeeps(w: World, x: string, port: nat)
    requires Inv(w) && CanMove(w, Deliver(x, port))
    ensures Inv(Moved(w, Deliver(x, port)))
  {
    var u := w.servers[x].inbox[0].who;
    var s := w.users[u];
    var t := HostRead(s, x, port);
    var cmds := ReadMoves(s, x, port);
    HasReadHost(s, x, port, cmds);
    DeliverMoved(w, u, x, port, t, cmds);
    ReadKeeps(w, u, t, x, cmds);
    StepKeeps(s, HostReceive(x, port));
    assert Apply(s, HostReceive(x, port)) == t;
    OneSingle(w.users, u, t);
  }

  lemma HasReadHost(s: Sys, x: string, port: nat, cmds: seq<E.Cmd>)
    requires x in s.hosts && s.hosts[x].inbox != []
    requires Queued(s.hosts[x], HostHandle(s.hosts[x].edge, x, s.hosts[x].inbox[0], port).e.queue, cmds)
    ensures HasRead(s, HostRead(s, x, port), x, cmds)
  {
    ReadHosts(s, x, port);
  }

  lemma DeliverMoved(w: World, u: string, x: string, port: nat, t: Sys, cmds: seq<E.Cmd>)
    requires CanMove(w, Deliver(x, port)) && u == w.servers[x].inbox[0].who && t == HostRead(w.users[u], x, port)
    requires HasRead(w.users[u], t, x, cmds)
    ensures Moved(w, Deliver(x, port)) == World(w.users[u := t], w.servers[x := ReadServer(w.servers[x], u, cmds)])
  {
    AddedSuffix(w.users[u].hosts[x].edge.queue, cmds);
  }

  lemma OneSingle(users: map<string, Sys>, u: string, t: Sys)
    requires AllSingle(users) && SingleCopy.Inv(t)
    ensures AllSingle(users[u := t])
  {
  }

  /** In a paired queue a migrate that is about to run finds the socket open. */
  lemma SocketIsOpen(w: World, x: string)
    requires Inv(w) && x in w.servers && w.servers[x].alive && w.servers[x].queue != []
    requires w.servers[x].queue[0].kind == Migrating
    ensures w.servers[x].sock
  {
    assert ServerOk(w.users.Keys, w.servers[x]);
    HeadPaired(w.servers[x]);
  }

  lemma HeadPaired(srv: Server)
    requires PairedServer(srv) && srv.alive && srv.queue != [] && srv.queue[0].kind == Migrating
    ensures srv.sock
  {
    var p :| PairedFrom(srv.queue + srv.inbox, p) && (p.Some? ==> srv.sock);
    assert (srv.queue + srv.inbox)[0] == srv.queue[0];
  }

  /** With the socket open whenever a migrate runs, a user's source thread does what it
    * does for that user alone. */
  lemma RanAlone(s: Sys, x: string, sock: bool)
    requires x in s.hosts && s.hosts[x].edge.queue != [] && (s.hosts[x].edge.queue[0].MigrateCmd? ==> sock)
    ensures SourceRanWith(s, x, sock) == SourceRan(s, x)
    ensures E.SourceStep(s.hosts[x].edge, sock) == E.SourceStep(s.hosts[x].edge, true)
  {
  }

  /** The oldest entry of the shared queue is its user's oldest command. */
  lemma HeadFits(srv: Server, h: Host)
    requires srv.queue != [] && Fits(srv, h, srv.queue[0].who)
    ensures h.edge.queue != [] && srv.queue[0].kind == T.KindOf(h.edge.queue[0])
  {
    assert Of(srv.queue, srv.queue[0].who)[0] == srv.queue[0].kind;
  }

  /** The server after the command ran. */
  function WorkServer(srv: Server, e: E.Edge, ok: bool): Server
    requires srv.queue != [] && e.queue != []
  {
    srv.(queue := srv.queue[1..], alive := ok, sock := E.SockAfter(e, e.queue[0], srv.sock))
  }

  lemma WorkServerOk(users: set<string>, srv: Server, h: Host, ok: bool)
    requires ServerOk(users, srv) && srv.alive && srv.queue != [] && Fits(srv, h, srv.queue[0].who)
    requires h.edge.queue != []
    ensures ServerOk(users, WorkServer(srv, h.edge, ok))
  {
    HeadFits(srv, h);
    var p :| PairedFrom(srv.queue + srv.inbox, p) && (p.Some? ==> srv.sock);
    var head := srv.queue[0];
    var next := match head.kind case Measuring => p case Preparing => Some(head.who) case Migrating => None;
    assert (srv.queue + srv.inbox)[0] == head && (srv.queue + srv.inbox)[1..] == srv.queue[1..] + srv.inbox;
    assert PairedFrom(srv.queue[1..] + srv.inbox, next);
  }

  /** User `v`'s host after the command ran, when the command was not `v`'s. */
  function Widowed(h: Host, ok: bool): Host {
    if ok then h else h.(sourceAlive := false)
  }

  lemma FitsWorkOther(srv: Server, e: E.Edge, ok: bool, h: Host, v: string)
    requires srv.queue != [] && e.queue != [] && srv.alive && Fits(srv, h, v) && v != srv.queue[0].who
    ensures Fits(WorkServer(srv, e, ok), Widowed(h, ok), v)
  {
    assert Of(srv.queue, v) == [] + Of(srv.queue[1..], v);
  }

  lemma FitsWork(srv: Server, h: Host, h': Host)
    requires srv.queue != [] && h.edge.queue != [] && Fits(srv, h, srv.queue[0].who)
    requires h'.edge.queue == h.edge.queue[1..] && h'.inbox == h.inbox
    ensures Fits(WorkServer(srv, h.edge, h'.sourceAlive), h', srv.queue[0].who)
  {
    assert Of(srv.queue, srv.queue[0].who)[1..] == Of(srv.queue[1..], srv.queue[0].who);
    assert CmdKinds(h.edge.queue)[1..] == CmdKinds(h.edge.queue[1..]);
  }

  /** User `u` went from `s` to `t` as the source thread of `x` ran its oldest command. */
  predicate HasWorked(s: Sys, t: Sys, x: string, ok: bool) {
    && t.hosts.Keys == s.hosts.Keys && x in s.hosts && s.hosts[x].edge.queue != []
    && t.hosts[x].edge.queue == s.hosts[x].edge.queue[1..] && t.hosts[x].inbox == s.hosts[x].inbox
    && t.hosts[x].sourceAlive == ok
    && forall y | y in s.hosts && y != x :: SameQueues(s.hosts[y], t.hosts[y])
  }

  lemma WorkHosts(s: Sys, x: string)
    requires x in s.hosts && s.hosts[x].edge.queue != []
    ensures HasWorked(s, SourceRan(s, x), x, E.SourceStep(s.hosts[x].edge, true).ok)
  {
    var h := s.hosts[x];
    var r := E.SourceStep(h.edge, true);
    assert r.e.queue == h.edge.queue[1..];
    PostLeaves(s.(hosts := s.hosts[x := h.(edge := r.e, sourceAlive := r.ok)]), r.out);
  }

  lemma WorkMoved(w: World, u: string, x: string, t: Sys)
    requires CanMove(w, Work(x)) && u == w.servers[x].queue[0].who && t == SourceRan(w.users[u], x)
    requires w.users[u].hosts[x].edge.queue[0].MigrateCmd? ==> w.servers[x].sock
    ensures var e := w.users[u].hosts[x].edge;
            var ok := E.SourceStep(e, true).ok;
            Moved(w, Work(x)) == World(Survivors(w.users, u, x, true, ok)[u := t],
                                       w.servers[x := WorkServer(w.servers[x], e, ok)])
  {
    RanAlone(w.users[u], x, w.servers[x].sock);
  }

  /** The users after a command of `u` left its thread at `x` alive or not. */
  function Survivors(users: map<string, Sys>, u: string, x: string, source: bool, ok: bool): map<string, Sys> {
    if ok then users else Bereaved(users, u, x, source)
  }

  lemma SurvivorsSingle(users: map<string, Sys>, u: string, x: string, source: bool, ok: bool)
    requires AllSingle(users)
    ensures AllSingle(Survivors(users, u, x, source, ok))
  {
    forall v | v in users
      ensures SingleCopy.Inv(Survivors(users, u, x, source, ok)[v])
    {
      if x in users[v].hosts {
        StepKeeps(users[v], Dies(x, source));
      }
    }
  }

  lemma WorkKeepsSelf(servers: map<string, Server>, s: Sys, t: Sys, x: string, ok: bool)
    requires x in servers && servers[x].queue != [] && QueuesOk(servers, s, servers[x].queue[0].who)
    requires HasWorked(s, t, x, ok)
    ensures QueuesOk(servers[x := WorkServer(servers[x], s.hosts[x].edge, ok)], t, servers[x].queue[0].who)
  {
    var u := servers[x].queue[0].who;
    assert Fits(servers[x], s.hosts[x], u);
    FitsWork(servers[x], s.hosts[x], t.hosts[x]);
    ServerChanged(servers, s, t, u, x, WorkServer(servers[x], s.hosts[x].edge, ok));
  }

  lemma SurvivorHosts(users: map<string, Sys>, u: string, v: string, x: string, ok: bool)
    requires v in users && v != u && x in users[v].hosts
    ensures var all := Survivors(users, u, x, true, ok);
            && v in all && all[v].hosts.Keys == users[v].hosts.Keys
            && all[v].hosts[x] == Widowed(users[v].hosts[x], ok)
            && forall y | y in users[v].hosts && y != x :: SameQueues(users[v].hosts[y], all[v].hosts[y])
  {
  }

  lemma WorkKeepsOther(servers: map<string, Server>, users: map<string, Sys>, u: string, e: E.Edge, v: string,
                       x: string, ok: bool)
    requires v in users && QueuesOk(servers, users[v], v) && v != u && e.queue != []
    requires x in servers && servers[x].alive && servers[x].queue != [] && servers[x].queue[0].who == u
    ensures v in Survivors(users, u, x, true, ok)
    ensures QueuesOk(servers[x := WorkServer(servers[x], e, ok)], Survivors(users, u, x, true, ok)[v], v)
  {
    var s, t := users[v], Survivors(users, u, x, true, ok)[v];
    assert Fits(servers[x], s.hosts[x], v);
    FitsWorkOther(servers[x], e, ok, s.hosts[x], v);
    SurvivorHosts(users, u, v, x, ok);
    ServerChanged(servers, s, t, v, x, WorkServer(servers[x], e, ok));
  }

  lemma WorkKeepsUsers(users: map<string, Sys>, servers: map<string, Server>, u: string, t: Sys, x: string, ok: bool)
    requires AllUsersOk(users, servers) && u in users && HasWorked(users[u], t, x, ok)
    requires x in servers && servers[x].alive && servers[x].queue != [] && servers[x].queue[0].who == u
    ensures AllUsersOk(Survivors(users, u, x, true, ok)[u := t],
                       servers[x := WorkServer(servers[x], users[u].hosts[x].edge, ok)])
  {
    var e, all := users[u].hosts[x].edge, Survivors(users, u, x, true, ok);
    WorkKeepsSelf(servers, users[u], t, x, ok);
    forall v | v in all && v != u
      ensures QueuesOk(servers[x := WorkServer(servers[x], e, ok)], all[v], v)
    {
      WorkKeepsOther(servers, users, u, e, v, x, ok);
    }
    OneUserChanged(all, servers[x := WorkServer(servers[x], e, ok)], u, t);
  }

  lemma WorkKeepsServers(users: set<string>, servers: map<string, Server>, h: Host, x: string, ok: bool)
    requires AllServersOk(users, servers) && x in servers && servers[x].alive && servers[x].queue != []
    requires Fits(servers[x], h, servers[x].queue[0].who) && h.edge.queue != []
    ensures AllServersOk(users, servers[x := WorkServer(servers[x], h.edge, ok)])
  {
    WorkServerOk(users, servers[x], h, ok);
    ServersChanged(users, servers, x, WorkServer(servers[x], h.edge, ok));
  }

  lemma WorkKeeps(w: World, x: string)
    requires Inv(w) && CanMove(w, Work(x))
    ensures Inv(Moved(w, Work(x)))
  {
    var u := w.servers[x].queue[0].who;
    var s := w.users[u];
    var h := s.hosts[x];
    var ok := E.SourceStep(h.edge, true).ok;
    var t := SourceRan(s, x);
    FitsHere(w.users, w.servers, u, x);
    HeadFits(w.servers[x], h);
    if h.edge.queue[0].MigrateCmd? {
      SocketIsOpen(w, x);
    }
    WorkMoved(w, u, x, t);
    WorkKeepsQueues(w.users, w.servers, u, t, x, ok);
    WorkKeepsSingles(w.users, u, t, x, ok);
  }

  lemma WorkKeepsSingles(users: map<string, Sys>, u: string, t: Sys, x: string, ok: bool)
    requires AllSingle(users) && u in users && Enabled(users[u], SourceRun(x)) && t == SourceRan(users[u], x)
    ensures AllSingle(Survivors(users, u, x, true, ok)[u := t])
  {
    assert Apply(users[u], SourceRun(x)) == t;
    SurvivorsAllSingle(users, u, SourceRun(x), x, true, ok);
  }

  lemma FitsHere(users: map<string, Sys>, servers: map<string, Server>, u: string, x: string)
    requires AllUsersOk(users, servers) && u in users && x in servers
    ensures x in users[u].hosts && Fits(servers[x], users[u].hosts[x], u)
  {
    assert QueuesOk(servers, users[u], u);
  }

  lemma WorkKeepsQueues(users: map<string, Sys>, servers: map<string, Server>, u: string, t: Sys, x: string, ok: bool)
    requires AllQueuesOk(World(users, servers)) && u in users && x in servers && servers[x].alive
    requires servers[x].queue != [] && servers[x].queue[0].who == u && x in users[u].hosts
    requires users[u].hosts[x].edge.queue != []
    requires t == SourceRan(users[u], x) && ok == E.SourceStep(users[u].hosts[x].edge, true).ok
    ensures AllQueuesOk(World(Survivors(users, u, x, true, ok)[u := t],
                              servers[x := WorkServer(servers[x], users[u].hosts[x].edge, ok)]))
  {
    WorkHosts(users[u], x);
    WorkKeepsUsers(users, servers, u, t, x, ok);
    FitsHere(users, servers, u, x);
    WorkKeepsServers(users.Keys, servers, users[u].hosts[x], x, ok);
    SurvivorKeys(users, u, t, x, true, ok);
  }

  lemma SurvivorKeys(users: map<string, Sys>, u: string, t: Sys, x: string, source: bool, ok: bool)
    requires u in users
    ensures Survivors(users, u, x, source, ok)[u := t].Keys == users.Keys
  {
  }

  lemma SurvivorsAllSingle(users: map<string, Sys>, u: string, step: Step, x: string, source: bool, ok: bool)
    requires AllSingle(users) && u in users && Enabled(users[u], step)
    ensures AllSingle(Survivors(users, u, x, source, ok)[u := Apply(users[u], step)])
  {
    StepKeeps(users[u], step);
    SurvivorsSingle(users, u, x, source, ok);
    OneSingle(Survivors(users, u, x, source, ok), u, Apply(users[u], step));
  }

  /** A step that changes nothing that is shared. */
  predicate SameShared(s: Sys, t: Sys) {
    && t.hosts.Keys == s.hosts.Keys
    && forall x | x in s.hosts ::
         t.hosts[x].inbox == s.hosts[x].inbox && t.hosts[x].edge.queue == s.hosts[x].edge.queue &&
         t.hosts[x].sourceAlive == s.hosts[x].sourceAlive
  }

  lemma SharedKeeps(servers: map<string, Server>, s: Sys, t: Sys, u: string)
    requires QueuesOk(servers, s, u) && SameShared(s, t)
    ensures QueuesOk(servers, t, u)
  {
    forall x | x in servers
      ensures Fits(servers[x], t.hosts[x], u)
    {
      assert Fits(servers[x], s.hosts[x], u);
    }
  }

  lemma LandHostsSame(s: Sys, x: string, free: Option<nat>)
    requires x in s.hosts && s.hosts[x].dgrams != []
    ensures SameShared(s, DestRan(s, x, free))
  {
    var h := s.hosts[x];
    var r := DestHandle(h.edge, h.dgrams[0], free);
    assert r.e.queue == h.edge.queue;
    PostLeaves(s.(hosts := s.hosts[x := h.(edge := r.e, dgrams := h.dgrams[1..], destAlive := r.ok)]), r.out);
  }

  lemma OthersShared(users: map<string, Sys>, u: string, v: string, x: string, ok: bool)
    requires v in users
    ensures v in Survivors(users, u, x, false, ok) && SameShared(users[v], Survivors(users, u, x, false, ok)[v])
  {
  }

  lemma LandMoved(w: World, u: string, x: string, free: Option<nat>, t: Sys)
    requires CanMove(w, Land(u, x, free)) && t == DestRan(w.users[u], x, free)
    ensures var h := w.users[u].hosts[x];
            var ok := DestHandle(h.edge, h.dgrams[0], free).ok;
            Moved(w, Land(u, x, free)) == World(Survivors(w.users, u, x, false, ok)[u := t], w.servers)
  {
  }

  lemma LandKeepsUsers(users: map<string, Sys>, servers: map<string, Server>, u: string, t: Sys, x: string, ok: bool)
    requires AllUsersOk(users, servers) && u in users && SameShared(users[u], t)
    ensures AllUsersOk(Survivors(users, u, x, false, ok)[u := t], servers)
  {
    var all := Survivors(users, u, x, false, ok);
    SharedKeeps(servers, users[u], t, u);
    forall v | v in all && v != u
      ensures QueuesOk(servers, all[v], v)
    {
      OthersShared(users, u, v, x, ok);
      SharedKeeps(servers, users[v], all[v], v);
    }
    OneUserChanged(all, servers, u, t);
  }

  lemma LandKeepsQueues(users: map<string, Sys>, servers: map<string, Server>, u: string, t: Sys, x: string,
                        free: Option<nat>, ok: bool)
    requires AllQueuesOk(World(users, servers)) && u in users && x in users[u].hosts && users[u].hosts[x].dgrams != []
    requires t == DestRan(users[u], x, free)
    ensures AllQueuesOk(World(Survivors(users, u, x, false, ok)[u := t], servers))
  {
    LandHostsSame(users[u], x, free);
    LandKeepsUsers(users, servers, u, t, x, ok);
    SurvivorKeys(users, u, t, x, false, ok);
  }

  lemma LandKeepsAll(w: World, u: string, x: string, free: Option<nat>)
    requires Inv(w) && CanMove(w, Land(u, x, free))
    ensures Inv(Moved(w, Land(u, x, free)))
  {
    var h := w.users[u].hosts[x];
    var t := DestRan(w.users[u], x, free);
    var ok := DestHandle(h.edge, h.dgrams[0], free).ok;
    LandMoved(w, u, x, free, t);
    LandKeepsQueues(w.users, w.servers, u, t, x, free, ok);
    LandKeepsSingles(w.users, u, t, x, free, ok);
  }

  lemma LandKeepsSingles(users: map<string, Sys>, u: string, t: Sys, x: string, free: Option<nat>, ok: bool)
    requires AllSingle(users) && u in users && Enabled(users[u], DestRun(x, free)) && t == DestRan(users[u], x, free)
    ensures AllSingle(Survivors(users, u, x, false, ok)[u := t])
  {
    assert Apply(users[u], DestRun(x, free)) == t;
    SurvivorsAllSingle(users, u, DestRun(x, free), x, false, ok);
  }

  // ---------------------------------------------------------------- every run

  lemma MoveKeeps(w: World, m: Move)
    requires Inv(w) && CanMove(w, m)
    ensures Inv(Moved(w, m))
  {
    match m
    case Own(u, step) => OwnKeeps(w, u, step);
    case Deliver(x, port) => DeliverKeeps(w, x, port);
    case Work(x) => WorkKeeps(w, x);
    case Land(u, x, free) => LandKeepsAll(w, u, x, free);
  }

  lemma InitialInv(w: World)
    requires Initial(w)
    ensures Inv(w)
  {
    forall x | x in w.servers
      ensures ServerOk(w.users.Keys, w.servers[x])
    {
      var none: Option<string> := None;
      assert PairedFrom(w.servers[x].queue + w.servers[x].inbox, none);
    }
    forall u | u in w.users
      ensures QueuesOk(w.servers, w.users[u], u) && SingleCopy.Inv(w.users[u])
    {
      assert Protocol.Initial(w.users[u]) && Fresh(w.users[u]);
    }
  }

  lemma {:induction false} MovesKeep(w: World, ms: seq<Move>)
    requires Inv(w) && MovedAll(w, ms).Some?
    ensures Inv(MovedAll(w, ms).value)
    decreases |ms|
  {
    if ms == [] {
    } else {
      MoveKeeps(w, ms[0]);
      MovesKeep(Moved(w, ms[0]), ms[1..]);
    }
  }

  /** What the users can rely on. */
  ghost predicate Safe(s: Sys) {
    && OneCopy(s)
    && (s.eu.discovered && Settled(s) ==> exists a, port :: AgreedOn(s, a, port))
  }

  /** What a server can rely on: a message or command at the head of a shared queue is
    * its user's oldest, and a migrate that is about to run finds the socket open. */
  predicate InOrder(w: World, x: string)
    requires x in w.servers
  {
    var srv := w.servers[x];
    && (srv.inbox != [] ==>
          MayRead(w, x) && MsgKind(w.users[srv.inbox[0].who].hosts[x].inbox[0]) == srv.inbox[0].kind)
    && (srv.queue != [] ==>
          MayWork(w, x) && T.KindOf(w.users[srv.queue[0].who].hosts[x].edge.queue[0]) == srv.queue[0].kind)
    && (srv.alive && srv.queue != [] && srv.queue[0].kind == Migrating ==> srv.sock)
  }

  /** However the moves of any number of users interleave, every user has one copy and
    * agrees with the database when it is at rest, no server waits for an entry that is
    * not there, and no migrate finds the shared socket closed. */
  lemma FleetIsSafe(w: World, ms: seq<Move>)
    requires Initial(w) && MovedAll(w, ms).Some?
    ensures var w' := MovedAll(w, ms).value;
            && (forall u | u in w'.users :: Safe(w'.users[u]))
            && forall x | x in w'.servers :: InOrder(w', x)
  {
    InitialInv(w);
    MovesKeep(w, ms);
    var w' := MovedAll(w, ms).value;
    forall u | u in w'.users
      ensures Safe(w'.users[u])
    {
      UserIsSafe(w'.users[u]);
    }
    forall x | x in w'.servers
      ensures InOrder(w', x)
    {
      ServerInOrder(w', x);
    }
  }

  lemma UserIsSafe(s: Sys)
    requires SingleCopy.Inv(s)
    ensures Safe(s)
  {
    InvIsOneCopy(s);
    if s.eu.discovered && Settled(s) {
      var a, port := InvIsAgreed(s);
    }
  }

  lemma ServerInOrder(w: World, x: string)
    requires Inv(w) && x in w.servers
    ensures InOrder(w, x)
  {
    var srv := w.servers[x];
    assert ServerOk(w.users.Keys, srv);
    if srv.inbox != [] {
      InboxInOrder(w.users, w.servers, x);
    }
    if srv.queue != [] {
      QueueInOrder(w.users, w.servers, x);
      if srv.alive && srv.queue[0].kind == Migrating {
        HeadPaired(srv);
      }
    }
  }

  lemma InboxInOrder(users: map<string, Sys>, servers: map<string, Server>, x: string)
    requires AllUsersOk(users, servers) && x in servers && servers[x].inbox != []
    requires KnownUsers(users.Keys, servers[x].inbox)
    ensures var u := servers[x].inbox[0].who;
            && u in users && x in users[u].hosts && users[u].hosts[x].inbox != []
            && MsgKind(users[u].hosts[x].inbox[0]) == servers[x].inbox[0].kind
  {
    var u := servers[x].inbox[0].who;
    assert QueuesOk(servers, users[u], u) && Fits(servers[x], users[u].hosts[x], u);
    assert Of(servers[x].inbox, u)[0] == servers[x].inbox[0].kind;
  }

  lemma QueueInOrder(users: map<string, Sys>, servers: map<string, Server>, x: string)
    requires AllUsersOk(users, servers) && x in servers && servers[x].queue != []
    requires KnownUsers(users.Keys, servers[x].queue)
    ensures var u := servers[x].queue[0].who;
            && u in users && x in users[u].hosts && users[u].hosts[x].edge.queue != []
            && T.KindOf(users[u].hosts[x].edge.queue[0]) == servers[x].queue[0].kind
  {
    var u := servers[x].queue[0].who;
    assert QueuesOk(servers, users[u], u) && Fits(servers[x], users[u].hosts[x], u);
    HeadFits(servers[x], users[u].hosts[x]);
  }
}
