/** The whole system as one user sees it, under a threshold planner: the
  * controller, every edge server, the user's device, and the messages between
  * them.  Each handler is one atomic step.
  *
  * Channels: every receiver has one inbox, publications and datagrams are
  * appended to it in the order they are sent, and none is lost or duplicated.
  */
module Protocol {
  import opened Basics
  import opened Handlers
  import E = EdgeHandlers

  datatype CtlMsg =
    | CAllocated(svc: Service)
    | CPreMigrated(job: Job)
    | CMigrated(svc: Service)
    | CHandovered(bts: string)
  datatype EuMsg = UAllocated(svc: Service) | UMigrated(svc: Service) | UHandover(bts: string)
  datatype EdgeMsg = EDeploy | EPreMigrate(job: Job) | EMigrate(job: Job)
  datatype Datagram = DPrepare(job: Job) | DMigrate(job: Job)

  datatype Host = Host(edge: E.Edge, inbox: seq<EdgeMsg>, dgrams: seq<Datagram>, sourceAlive: bool, destAlive: bool)

  /** The user's device and application. */
  datatype Eu = Eu(discovered: bool, service: Option<Service>, ssid: string, connected: bool)

  datatype Sys = Sys(
    ctl: Ctl,
    ctlInbox: seq<CtlMsg>,
    hosts: map<string, Host>,
    eu: Eu,
    euInbox: seq<EuMsg>,
    jsonLost: bool)              // history: some plan could not build its message

  // ------------------------------------------------------------- channels

  function ToHost(s: Sys, x: string, m: EdgeMsg): Sys {
    if x in s.hosts then s.(hosts := s.hosts[x := s.hosts[x].(inbox := s.hosts[x].inbox + [m])]) else s
  }

  function ToSocket(s: Sys, x: string, d: Datagram): Sys {
    if x in s.hosts then s.(hosts := s.hosts[x := s.hosts[x].(dgrams := s.hosts[x].dgrams + [d])]) else s
  }

  /** Publishes what a controller handler asks for. */
  function Publish(s: Sys, e: Effect): Sys {
    match e
    case Deploy(to) => ToHost(s, to, EDeploy)
    case PreMigrate(to, job) => ToHost(s, to, EPreMigrate(job))
    case Migrate(to, job) => ToHost(s, to, EMigrate(job))
    case Handover(bts) => s.(euInbox := s.euInbox + [UHandover(bts)])
    case Start(_) => s
  }

  function PublishAll(s: Sys, out: seq<Effect>): Sys
    decreases |out|
  {
    if out == [] then s else PublishAll(Publish(s, out[0]), out[1..])
  }

  /** Sends what an edge handler asks for. */
  function Post(s: Sys, m: E.Message): Sys {
    match m
    case PubAllocated(svc) => s.(ctlInbox := s.ctlInbox + [CAllocated(svc)], euInbox := s.euInbox + [UAllocated(svc)])
    case PubPreMigrated(job) => s.(ctlInbox := s.ctlInbox + [CPreMigrated(job)])
    case PubMigrated(svc) => s.(ctlInbox := s.ctlInbox + [CMigrated(svc)], euInbox := s.euInbox + [UMigrated(svc)])
    case SendPrepare(job) => ToSocket(s, job.server, DPrepare(job))
    case SendMigrate(job) => ToSocket(s, job.server, DMigrate(job))
  }

  function PostAll(s: Sys, out: seq<E.Message>): Sys
    decreases |out|
  {
    if out == [] then s else PostAll(Post(s, out[0]), out[1..])
  }

  // ---------------------------------------------------------------- steps

  datatype Step =
    | Discover(place: string)                       // the user asks for its service, once
    | RunPlan(plan: Plan, json: bool)               // one plan of `trigger_other_planners`
    | CtlReceive                                    // the controller handles its oldest message
    | HostReceive(x: string, port: nat)             // an edge server handles its oldest message
    | SourceRun(x: string)                          // the source thread runs its oldest command
    | DestRun(x: string, free: Option<nat>)         // the destination thread handles its oldest datagram
    | Monitored(x: string, cmd: E.Cmd)              // request 3 or 4 queues a measurement
    | Dies(x: string, source: bool)                 // another user's command ends a thread
    | EuReceive(known: bool)                        // the device handles its oldest message
    | Reconnect                                     // the device is back on a base station

  function CtlHandle(c: Ctl, m: CtlMsg): Outcome {
    match m
    case CAllocated(svc) => Allocated(c, svc)
    case CPreMigrated(job) => PreMigratedThreshold(c, job)
    case CMigrated(svc) => Migrated(c, svc)
    case CHandovered(bts) => Handovered(c, bts)
  }

  function HostHandle(e: E.Edge, x: string, m: EdgeMsg, port: nat): E.Result {
    match m
    case EDeploy => E.Deploy(e, x, port)
    case EPreMigrate(job) => E.PreMigrate(e, x, job)
    case EMigrate(job) => E.Migrate(e, x, job)
  }

  /** Checkpoints and restores succeed, so a restored container starts. */
  function DestHandle(e: E.Edge, d: Datagram, port: Option<nat>): E.Result {
    match d
    case DPrepare(_) => E.DestPrepare(e, port)
    case DMigrate(job) => E.DestMigrate(e, job, true)
  }

  function EuHandle(u: Eu, m: EuMsg, known: bool): Eu {
    match m
    case UAllocated(svc) => u.(service := Some(svc))
    case UMigrated(svc) => u.(service := Some(svc))
    case UHandover(bts) => if known then u.(ssid := bts, connected := false) else u
  }

  predicate Enabled(s: Sys, step: Step) {
    match step
    case Discover(place) => !s.eu.discovered && place in s.hosts
    case RunPlan(plan, _) => s.ctl.row.Some? && plan.server in s.hosts
    case CtlReceive => s.ctlInbox != []
    case HostReceive(x, _) => x in s.hosts && s.hosts[x].inbox != []
    case SourceRun(x) => x in s.hosts && s.hosts[x].sourceAlive && s.hosts[x].edge.queue != []
    case DestRun(x, _) => x in s.hosts && s.hosts[x].destAlive && s.hosts[x].dgrams != []
    case Monitored(x, cmd) => x in s.hosts && s.hosts[x].edge.listed != [] && (cmd.PreMeasure? || cmd.Measure?)
    case Dies(x, _) => x in s.hosts
    case EuReceive(_) => s.euInbox != []
    case Reconnect => !s.eu.connected
  }

  function Discovered(s: Sys, place: string): Sys {
    var o := Discovery(s.ctl, s.eu.ssid, true, place);
    PublishAll(s.(ctl := o.c, eu := s.eu.(discovered := true)), o.out)
  }

  function Planned(s: Sys, plan: Plan, json: bool): Sys {
    var o := ThresholdPlan(s.ctl, plan, json);
    PublishAll(s.(ctl := o.c, jsonLost := s.jsonLost || (!json && o.c.row != s.ctl.row)), o.out)
  }

  function CtlRead(s: Sys): Sys
    requires s.ctlInbox != []
  {
    var o := CtlHandle(s.ctl, s.ctlInbox[0]);
    PublishAll(s.(ctl := o.c, ctlInbox := s.ctlInbox[1..]), o.out)
  }

  function HostRead(s: Sys, x: string, port: nat): Sys
    requires x in s.hosts && s.hosts[x].inbox != []
  {
    var h := s.hosts[x];
    var r := HostHandle(h.edge, x, h.inbox[0], port);
    PostAll(s.(hosts := s.hosts[x := h.(edge := r.e, inbox := h.inbox[1..])]), r.out)
  }

  /** The source thread runs its oldest command, with the shared socket open or not. */
  function SourceRanWith(s: Sys, x: string, sock: bool): Sys
    requires x in s.hosts && s.hosts[x].edge.queue != []
  {
    var h := s.hosts[x];
    var r := E.SourceStep(h.edge, sock);
    PostAll(s.(hosts := s.hosts[x := h.(edge := r.e, sourceAlive := r.ok)]), r.out)
  }

  /** In this protocol of one user the socket is open; the module Fleet shows that it
    * always is when it is needed, although all users share it. */
  function SourceRan(s: Sys, x: string): Sys
    requires x in s.hosts && s.hosts[x].edge.queue != []
  {
    SourceRanWith(s, x, true)
  }

  function DestRan(s: Sys, x: string, free: Option<nat>): Sys
    requires x in s.hosts && s.hosts[x].dgrams != []
  {
    var h := s.hosts[x];
    var r := DestHandle(h.edge, h.dgrams[0], free);
    PostAll(s.(hosts := s.hosts[x := h.(edge := r.e, dgrams := h.dgrams[1..], destAlive := r.ok)]), r.out)
  }

  function Apply(s: Sys, step: Step): Sys
    requires Enabled(s, step)
  {
    match step
    case Discover(place) => Discovered(s, place)
    case RunPlan(plan, json) => Planned(s, plan, json)
    case CtlReceive => CtlRead(s)
    case HostReceive(x, port) => HostRead(s, x, port)
    case SourceRun(x) => SourceRan(s, x)
    case DestRun(x, free) => DestRan(s, x, free)
    case Monitored(x, cmd) =>
      var h := s.hosts[x];
      s.(hosts := s.hosts[x := h.(edge := h.edge.(queue := h.edge.queue + [cmd]))])
    case Dies(x, source) =>
      var h := s.hosts[x];
      s.(hosts := s.hosts[x := if source then h.(sourceAlive := false) else h.(destAlive := false)])
    case EuReceive(known) =>
      s.(eu := EuHandle(s.eu, s.euInbox[0], known), euInbox := s.euInbox[1..])
    case Reconnect =>
      s.(eu := s.eu.(connected := true), ctlInbox := s.ctlInbox + [CHandovered(s.eu.ssid)])
  }

  predicate Initial(s: Sys) {
    && s.ctl == UNKNOWN && s.ctlInbox == [] && s.euInbox == [] && !s.jsonLost
    && !s.eu.discovered && s.eu.service.None? && s.eu.connected
    && forall x | x in s.hosts :: s.hosts[x].edge == E.IDLE && s.hosts[x].inbox == [] && s.hosts[x].dgrams == []
  }

  ghost predicate Next(s: Sys, s': Sys) {
    exists step :: Enabled(s, step) && s' == Apply(s, step)
  }

  /** A run: a finite sequence of states from an initial one, step by step. */
  ghost predicate IsRun(run: seq<Sys>) {
    && run != [] && Initial(run[0])
    && forall i | 0 <= i < |run| - 1 :: Next(run[i], run[i + 1])
  }
}
