/** The edge server: the message handlers, the source thread and the destination
  * thread of one machine, which share its list of services, its containers and
  * its ports. */
module EdgeNode {
  import opened Basics
  import opened Handlers
  import opened EdgeServices
  import E = EdgeHandlers
  import S = SourceThread

  const FIRST_PORT: nat := 9900
  const END_PORT: nat := 9999

  /** The commands queued for one service, in queue order. */
  function Commands(q: seq<(Key, E.Cmd)>, k: Key): seq<E.Cmd> {
    if q == [] then []
    else (if q[0].0 == k then [q[0].1] else []) + Commands(q[1..], k)
  }

  lemma {:induction false} CommandsAppend(q: seq<(Key, E.Cmd)>, x: (Key, E.Cmd), k: Key)
    ensures Commands(q + [x], k) == Commands(q, k) + if x.0 == k then [x.1] else []
  {
    if q == [] {
      assert q + [x] == [x];
      assert [x][1..] == [];
    } else {
      assert (q + [x])[1..] == q[1..] + [x];
      CommandsAppend(q[1..], x, k);
    }
  }

  function Posted(k: Key, out: seq<E.Message>): seq<(Key, E.Message)> {
    seq(|out|, i requires 0 <= i < |out| => (k, out[i]))
  }

  /** The first port of the range that is not in use. */
  method FindOpenPort(busy: set<nat>) returns (p: Option<nat>)
    ensures p.Some? ==> 9900 <= p.value <= 9998 && p.value !in busy
    ensures p.Some? ==> forall q | 9900 <= q < p.value :: q in busy
    ensures p.None? ==> forall q | 9900 <= q <= 9998 :: q in busy
  {
    for port := FIRST_PORT to END_PORT
      invariant forall q | FIRST_PORT <= q < port :: q in busy
    {
      if port !in busy {
        return Some(port);
      }
    }
    return None;
  }

  function ContainerIn(containers: map<Key, E.Container>, k: Key): E.Container {
    if k in containers then containers[k] else E.Absent
  }

  predicate InRange(p: nat) {
    FIRST_PORT <= p < END_PORT
  }

  /** The port a service holds: that of its running container or of its open
    * socket. */
  predicate Held(containers: map<Key, E.Container>, sockets: map<Key, E.Socket>, k: Key, p: nat) {
    ContainerIn(containers, k) == E.Up(p) || Get(sockets, k) == Some(E.Open(p))
  }

  /** The ports no new socket can bind. */
  function TakenPorts(containers: map<Key, E.Container>, sockets: map<Key, E.Socket>,
                      foreign: set<nat>): (busy: set<nat>)
    ensures forall p :: p in busy <==> p in foreign || exists k :: Held(containers, sockets, k, p)
  {
    var up := set k | k in containers && containers[k].Up? :: containers[k].port;
    var open := set k | k in sockets && sockets[k].Open? :: sockets[k].port;
    assert forall k | k in containers && containers[k].Up? :: Held(containers, sockets, k, containers[k].port);
    assert forall k | k in sockets && sockets[k].Open? :: Held(containers, sockets, k, sockets[k].port);
    foreign + up + open
  }

  /** The ports that somebody else than service `k` holds: docker starts no container of
    * `k` behind one of them. */
  function OthersPorts(containers: map<Key, E.Container>, sockets: map<Key, E.Socket>, foreign: set<nat>,
                       k: Key): set<nat>
  {
    TakenPorts(containers - {k}, sockets - {k}, foreign)
  }

  lemma OthersHold(containers: map<Key, E.Container>, sockets: map<Key, E.Socket>, foreign: set<nat>, k: Key, p: nat)
    ensures p in OthersPorts(containers, sockets, foreign, k) <==>
              p in foreign || exists o :: o != k && Held(containers, sockets, o, p)
  {
    assert forall o :: Held(containers - {k}, sockets - {k}, o, p) <==> o != k && Held(containers, sockets, o, p);
  }

  /** What the services of one machine keep about its ports in every run: every
    * container has a port of the range, no two services hold the same one, no other
    * program does, and a container created for a migration has the port its
    * socket reserves. */
  ghost predicate Exclusive(containers: map<Key, E.Container>, sockets: map<Key, E.Socket>, foreign: set<nat>) {
    && (forall k, p | Held(containers, sockets, k, p) :: InRange(p) && p !in foreign)
    && (forall k | k in containers && !containers[k].Absent? :: InRange(containers[k].port))
    && (forall k, o, p | Held(containers, sockets, k, p) && Held(containers, sockets, o, p) :: k == o)
    && (forall k | k in sockets && sockets[k].Open? && k in containers && containers[k].Created? ::
          containers[k].port == sockets[k].port)
  }

  /** A service that gives up its ports, and perhaps takes one nobody holds,
    * leaves everybody's ports exclusive. */
  lemma Exchange(containers: map<Key, E.Container>, sockets: map<Key, E.Socket>, foreign: set<nat>, k: Key,
                 containers': map<Key, E.Container>, sockets': map<Key, E.Socket>)
    requires Exclusive(containers, sockets, foreign)
    requires forall o | o != k :: Get(containers', o) == Get(containers, o) && Get(sockets', o) == Get(sockets, o)
    requires forall p | Held(containers', sockets', k, p) && !Held(containers, sockets, k, p) ::
               InRange(p) && p !in foreign && forall o :: !Held(containers, sockets, o, p)
    requires k in sockets' && sockets'[k].Open? && k in containers' && containers'[k].Created? ==>
               containers'[k].port == sockets'[k].port
    requires k in containers' && !containers'[k].Absent? ==> InRange(containers'[k].port)
    ensures Exclusive(containers', sockets', foreign)
  {
    assert forall o, p | o != k :: Held(containers', sockets', o, p) <==> Held(containers, sockets, o, p) by {
      forall o, p | o != k
        ensures Held(containers', sockets', o, p) <==> Held(containers, sockets, o, p)
      {
        assert Get(containers', o) == Get(containers, o);
      }
    }
    forall o | o in containers' && !containers'[o].Absent?
      ensures InRange(containers'[o].port)
    {
      if o != k {
        assert Get(containers', o) == Get(containers, o);
      }
    }
    forall o | o in sockets' && sockets'[o].Open? && o in containers' && containers'[o].Created?
      ensures containers'[o].port == sockets'[o].port
    {
      if o != k {
        assert Get(containers', o) == Get(containers, o) && Get(sockets', o) == Get(sockets, o);
      }
    }
  }

  /** A service's state apart from its waiting commands. */
  function Bare(e: E.Edge): E.Edge {
    e.(queue := [])
  }

  /** What a command does has nothing to do with the commands that wait. */
  lemma BareCommand(e: E.Edge, cmd: E.Cmd, sock: bool)
    requires e.queue != [] && e.queue[0] == cmd
    ensures var r, b := E.SourceStep(e, sock), E.SourceCommand(Bare(e), cmd, sock);
            b == r.(e := Bare(r.e)) && E.SockAfter(Bare(e), cmd, sock) == E.SockAfter(e, cmd, sock)
  {
  }

  lemma {:induction false} RaisedEarlier(t: S.Thread, q: seq<S.Order>, i: nat)
    requires S.Knows(t, q) && i <= |q| && S.RanTo(t, q, i).None?
    ensures !S.Served(t, q)
    decreases |q| - i
  {
    if i == |q| {
    } else {
      RaisedEarlier(t, q, i + 1);
    }
  }

  class Node {
    const name: string
    const registry: Registry
    var containers: map<Key, E.Container>
    var sourceQueue: seq<(Key, E.Cmd)>
    var pre2: set<Key>
    var records: set<Key>
    var sockets: map<Key, E.Socket>
    /** Ports other programs of this machine hold. */
    var foreign: set<nat>
    /** The socket of the source thread, which the migrations of all services share. */
    var sockOpen: bool
    var sourceAlive: bool
    var destAlive: bool
    /** Every publication and every datagram, oldest first. */
    var log: seq<(Key, E.Message)>

    constructor (name: string, foreign: set<nat>)
      ensures this.name == name && this.foreign == foreign && fresh(registry)
      ensures PortsOk() && sourceAlive && destAlive && sockOpen && sourceQueue == [] && log == []
      ensures forall k :: View(k) == E.IDLE
    {
      this.name, this.foreign := name, foreign;
      registry := new Registry();
      containers, sockets, sourceQueue := map[], map[], [];
      pre2, records, log := {}, {}, [];
      sourceAlive, destAlive, sockOpen := true, true, true;
    }

    ghost function View(k: Key): E.Edge
      reads this, registry
    {
      E.Edge(Listed(registry.services, k), ContainerOf(k), Commands(sourceQueue, k), k in pre2, k in records,
             Get(sockets, k))
    }

    function ContainerOf(k: Key): E.Container
      reads this
    {
      ContainerIn(containers, k)
    }

    /** The handler did `r` to service `k` and nothing to any other service. */
    twostate predicate Did(k: Key, r: E.Result)
      reads this, registry
    {
      && View(k) == r.e
      && (forall o | o != k :: View(o) == old(View(o)))
      && log == old(log) + Posted(k, r.out)
    }

    // ---------------------------------------------------------------- ports

    ghost predicate PortsOk()
      reads this
    {
      Exclusive(containers, sockets, foreign)
    }

    function BusyPorts(): set<nat>
      reads this
    {
      TakenPorts(containers, sockets, foreign)
    }

    // ------------------------------------------------------------- handlers

    method Emit(k: Key, m: E.Message)
      modifies this`log
      ensures log == old(log) + [(k, m)]
    {
      log := log + [(k, m)];
    }

    method Enqueue(k: Key, cmd: E.Cmd)
      modifies this`sourceQueue
      ensures View(k) == old(View(k)).(queue := old(View(k)).queue + [cmd])
      ensures forall o | o != k :: View(o) == old(View(o))
    {
      forall o
        ensures Commands(sourceQueue + [(k, cmd)], o) == Commands(sourceQueue, o) + if k == o then [cmd] else []
      {
        CommandsAppend(sourceQueue, (k, cmd), o);
      }
      sourceQueue := sourceQueue + [(k, cmd)];
    }

    /** `process_pre_migrate`. */
    method ProcessPreMigrate(k: Key, job: Job)
      modifies this`sourceQueue, this`log
      ensures Did(k, E.PreMigrate(old(View(k)), name, job))
    {
      if job.server != name {
        var local := registry.GetService(k);
        if local.Some? {
          Enqueue(k, E.Prepare(job));
        }
        return;
      }
      Emit(k, E.PubPreMigrated(job));
    }

    /** `process_migrate`. */
    method ProcessMigrate(k: Key, job: Job)
      modifies this`sourceQueue, this`log
      ensures Did(k, E.Migrate(old(View(k)), name, job))
    {
      if job.server != name {
        var local := registry.GetService(k);
        if local.Some? {
          Enqueue(k, E.MigrateCmd(job));
        }
      }
    }

    method List(k: Key, svc: Service)
      modifies registry
      ensures View(k) == old(View(k)).(listed := old(View(k)).listed + [svc])
      ensures forall o | o != k :: View(o) == old(View(o))
    {
      forall o
        ensures Listed(registry.services + [Entry(k, svc)], o) ==
                  Listed(registry.services, o) + if o == k then [svc] else []
      {
        ListedConcat(registry.services, [Entry(k, svc)], o);
        assert [Entry(k, svc)][1..] == [];
        assert Listed([Entry(k, svc)], o) == if o == k then [svc] else [];
      }
      registry.AddService(k, svc);
    }

    method Unlist(k: Key)
      modifies registry
      ensures View(k) == old(View(k)).(listed := if old(View(k)).listed == [] then [] else old(View(k)).listed[1..])
      ensures forall o | o != k :: View(o) == old(View(o))
    {
      registry.RemoveService(k);
    }

    /** A container is created and started behind an open port. */
    method StartContainer(k: Key, port: nat)
      requires PortsOk() && InRange(port) && port !in BusyPorts()
      modifies this`containers
      ensures PortsOk() && View(k) == old(View(k)).(container := E.Up(port))
      ensures forall o | o != k :: View(o) == old(View(o))
    {
      Exchange(containers, sockets, foreign, k, containers[k := E.Up(port)], sockets);
      containers := containers[k := E.Up(port)];
    }

    /** The last checkpoint of a running container stops it. */
    method StopContainer(k: Key)
      modifies this`containers
      ensures old(PortsOk()) ==> PortsOk()
      ensures View(k) == old(View(k)).(container :=
                if old(ContainerOf(k)).Up? then E.Exited(old(ContainerOf(k)).port) else old(ContainerOf(k)))
      ensures forall o | o != k :: View(o) == old(View(o))
    {
      if k in containers && containers[k].Up? {
        if PortsOk() {
          Exchange(containers, sockets, foreign, k, containers[k := E.Exited(containers[k].port)], sockets);
        }
        containers := containers[k := E.Exited(containers[k].port)];
      }
    }

    /** The destination closes its socket and starts the restored container. */
    method TakeOver(k: Key, starts: bool)
      requires k in sockets && sockets[k].Open? && PortsOk()
      requires starts ==> !Blocked(k)
      modifies this`containers, this`sockets
      ensures PortsOk()
      ensures View(k) == old(View(k)).(
                container := if starts && (old(ContainerOf(k)).Created? || old(ContainerOf(k)).Exited?)
                             then E.Up(old(ContainerOf(k)).port) else old(ContainerOf(k)),
                socket := Some(E.Closed(old(sockets[k].port))))
      ensures forall o | o != k :: View(o) == old(View(o))
    {
      ghost var before := (containers, sockets);
      ghost var p := ContainerOf(k);
      if p.Exited? {
        OthersHold(containers, sockets, foreign, k, p.port);
      }
      sockets := sockets[k := E.Closed(sockets[k].port)];
      if starts && k in containers && (containers[k].Created? || containers[k].Exited?) {
        containers := containers[k := E.Up(containers[k].port)];
      }
      Exchange(before.0, before.1, foreign, k, containers, sockets);
    }

    /** `process_deploy`, for a machine that has an open port left. */
    method ProcessDeploy(k: Key) returns (ghost port: nat)
      requires PortsOk()
      requires exists p :: InRange(p) && p !in BusyPorts()
      modifies this, registry
      ensures PortsOk()
      ensures Did(k, E.Deploy(old(View(k)), name, port))
    {
      var open := FindOpenPort(BusyPorts());
      port := open.value;
      if k in containers && containers[k].Up? {
        var local := registry.GetService(k);
        if local.Some? {
          Emit(k, E.PubAllocated(local.value));
          return;
        }
      }
      StartContainer(k, open.value);
      label Started:
      List(k, Service(name, open.value));
      Emit(k, E.PubAllocated(Service(name, open.value)));
      assert forall o | o != k :: View(o) == old@Started(View(o));
    }

    method TakeCommand() returns (k: Key, cmd: E.Cmd)
      requires sourceQueue != []
      modifies this`sourceQueue
      ensures (k, cmd) == old(sourceQueue)[0] && sourceQueue == old(sourceQueue)[1..]
      ensures old(View(k)).queue != [] && old(View(k)).queue[0] == cmd
      ensures View(k) == old(View(k)).(queue := old(View(k)).queue[1..])
      ensures forall o | o != k :: View(o) == old(View(o))
    {
      k, cmd := sourceQueue[0].0, sourceQueue[0].1;
      sourceQueue := sourceQueue[1..];
    }

    /** `handle_cmd_measure_dirty`. */
    method HandleMeasureDirty(k: Key)
      requires sourceAlive
      modifies this`pre2, this`sourceAlive
      ensures var r := E.SourceCommand(old(View(k)), E.Measure, old(sockOpen)); Did(k, r) && sourceAlive == r.ok
    {
      var local := registry.GetService(k);
      if ContainerOf(k).Up? {
        pre2 := pre2 + {k};
        sourceAlive := local.Some?;
      } else {
        pre2 := pre2 - {k};
        sourceAlive := false;
      }
    }

    /** `handle_cmd_prepare` at the source. */
    method HandlePrepare(k: Key, job: Job)
      requires sourceAlive
      modifies this`log, this`records, this`sockOpen, this`sourceAlive
      ensures var r := E.SourceCommand(old(View(k)), E.Prepare(job), old(sockOpen)); Did(k, r) && sourceAlive == r.ok
      ensures sockOpen
    {
      sockOpen := true;
      records := records + {k};
      if k in pre2 {
        Emit(k, E.PubPreMigrated(job));
        Emit(k, E.SendPrepare(job));
      } else {
        sourceAlive := false;
      }
    }

    /** The command handlers of the source thread. */
    method HandleCommand(k: Key, cmd: E.Cmd)
      requires sourceAlive
      modifies this`containers, this`log, this`pre2, this`records, this`sockOpen, this`sourceAlive, registry
      ensures var r := E.SourceCommand(old(View(k)), cmd, old(sockOpen)); Did(k, r) && sourceAlive == r.ok
      ensures sockOpen == E.SockAfter(old(View(k)), cmd, old(sockOpen))
      ensures old(PortsOk()) ==> PortsOk()
    {
      match cmd {
        case PreMeasure =>
          sourceAlive := ContainerOf(k).Up?;
        case Measure =>
          HandleMeasureDirty(k);
        case Prepare(job) =>
          HandlePrepare(k, job);
        case MigrateCmd(job) =>
          if k in records {
            HandleMigrate(k, job);
          } else {
            sourceAlive := false;
          }
      }
    }

    /** One round of the source thread's `node_main`. */
    method RunSourceCommand()
      requires sourceAlive && sourceQueue != []
      modifies this`containers, this`log, this`pre2, this`records, this`sockOpen, this`sourceAlive
      modifies this`sourceQueue, registry
      ensures sourceQueue == old(sourceQueue)[1..]
      ensures var k := old(sourceQueue[0].0);
              old(View(k)).queue != [] && old(View(k)).queue[0] == old(sourceQueue[0].1) &&
              var r := E.SourceStep(old(View(k)), old(sockOpen));
              Did(k, r) && sourceAlive == r.ok &&
              sockOpen == E.SockAfter(old(View(k)), old(sourceQueue[0].1), old(sockOpen))
      ensures old(PortsOk()) ==> PortsOk()
    {
      var k, cmd := TakeCommand();
      label Taken:
      HandleCommand(k, cmd);
      assert forall o | o != k :: View(o) == old@Taken(View(o));
    }

    /** The thread `t` is what this machine keeps of the services that `t` knows. */
    ghost predicate Keeps(t: S.Thread)
      reads this, registry
    {
      t.sock == sockOpen && forall k | k in t.edges :: t.edges[k] == Bare(View(k))
    }

    /** One round, seen by the specification. */
    method RunKnown(ghost t: S.Thread)
      requires sourceAlive && sourceQueue != [] && Keeps(t) && sourceQueue[0].0 in t.edges
      modifies this`containers, this`log, this`pre2, this`records, this`sockOpen, this`sourceAlive
      modifies this`sourceQueue, registry
      ensures sourceQueue == old(sourceQueue)[1..]
      ensures sourceAlive <==> S.Ran(t, old(sourceQueue)[0]).Some?
      ensures sourceAlive ==> Keeps(S.Ran(t, old(sourceQueue)[0]).value)
      ensures old(PortsOk()) ==> PortsOk()
    {
      ghost var k, cmd := sourceQueue[0].0, sourceQueue[0].1;
      RunSourceCommand();
      BareCommand(old(View(k)), cmd, t.sock);
    }

    /** `node_main`, until the queue is empty or a handler raises: the thread serves the
      * whole queue exactly when the specification does, and leaves what it says. */
    method RunQueue(ghost t: S.Thread)
      requires sourceAlive && Keeps(t) && S.Knows(t, sourceQueue)
      modifies this`containers, this`log, this`pre2, this`records, this`sockOpen, this`sourceAlive
      modifies this`sourceQueue, registry
      ensures sourceAlive <==> S.Served(t, old(sourceQueue))
      ensures sourceAlive ==> sourceQueue == [] && Keeps(S.RanTo(t, old(sourceQueue), |old(sourceQueue)|).value)
      ensures old(PortsOk()) ==> PortsOk()
    {
      ghost var q, i, now := sourceQueue, 0, Some(t);
      while sourceAlive && sourceQueue != []
        invariant i <= |q| && sourceQueue == q[i..] && now == S.RanTo(t, q, i)
        invariant sourceAlive <==> now.Some?
        invariant sourceAlive ==> Keeps(now.value)
        invariant old(PortsOk()) ==> PortsOk()
        decreases |sourceQueue|
      {
        RunKnown(now.value);
        now := S.Ran(now.value, q[i]);
        i := i + 1;
      }
      if !sourceAlive {
        RaisedEarlier(t, q, i);
      } else {
        assert i == |q|;
      }
    }

    /** `handle_cmd_migrate` at the source.  With the shared socket closed it raises
      * after the container was stopped. */
    method HandleMigrate(k: Key, job: Job)
      requires k in records && sourceAlive
      modifies this`containers, this`log, this`pre2, this`sockOpen, this`sourceAlive, registry
      ensures var r := E.SourceCommand(old(View(k)), E.MigrateCmd(job), old(sockOpen)); Did(k, r) && sourceAlive == r.ok
      ensures !sockOpen
      ensures old(PortsOk()) ==> PortsOk()
    {
      StopContainer(k);
      label Stopped:
      if sockOpen {
        SendAway(k, job);
        assert forall o | o != k :: View(o) == old@Stopped(View(o));
      } else {
        sourceAlive := false;
      }
    }

    /** The datagram goes out; the service leaves the list, and its snapshots the disk. */
    method SendAway(k: Key, job: Job)
      requires sockOpen
      modifies this`log, this`pre2, this`sockOpen, registry
      ensures View(k) == old(View(k)).(
                listed := if old(View(k)).listed == [] then [] else old(View(k)).listed[1..], pre2 := false)
      ensures forall o | o != k :: View(o) == old(View(o))
      ensures log == old(log) + [(k, E.SendMigrate(job))] && !sockOpen
    {
      Emit(k, E.SendMigrate(job));
      sockOpen := false;
      assert forall o :: View(o) == old(View(o));
      Unlist(k);
      assert forall o | o != k :: View(o) == old(View(o));
      pre2 := pre2 - {k};
    }

    /** `handle_cmd_prepare` at the destination. */
    method HandleDestPrepare(k: Key) returns (ghost port: Option<nat>)
      requires destAlive && PortsOk()
      modifies this`containers, this`sockets, this`destAlive
      ensures PortsOk()
      ensures var r := E.DestPrepare(old(View(k)), port); Did(k, r) && destAlive == r.ok
      ensures port.Some? ==> InRange(port.value) && port.value !in old(BusyPorts())
      ensures port.None? <==> forall p | InRange(p) :: p in old(BusyPorts())
    {
      var open := FindOpenPort(BusyPorts());
      port := open;
      if open.None? {
        destAlive := false;
        return;
      }
      Exchange(containers, sockets, foreign, k, containers[k := E.Created(open.value)],
          sockets[k := E.Open(open.value)]);
      sockets := sockets[k := E.Open(open.value)];
      containers := containers[k := E.Created(open.value)];
    }

    /** An exited container whose port somebody else has taken meanwhile: docker refuses
      * to start it. */
    predicate Blocked(k: Key)
      reads this
    {
      ContainerOf(k).Exited? && ContainerOf(k).port in OthersPorts(containers, sockets, foreign, k)
    }

    /** `handle_cmd_migrate` at the destination; `starts` says whether docker can restore
      * or start the container, if its port is free. */
    method HandleDestMigrate(k: Key, job: Job, starts: bool)
      requires destAlive && PortsOk()
      modifies this, registry
      ensures PortsOk()
      ensures var r := E.DestMigrate(old(View(k)), job, starts && !old(Blocked(k))); Did(k, r) && destAlive == r.ok
      ensures starts && destAlive && old(ContainerOf(k)).Created? ==>
                View(k).container == E.Up(old(ContainerOf(k)).port) &&
                log == old(log) + [(k, E.PubMigrated(Service(job.server, old(ContainerOf(k)).port)))]
    {
      if k !in sockets || sockets[k].Closed? {
        destAlive := false;
        return;
      }
      var p := sockets[k].port;
      TakeOver(k, starts && !Blocked(k));
      label Started:
      Announce(k, Service(job.server, p));
      assert forall o | o != k :: View(o) == old@Started(View(o));
    }

    /** The service is listed and announced, and has a second snapshot here. */
    method Announce(k: Key, svc: Service)
      modifies this`log, this`pre2, registry
      ensures View(k) == old(View(k)).(listed := old(View(k)).listed + [svc], pre2 := true)
      ensures forall o | o != k :: View(o) == old(View(o))
      ensures log == old(log) + [(k, E.PubMigrated(svc))]
    {
      pre2 := pre2 + {k};
      label Snapshot:
      Emit(k, E.PubMigrated(svc));
      List(k, svc);
      assert forall o | o != k :: View(o) == old@Snapshot(View(o));
    }
  }
}
