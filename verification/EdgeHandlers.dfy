/** What the edge server (edge_controller.py, migrate_source.py, migrate_dest.py)
  * does for ONE service, that is, one (user, service name) pair.
  *
  * `Edge` is everything the server keeps for that service; the class in
  * EdgeNode.dfy shows that its methods do exactly this to the service they are
  * called for, and nothing to the others.
  */
module EdgeHandlers {
  import opened Basics
  import opened Handlers

  /** The docker container of the service; the port is its port on the host. */
  datatype Container = Absent | Created(port: nat) | Up(port: nat) | Exited(port: nat)

  /** The socket with which a destination reserves a port. */
  datatype Socket = Open(port: nat) | Closed(port: nat)

  /** The commands of the source thread. */
  datatype Cmd = PreMeasure | Measure | Prepare(job: Job) | MigrateCmd(job: Job)

  datatype Message =
    | PubAllocated(svc: Service)
    | PubPreMigrated(job: Job)
    | PubMigrated(svc: Service)
    | SendPrepare(job: Job)
    | SendMigrate(job: Job)

  datatype Edge = Edge(
    listed: seq<Service>,        // entries of edge_services
    container: Container,
    queue: seq<Cmd>,             // commands waiting for the source thread
    pre2: bool,                  // the second pre-copy snapshot exists
    record: bool,                // the source's record of a prepared migration
    socket: Option<Socket>)      // the destination's reserved port

  /** `ok` is false when the handler raises and its thread ends. */
  datatype Result = Result(e: Edge, out: seq<Message>, ok: bool)

  const IDLE := Edge([], Absent, [], false, false, None)

  /** `process_deploy`; `port` is the open port found for a new container. */
  function Deploy(e: Edge, self: string, port: nat): Result {
    if e.container.Up? && e.listed != [] then Result(e, [PubAllocated(e.listed[0])], true)
    else
      var svc := Service(self, port);
      Result(e.(container := Up(port), listed := e.listed + [svc]), [PubAllocated(svc)], true)
  }

  /** `process_pre_migrate`. */
  function PreMigrate(e: Edge, self: string, job: Job): Result {
    if job.server == self then Result(e, [PubPreMigrated(job)], true)
    else if e.listed == [] then Result(e, [], true)
    else Result(e.(queue := e.queue + [Prepare(job)]), [], true)
  }

  /** `process_migrate`. */
  function Migrate(e: Edge, self: string, job: Job): Result {
    if job.server == self || e.listed == [] then Result(e, [], true)
    else Result(e.(queue := e.queue + [MigrateCmd(job)]), [], true)
  }

  /** The source thread's handler of one command, already taken off the queue. `sock`
    * says whether the socket that all services of the source share is open. */
  function SourceCommand(e: Edge, cmd: Cmd, sock: bool): Result {
    match cmd
    case PreMeasure => Result(e, [], e.container.Up?)
    case Measure =>
      // A service that is not listed makes the callback raise; a container that is not
      // running leaves no snapshot, and measuring its size raises.
      Result(e.(pre2 := e.container.Up?), [], e.container.Up? && e.listed != [])
    case Prepare(job) =>
      // Measuring the size of a snapshot that does not exist raises.
      if e.pre2 then Result(e.(record := true), [PubPreMigrated(job), SendPrepare(job)], true)
      else Result(e.(record := true), [], false)
    case MigrateCmd(job) =>
      if !e.record then Result(e, [], false)
      else
        var stopped := e.(container := if e.container.Up? then Exited(e.container.port) else e.container);
        // Sending through the closed socket raises, after the container was stopped.
        if !sock then Result(stopped, [], false)
        else
          Result(stopped.(listed := if e.listed == [] then [] else e.listed[1..], pre2 := false), [SendMigrate(job)],
              true)
  }

  /** The shared socket after a command: a prepare replaces it, a migrate closes it. */
  function SockAfter(e: Edge, cmd: Cmd, sock: bool): bool {
    match cmd
    case Prepare(_) => true
    case MigrateCmd(_) => sock && !e.record
    case _ => sock
  }

  /** The source thread's loop body. */
  function SourceStep(e: Edge, sock: bool): Result
    requires e.queue != []
  {
    SourceCommand(e.(queue := e.queue[1..]), e.queue[0], sock)
  }

  /** `handle_cmd_prepare` at the destination; `port` is the open port it found. */
  function DestPrepare(e: Edge, port: Option<nat>): Result {
    if port.None? then Result(e, [], false)
    else Result(e.(container := Created(port.value), socket := Some(Open(port.value))), [], true)
  }

  /** `handle_cmd_migrate` at the destination; `starts` says whether docker can
    * restore or start the container. */
  function DestMigrate(e: Edge, job: Job, starts: bool): Result {
    if e.socket.None? || e.socket.value.Closed? then Result(e, [], false)
    else
      var p := e.socket.value.port;
      var svc := Service(job.server, p);
      Result(e.(container := if starts && (e.container.Created? || e.container.Exited?) then Up(e.container.port)
                             else e.container,
                socket := Some(Closed(p)), listed := e.listed + [svc], pre2 := true),
             [PubMigrated(svc)], true)
  }

  /** An order to prepare or to migrate is queued, as it was given, exactly when the service
    * is listed and is to go to another server; a PRE_MIGRATE for the server itself is
    * answered at once. Neither changes anything else. */
  lemma OrdersAreQueued(e: Edge, self: string, job: Job)
    ensures var p, m := PreMigrate(e, self, job), Migrate(e, self, job);
            && p.ok && m.ok && m.out == []
            && p.e == e.(queue := p.e.queue) && m.e == e.(queue := m.e.queue)
            && p.e.queue == e.queue + (if job.server != self && e.listed != [] then [Prepare(job)] else [])
            && m.e.queue == e.queue + (if job.server != self && e.listed != [] then [MigrateCmd(job)] else [])
            && p.out == (if job.server == self then [PubPreMigrated(job)] else [])
  {
    assert e.queue + [] == e.queue;
  }

  /** A prepare is recorded even when it raises, and changes nothing else at the source. */
  lemma PrepareIsRecorded(e: Edge, job: Job, sock: bool)
    ensures var r := SourceCommand(e, Prepare(job), sock);
            && r.e == e.(record := true) && (r.ok <==> e.pre2)
            && r.out == if e.pre2 then [PubPreMigrated(job), SendPrepare(job)] else []
  {
  }
}
