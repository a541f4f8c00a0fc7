/** The ports of one machine over whole runs: whatever the handlers do for its services,
  * and whatever ports other programs open and close meanwhile, no two of them ever hold
  * the same port, and a migrated container listens where its user is sent. */
module Ports {
  import opened Basics
  import opened Handlers
  import opened EdgeServices
  import opened EdgeNode
  import E = EdgeHandlers

  datatype Machine = Machine(containers: map<Key, E.Container>, sockets: map<Key, E.Socket>, foreign: set<nat>)

  /** `e` is the state of the service that the handler sees. */
  datatype Move =
    | Deploys(k: Key, e: E.Edge, port: nat)
    | Commands(k: Key, e: E.Edge, sock: bool)
    | Prepares(k: Key, e: E.Edge, free: Option<nat>)
    | Lands(k: Key, e: E.Edge, job: Job, starts: bool)
    | Others(ports: set<nat>)

  function Busy(m: Machine): set<nat> {
    TakenPorts(m.containers, m.sockets, m.foreign)
  }

  /** A port the search for an open one can return. */
  predicate IsOpen(m: Machine, p: nat) {
    InRange(p) && p !in Busy(m)
  }

  predicate Sees(m: Machine, k: Key, e: E.Edge) {
    e.container == ContainerIn(m.containers, k) && e.socket == Get(m.sockets, k)
  }

  /** The port of the exited container belongs to somebody else by now. */
  predicate Blocked(m: Machine, k: Key, e: E.Edge) {
    e.container.Exited? && e.container.port in OthersPorts(m.containers, m.sockets, m.foreign, k)
  }

  /** Docker starts no container behind a port that is taken, and the machine gives other
    * programs no port that a service holds. */
  ghost predicate CanMove(m: Machine, v: Move) {
    match v
    case Deploys(k, e, port) => Sees(m, k, e) && IsOpen(m, port)
    case Commands(k, e, _) => Sees(m, k, e) && e.queue != []
    case Prepares(k, e, free) => Sees(m, k, e) && (free.Some? ==> IsOpen(m, free.value))
    case Lands(k, e, _, starts) => Sees(m, k, e) && (starts ==> !Blocked(m, k, e))
    case Others(ports) => forall k, p | Held(m.containers, m.sockets, k, p) :: p !in ports
  }

  function Did(v: Move, self: string): E.Result
    requires !v.Others? && (v.Commands? ==> v.e.queue != [])
  {
    match v
    case Deploys(_, e, port) => E.Deploy(e, self, port)
    case Commands(_, e, sock) => E.SourceStep(e, sock)
    case Prepares(_, e, free) => E.DestPrepare(e, free)
    case Lands(_, e, job, starts) => E.DestMigrate(e, job, starts)
  }

  function Kept(m: Machine, k: Key, e: E.Edge): Machine {
    m.(containers := m.containers[k := e.container],
       sockets := if e.socket.Some? then m.sockets[k := e.socket.value] else m.sockets)
  }

  function Moved(m: Machine, v: Move, self: string): Machine
    requires CanMove(m, v)
  {
    if v.Others? then m.(foreign := v.ports) else Kept(m, v.k, Did(v, self).e)
  }

  ghost function MovedAll(m: Machine, vs: seq<Move>, self: string): Option<Machine>
    decreases |vs|
  {
    if vs == [] then Some(m)
    else if !CanMove(m, vs[0]) then None
    else MovedAll(Moved(m, vs[0], self), vs[1..], self)
  }

  ghost predicate Ok(m: Machine) {
    Exclusive(m.containers, m.sockets, m.foreign)
  }

  /** Nobody but `k` holds the port. */
  predicate Free(m: Machine, k: Key, p: nat) {
    p !in OthersPorts(m.containers, m.sockets, m.foreign, k)
  }

  lemma FreeMeans(m: Machine, k: Key, p: nat)
    ensures Free(m, k, p) <==> p !in m.foreign && forall o | o != k :: !Held(m.containers, m.sockets, o, p)
  {
    OthersHold(m.containers, m.sockets, m.foreign, k, p);
  }

  lemma OwnIsFree(m: Machine, k: Key, p: nat)
    requires Ok(m) && (Held(m.containers, m.sockets, k, p) || IsOpen(m, p))
    ensures Free(m, k, p)
  {
    FreeMeans(m, k, p);
  }

  /** What a handler leaves its service holding, it held before or found open. */
  predicate TakesOpen(m: Machine, k: Key, e: E.Edge) {
    && (!e.container.Absent? ==> InRange(e.container.port))
    && (e.container.Up? ==> Free(m, k, e.container.port))
    && (e.socket.Some? && e.socket.value.Open? ==> InRange(e.socket.value.port) && Free(m, k, e.socket.value.port))
    && (e.container.Created? && e.socket.Some? && e.socket.value.Open? ==> e.container.port == e.socket.value.port)
  }

  /** No handler forgets a socket. */
  lemma KeptOk(m: Machine, k: Key, e: E.Edge)
    requires Ok(m) && TakesOpen(m, k, e) && (k in m.sockets ==> e.socket.Some?)
    ensures Ok(Kept(m, k, e))
  {
    var m' := Kept(m, k, e);
    forall p | Held(m'.containers, m'.sockets, k, p) && !Held(m.containers, m.sockets, k, p)
      ensures InRange(p) && p !in m.foreign && forall o :: !Held(m.containers, m.sockets, o, p)
    {
      FreeMeans(m, k, p);
    }
    Exchange(m.containers, m.sockets, m.foreign, k, m'.containers, m'.sockets);
  }

  lemma HandlerTakesOpen(m: Machine, v: Move, self: string)
    requires Ok(m) && CanMove(m, v) && !v.Others?
    ensures var e := Did(v, self).e; TakesOpen(m, v.k, e) && (v.k in m.sockets ==> e.socket.Some?)
  {
    CreatedHasSocketPort(m, v.k, v.e);
    if v.Deploys? {
      OwnIsFree(m, v.k, v.port);
    } else if v.Prepares? && v.free.Some? {
      OwnIsFree(m, v.k, v.free.value);
    }
  }

  lemma CreatedHasSocketPort(m: Machine, k: Key, e: E.Edge)
    requires Ok(m) && Sees(m, k, e)
    ensures e.container.Created? && e.socket.Some? && e.socket.value.Open? ==> e.container.port == e.socket.value.port
    ensures !e.container.Absent? ==> InRange(e.container.port)
    ensures e.container.Up? ==> Free(m, k, e.container.port)
    ensures e.socket.Some? && e.socket.value.Open? ==> InRange(e.socket.value.port) && Free(m, k, e.socket.value.port)
  {
    if e.container.Up? {
      OwnIsFree(m, k, e.container.port);
    }
    if e.socket.Some? && e.socket.value.Open? {
      assert Held(m.containers, m.sockets, k, e.socket.value.port);
      OwnIsFree(m, k, e.socket.value.port);
    }
  }

  lemma MoveKeeps(m: Machine, v: Move, self: string)
    requires Ok(m) && CanMove(m, v)
    ensures Ok(Moved(m, v, self))
  {
    if v.Others? {
    } else {
      HandlerTakesOpen(m, v, self);
      KeptOk(m, v.k, Did(v, self).e);
    }
  }

  /** Ports are exclusive in every run. */
  lemma {:induction false} PortsStayExclusive(m: Machine, vs: seq<Move>, self: string)
    requires Ok(m) && MovedAll(m, vs, self).Some?
    ensures Ok(MovedAll(m, vs, self).value)
    decreases |vs|
  {
    if vs == [] {
    } else {
      MoveKeeps(m, vs[0], self);
      PortsStayExclusive(Moved(m, vs[0], self), vs[1..], self);
    }
  }

  /** After any run, a migrated container that docker starts as it was created listens on
    * the port its user is told, and nobody else on the machine has that port. */
  lemma UsersFindTheirService(foreign: set<nat>, vs: seq<Move>, self: string, v: Move)
    requires MovedAll(Machine(map[], map[], foreign), vs, self).Some?
    requires var m := MovedAll(Machine(map[], map[], foreign), vs, self).value;
             CanMove(m, v) && v.Lands? && v.starts && v.e.container.Created? && Did(v, self).ok
    ensures var m := MovedAll(Machine(map[], map[], foreign), vs, self).value;
            var m', p := Moved(m, v, self), v.e.container.port;
            && Did(v, self).out == [E.PubMigrated(Service(v.job.server, p))]
            && Held(m'.containers, m'.sockets, v.k, p) && p !in m'.foreign
            && forall o | Held(m'.containers, m'.sockets, o, p) :: o == v.k
  {
    var m := MovedAll(Machine(map[], map[], foreign), vs, self).value;
    PortsStayExclusive(Machine(map[], map[], foreign), vs, self);
    CreatedHasSocketPort(m, v.k, v.e);
    MoveKeeps(m, v, self);
    var m' := Moved(m, v, self);
    assert Held(m'.containers, m'.sockets, v.k, v.e.container.port);
  }
}
