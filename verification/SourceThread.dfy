/** The source thread of a machine and its queue (migrate_source.py), over all services.
  * The thread ends at the first handler that raises, and all migrations share one
  * socket: a prepare replaces it, a migrate sends through it and closes it. */
module SourceThread {
  import opened Basics
  import opened EdgeServices
  import opened Pairs
  import E = EdgeHandlers

  type Order = (Key, E.Cmd)

  /** What the commands depend on: every service's state, and the socket. */
  datatype Thread = Thread(edges: map<Key, E.Edge>, sock: bool)

  predicate Knows(t: Thread, q: seq<Order>) {
    forall i | 0 <= i < |q| :: q[i].0 in t.edges
  }

  /** One command; None when its handler raises. */
  function Ran(t: Thread, o: Order): (r: Option<Thread>)
    requires o.0 in t.edges
    ensures r.Some? ==> r.value.edges.Keys == t.edges.Keys
  {
    var e := t.edges[o.0];
    var r := E.SourceCommand(e, o.1, t.sock);
    if r.ok then Some(Thread(t.edges[o.0 := r.e], E.SockAfter(e, o.1, t.sock))) else None
  }

  /** The first `i` commands of a queue. */
  function RanTo(t: Thread, q: seq<Order>, i: nat): (r: Option<Thread>)
    requires Knows(t, q) && i <= |q|
    ensures r.Some? ==> r.value.edges.Keys == t.edges.Keys
  {
    if i == 0 then Some(t)
    else
      var r := RanTo(t, q, i - 1);
      if r.None? then None else Ran(r.value, q[i - 1])
  }

  /** The thread runs its whole queue. */
  predicate Served(t: Thread, q: seq<Order>)
    requires Knows(t, q)
  {
    RanTo(t, q, |q|).Some?
  }

  // ------------------------------------------- what a command needs, in closed form

  /** Service `k` is migrated between positions `j` and `i`. */
  ghost predicate Migrated(q: seq<Order>, k: Key, j: int, i: int) {
    exists m :: j <= m < i && 0 <= m < |q| && q[m].0 == k && q[m].1.MigrateCmd?
  }

  ghost predicate AnyMigrated(q: seq<Order>, j: int, i: int) {
    exists m :: j <= m < i && 0 <= m < |q| && q[m].1.MigrateCmd?
  }

  ghost predicate Running(t: Thread, q: seq<Order>, k: Key, i: int)
    requires k in t.edges
  {
    t.edges[k].container.Up? && !Migrated(q, k, 0, i)
  }

  /** The second snapshot is there: from before or by a measurement, and no migration
    * has removed it since. */
  ghost predicate Measured(t: Thread, q: seq<Order>, k: Key, i: int)
    requires k in t.edges
  {
    (t.edges[k].pre2 && !Migrated(q, k, 0, i)) || exists j :: MeasuredAt(q, k, j, i)
  }

  ghost predicate MeasuredAt(q: seq<Order>, k: Key, j: int, i: int) {
    0 <= j < i && j < |q| && q[j] == (k, E.Measure) && !Migrated(q, k, j + 1, i)
  }

  ghost predicate Prepared(t: Thread, q: seq<Order>, k: Key, i: int)
    requires k in t.edges
  {
    t.edges[k].record || exists j :: 0 <= j < i && j < |q| && q[j].0 == k && q[j].1.Prepare?
  }

  /** The socket is open: from the start or by a prepare of any service, and no
    * migration has closed it since. */
  ghost predicate Open(t: Thread, q: seq<Order>, i: int) {
    (t.sock && !AnyMigrated(q, 0, i)) || exists j :: OpenedAt(q, j, i)
  }

  ghost predicate OpenedAt(q: seq<Order>, j: int, i: int) {
    0 <= j < i && j < |q| && q[j].1.Prepare? && !AnyMigrated(q, j + 1, i)
  }

  /** What command `i` needs so as not to raise. */
  ghost predicate Guard(t: Thread, q: seq<Order>, i: int)
    requires Knows(t, q) && 0 <= i < |q|
  {
    var k := q[i].0;
    match q[i].1
    case PreMeasure => Running(t, q, k, i)
    case Measure => Running(t, q, k, i) && t.edges[k].listed != []
    case Prepare(_) => Measured(t, q, k, i)
    case MigrateCmd(_) => Prepared(t, q, k, i) && Open(t, q, i)
  }

  // --------------------------------------------------------------- one command on

  lemma MigratedNext(q: seq<Order>, k: Key, j: int, i: nat)
    requires i < |q| && j <= i
    ensures Migrated(q, k, j, i + 1) <==> Migrated(q, k, j, i) || (q[i].0 == k && q[i].1.MigrateCmd?)
  {
    if Migrated(q, k, j, i) {
      var m :| j <= m < i && 0 <= m < |q| && q[m].0 == k && q[m].1.MigrateCmd?;
      assert j <= m < i + 1;
    }
  }

  lemma AnyMigratedNext(q: seq<Order>, j: int, i: nat)
    requires i < |q| && j <= i
    ensures AnyMigrated(q, j, i + 1) <==> AnyMigrated(q, j, i) || q[i].1.MigrateCmd?
  {
    if AnyMigrated(q, j, i) {
      var m :| j <= m < i && 0 <= m < |q| && q[m].1.MigrateCmd?;
      assert j <= m < i + 1;
    }
  }

  lemma MeasuredNext(t: Thread, q: seq<Order>, k: Key, i: nat)
    requires i < |q| && k in t.edges
    ensures Measured(t, q, k, i + 1) <==>
              q[i] == (k, E.Measure) || (Measured(t, q, k, i) && !(q[i].0 == k && q[i].1.MigrateCmd?))
  {
    MigratedNext(q, k, 0, i);
    if q[i] == (k, E.Measure) {
      assert MeasuredAt(q, k, i, i + 1);
    }
    var n := i + 1;
    if j :| MeasuredAt(q, k, j, n) && j < i {
      MigratedNext(q, k, j + 1, i);
      assert MeasuredAt(q, k, j, i);
    }
    if j :| MeasuredAt(q, k, j, i) {
      MigratedNext(q, k, j + 1, i);
      assert MeasuredAt(q, k, j, i + 1) <==> !(q[i].0 == k && q[i].1.MigrateCmd?);
    }
  }

  lemma OpenNext(t: Thread, q: seq<Order>, i: nat)
    requires i < |q|
    ensures Open(t, q, i + 1) <==> q[i].1.Prepare? || (Open(t, q, i) && !q[i].1.MigrateCmd?)
  {
    AnyMigratedNext(q, 0, i);
    if q[i].1.Prepare? {
      assert OpenedAt(q, i, i + 1);
    }
    var n := i + 1;
    if j :| OpenedAt(q, j, n) && j < i {
      AnyMigratedNext(q, j + 1, i);
      assert OpenedAt(q, j, i);
    }
    if j :| OpenedAt(q, j, i) {
      AnyMigratedNext(q, j + 1, i);
      assert OpenedAt(q, j, i + 1) <==> !q[i].1.MigrateCmd?;
    }
  }

  lemma PreparedNext(t: Thread, q: seq<Order>, k: Key, i: nat)
    requires i < |q| && k in t.edges
    ensures Prepared(t, q, k, i + 1) <==> Prepared(t, q, k, i) || (q[i].0 == k && q[i].1.Prepare?)
  {
    if q[i].0 == k && q[i].1.Prepare? {
      assert 0 <= i < i + 1;
    }
  }

  /** What the first `i` commands have made of one service. */
  ghost predicate Follows(t: Thread, q: seq<Order>, e: E.Edge, k: Key, i: int)
    requires k in t.edges
  {
    && (e.container.Up? <==> Running(t, q, k, i))
    && (Running(t, q, k, i) ==> e.listed == t.edges[k].listed)
    && (e.pre2 <==> Measured(t, q, k, i))
    && (e.record <==> Prepared(t, q, k, i))
  }

  ghost predicate Inv(t: Thread, q: seq<Order>, s: Thread, i: int) {
    && s.edges.Keys == t.edges.Keys
    && (s.sock <==> Open(t, q, i))
    && forall k | k in t.edges :: Follows(t, q, s.edges[k], k, i)
  }

  lemma FollowsNext(t: Thread, q: seq<Order>, e: E.Edge, k: Key, i: nat, sock: bool)
    requires k in t.edges && i < |q| && Follows(t, q, e, k, i)
    ensures var r := E.SourceCommand(e, q[i].1, sock);
            if q[i].0 != k then Follows(t, q, e, k, i + 1) else r.ok ==> Follows(t, q, r.e, k, i + 1)
  {
    MigratedNext(q, k, 0, i);
    MeasuredNext(t, q, k, i);
    PreparedNext(t, q, k, i);
  }

  /** A command succeeds exactly when its guard holds, and leaves what it should. */
  lemma RanNext(t: Thread, q: seq<Order>, s: Thread, i: nat)
    requires Knows(t, q) && i < |q| && Inv(t, q, s, i)
    ensures Ran(s, q[i]).Some? <==> Guard(t, q, i)
    ensures Ran(s, q[i]).Some? ==> Inv(t, q, Ran(s, q[i]).value, i + 1)
  {
    var r := Ran(s, q[i]);
    assert Follows(t, q, s.edges[q[i].0], q[i].0, i);
    if r.Some? {
      OpenNext(t, q, i);
      forall k | k in t.edges
        ensures Follows(t, q, r.value.edges[k], k, i + 1)
      {
        FollowsNext(t, q, s.edges[k], k, i, s.sock);
      }
    }
  }

  lemma InvStart(t: Thread, q: seq<Order>)
    ensures Inv(t, q, t, 0)
  {
  }

  ghost predicate Guarded(t: Thread, q: seq<Order>, i: int)
    requires Knows(t, q) && i <= |q|
  {
    forall j | 0 <= j < i :: Guard(t, q, j)
  }

  lemma {:induction false} ServedTo(t: Thread, q: seq<Order>, i: nat)
    requires Knows(t, q) && i <= |q|
    ensures InvTo(t, q, RanTo(t, q, i), i)
  {
    if i == 0 {
      InvStart(t, q);
    } else {
      ServedTo(t, q, i - 1);
      ServedNext(t, q, RanTo(t, q, i - 1), i - 1);
    }
  }

  ghost predicate InvTo(t: Thread, q: seq<Order>, r: Option<Thread>, i: int)
    requires Knows(t, q) && i <= |q|
  {
    (r.Some? <==> Guarded(t, q, i)) && (r.Some? ==> Inv(t, q, r.value, i))
  }

  lemma ServedNext(t: Thread, q: seq<Order>, r: Option<Thread>, i: nat)
    requires Knows(t, q) && i < |q| && InvTo(t, q, r, i)
    requires r.Some? ==> r.value.edges.Keys == t.edges.Keys
    ensures InvTo(t, q, if r.None? then None else Ran(r.value, q[i]), i + 1)
  {
    GuardedNext(t, q, i);
    if r.Some? {
      RanNext(t, q, r.value, i);
    }
  }

  lemma GuardedNext(t: Thread, q: seq<Order>, i: nat)
    requires Knows(t, q) && i < |q|
    ensures Guarded(t, q, i + 1) <==> Guarded(t, q, i) && Guard(t, q, i)
  {
  }

  /** The thread serves its whole queue exactly when every command finds what it needs:
    * a measurement a running and listed service, a prepare its second snapshot, and a
    * migrate its prepare and a prepare, of any service, since the last migrate. */
  lemma ServedExactly(t: Thread, q: seq<Order>)
    requires Knows(t, q)
    ensures Served(t, q) <==> Guarded(t, q, |q|)
  {
    ServedTo(t, q, |q|);
  }

  /** So two migrates without a prepare between them end the thread, whatever it starts
    * from: two overlapping migrations lose the second container. */
  lemma OverlapIsLost(t: Thread, q: seq<Order>, i: nat, j: nat)
    requires Knows(t, q) && i < j < |q| && q[i].1.MigrateCmd? && q[j].1.MigrateCmd?
    requires forall m | i < m < j :: !q[m].1.Prepare?
    ensures !Served(t, q)
  {
    ServedExactly(t, q);
    assert AnyMigrated(q, 0, j);
    forall m
      ensures !OpenedAt(q, m, j)
    {
      if 0 <= m < i {
        assert AnyMigrated(q, m + 1, j);
      }
    }
    assert !Guard(t, q, j) && !Guarded(t, q, |q|);
  }

  // -------------------------------------------------------------- paired queues

  function KindOf(cmd: E.Cmd): Kind {
    match cmd
    case PreMeasure => Measuring
    case Measure => Measuring
    case Prepare(_) => Preparing
    case MigrateCmd(_) => Migrating
  }

  function Tokens(q: seq<Order>): (ts: seq<Token<Key>>)
    ensures |ts| == |q| && forall i | 0 <= i < |q| :: ts[i] == Token(q[i].0, KindOf(q[i].1))
  {
    seq(|q|, i requires 0 <= i < |q| => Token(q[i].0, KindOf(q[i].1)))
  }

  /** In a queue of pairs no migrate ever raises; the thread serves it exactly when the
    * measurements and the prepares find what they need. */
  lemma PairedIsServed(t: Thread, q: seq<Order>)
    requires Knows(t, q) && PairedFrom(Tokens(q), None)
    ensures forall i | 0 <= i < |q| && q[i].1.MigrateCmd? :: Guard(t, q, i)
    ensures Served(t, q) <==> forall i | 0 <= i < |q| && !q[i].1.MigrateCmd? :: Guard(t, q, i)
  {
    forall i | 0 <= i < |q| && q[i].1.MigrateCmd?
      ensures Guard(t, q, i)
    {
      PairedGuard(t, q, i);
    }
    ServedExactly(t, q);
  }

  lemma PairedGuard(t: Thread, q: seq<Order>, i: nat)
    requires Knows(t, q) && PairedFrom(Tokens(q), None) && i < |q| && q[i].1.MigrateCmd?
    ensures Guard(t, q, i)
  {
    var ts := Tokens(q);
    PreparedBefore(ts, None, i);
    var j :| 0 <= j < i && ts[j] == Token(ts[i].who, Preparing) && QuietBetween(ts, j, i);
    assert q[j].0 == q[i].0 && q[j].1.Prepare?;
    forall m | j < m < i
      ensures !q[m].1.MigrateCmd?
    {
      assert ts[m].kind == Measuring;
    }
    assert OpenedAt(q, j, i);
  }

  // ------------------------------------------------------------- what is lost

  /** The end of a queue: the services, and those whose `migrate` datagram went out. */
  datatype End = End(edges: map<Key, E.Edge>, sent: set<Key>)

  /** Runs the queue from position `i` to its end or to the first command that raises,
    * which still does to its service what it did before it raised. */
  function Finish(s: Thread, q: seq<Order>, i: nat): (r: End)
    requires Knows(s, q) && i <= |q|
    ensures r.edges.Keys == s.edges.Keys
    decreases |q| - i
  {
    if i == |q| then End(s.edges, {})
    else
      var (k, cmd) := q[i];
      var r := E.SourceCommand(s.edges[k], cmd, s.sock);
      var edges := s.edges[k := r.e];
      if !r.ok then End(edges, {})
      else
        var rest := Finish(Thread(edges, E.SockAfter(s.edges[k], cmd, s.sock)), q, i + 1);
        rest.(sent := rest.sent + if cmd.MigrateCmd? then {k} else {})
  }

  /** The container is still here, or on its way. */
  predicate Survives(end: End, k: Key)
    requires k in end.edges
  {
    end.edges[k].container.Up? || k in end.sent
  }

  /** Command `m` is reached, is a migrate of the running service `k` that was prepared,
    * and finds the socket closed. */
  ghost predicate Loses(t: Thread, q: seq<Order>, k: Key, m: int)
    requires Knows(t, q) && k in t.edges
  {
    && 0 <= m < |q| && q[m].0 == k && q[m].1.MigrateCmd? && Guarded(t, q, m)
    && Running(t, q, k, m) && Prepared(t, q, k, m) && !Open(t, q, m)
  }

  ghost predicate LosesFrom(t: Thread, q: seq<Order>, k: Key, i: int)
    requires Knows(t, q) && k in t.edges
  {
    exists m :: i <= m && Loses(t, q, k, m)
  }

  /** Nothing after a command that raises is reached. */
  lemma NothingAfter(t: Thread, q: seq<Order>, k: Key, i: nat)
    requires Knows(t, q) && k in t.edges && i < |q| && (!Guard(t, q, i) || Migrated(q, k, 0, i + 1))
    ensures LosesFrom(t, q, k, i) <==> Loses(t, q, k, i)
  {
    var n := i + 1;
    forall m | n <= m
      ensures !Loses(t, q, k, m)
    {
      if n <= m && Migrated(q, k, 0, n) {
        var j :| 0 <= j < n && 0 <= j < |q| && q[j].0 == k && q[j].1.MigrateCmd?;
        assert j < m;
        assert Migrated(q, k, 0, m);
      }
    }
  }

  lemma {:induction false} SurvivesFrom(t: Thread, q: seq<Order>, s: Thread, i: nat, k: Key)
    requires Knows(t, q) && i <= |q| && Inv(t, q, s, i) && Guarded(t, q, i) && k in t.edges && s.edges[k].container.Up?
    ensures Survives(Finish(s, q, i), k) <==> !LosesFrom(t, q, k, i)
    decreases |q| - i
  {
    if i == |q| {
    } else {
      RanNext(t, q, s, i);
      GuardedNext(t, q, i);
      MigratedNext(q, k, 0, i);
      assert Follows(t, q, s.edges[k], k, i);
      if Ran(s, q[i]).None? {
        NothingAfter(t, q, k, i);
      } else if q[i].0 == k && q[i].1.MigrateCmd? {
        NothingAfter(t, q, k, i);
      } else {
        SurvivesFrom(t, q, Ran(s, q[i]).value, i + 1, k);
        LosesLater(t, q, k, i);
      }
    }
  }

  lemma LosesLater(t: Thread, q: seq<Order>, k: Key, i: nat)
    requires Knows(t, q) && k in t.edges && i < |q| && !(q[i].0 == k && q[i].1.MigrateCmd?)
    ensures LosesFrom(t, q, k, i) <==> LosesFrom(t, q, k, i + 1)
  {
  }

  /** Whatever planner filled the queue: a running container survives it, here or on its
    * way, exactly when no migrate of it that is reached finds the socket closed. */
  lemma SurvivesExactly(t: Thread, q: seq<Order>, k: Key)
    requires Knows(t, q) && k in t.edges && t.edges[k].container.Up?
    ensures Survives(Finish(t, q, 0), k) <==> !LosesFrom(t, q, k, 0)
  {
    InvStart(t, q);
    SurvivesFrom(t, q, t, 0, k);
  }

  /** Two migrations that overlap: the second container is stopped, still listed here, and
    * nothing of it is on its way. */
  lemma SecondIsLost(t: Thread, u: Key, v: Key, ju: E.Cmd, jv: E.Cmd, mu: E.Cmd, mv: E.Cmd)
    requires u != v && u in t.edges && v in t.edges && t.edges[u].pre2 && t.edges[v].pre2 && t.edges[v].container.Up?
    requires ju.Prepare? && jv.Prepare? && mu.MigrateCmd? && mv.MigrateCmd?
    ensures var end := Finish(t, [(u, ju), (v, jv), (u, mu), (v, mv)], 0);
            && u in end.sent && v !in end.sent && end.edges[v].container.Exited?
            && end.edges[v].listed == t.edges[v].listed
  {
    var q := [(u, ju), (v, jv), (u, mu), (v, mv)];
    var t1 := Ran(t, q[0]).value;
    var t2 := Ran(t1, q[1]).value;
    var t3 := Ran(t2, q[2]).value;
    assert !t3.sock && t3.edges[v].record && t3.edges[v].container.Up?;
    assert Finish(t3, q, 3).sent == {};
    assert Finish(t2, q, 2).edges == Finish(t3, q, 3).edges;
    assert Finish(t1, q, 1) == Finish(t2, q, 2);
  }
}
