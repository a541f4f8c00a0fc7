/** How long before a handover the migration has to start (planner.py, and the
  * migration times the database keeps for a user in central_database.py). */
module LeadTimes {
  import opened Basics
  import opened Sums
  import Assignment

  type Link = (string, string)

  /** The value of a dictionary at a key; zero without one. */
  function ValueAt(m: map<Link, real>, k: Link): real {
    if k in m then m[k] else 0.0
  }

  /** `order` lists the keys of `m`, each once. */
  ghost predicate Lists(order: seq<Link>, m: map<Link, real>) {
    Distinct(order) && forall k :: k in order <==> k in m
  }

  ghost predicate IsMean(avg: real, m: map<Link, real>, order: seq<Link>) {
    Lists(order, m) && order != [] && avg * (|order| as real) == Sum(order, k => ValueAt(m, k))
  }

  ghost predicate IsMaximum(max: real, m: map<Link, real>) {
    (exists k :: k in m && m[k] == max) && forall k | k in m :: m[k] <= max
  }

  lemma SumNext(order: seq<Link>, k: Link, m: map<Link, real>)
    requires k in m && Distinct(order) && k !in order
    ensures Sum([k] + order, k => ValueAt(m, k)) == m[k] + Sum(order, k => ValueAt(m, k))
    ensures Distinct([k] + order) && forall x :: x in [k] + order <==> x == k || x in order
  {
    assert ([k] + order)[1..] == order;
  }

  lemma {:induction false} SumBelow(order: seq<Link>, m: map<Link, real>, max: real)
    requires forall k | k in order :: ValueAt(m, k) <= max
    ensures Sum(order, k => ValueAt(m, k)) <= max * (|order| as real)
  {
    if order == [] {
    } else {
      SumBelow(order[1..], m, max);
      assert max * (|order| as real) == max + max * (|order[1..]| as real);
    }
  }

  lemma MeanBelowMaximum(avg: real, max: real, m: map<Link, real>, order: seq<Link>)
    requires IsMean(avg, m, order) && IsMaximum(max, m)
    ensures avg <= max
  {
    SumBelow(order, m, max);
    var n := |order| as real;
    assert n * (max - avg) >= 0.0;
  }

  /** The migration times known for one user. */
  class EstimateTime {
    var tPreMig: map<Link, real>
    var tMig: map<Link, real>
    var noConnect: nat

    /** Whenever a migration time is known, so is its pre-migration time. */
    ghost predicate Valid() reads this {
      tMig.Keys <= tPreMig.Keys && |tMig| <= noConnect
    }

    constructor ()
      ensures Valid() && tPreMig == map[] && tMig == map[] && noConnect == 0
    {
      tPreMig, tMig, noConnect := map[], map[], 0;
    }

    /** Counts updates, so `noConnect` may be more than the number of links. */
    method UpdateTime(source: string, dest: string, preMig: real, mig: real)
      requires Valid()
      modifies this
      ensures Valid()
      ensures tPreMig == old(tPreMig)[(source, dest) := preMig] && tMig == old(tMig)[(source, dest) := mig]
      ensures noConnect == old(noConnect) + 1
    {
      tPreMig := tPreMig[(source, dest) := preMig];
      assert tMig[(source, dest) := mig].Keys == tMig.Keys + {(source, dest)};
      tMig := tMig[(source, dest) := mig];
      noConnect := noConnect + 1;
    }

    method UpdateTPreMig(source: string, dest: string, preMig: real)
      requires Valid()
      modifies this
      ensures Valid()
      ensures tPreMig == old(tPreMig)[(source, dest) := preMig] && tMig == old(tMig) && noConnect == old(noConnect)
    {
      tPreMig := tPreMig[(source, dest) := preMig];
    }

    method AverageEstPreMig() returns (avg: Option<real>, ghost order: seq<Link>)
      ensures avg.None? <==> tPreMig == map[]
      ensures avg.Some? ==> IsMean(avg.value, tPreMig, order)
    {
      order := [];
      if |tPreMig| == 0 {
        return None, [];
      }
      var sum, todo, m := 0.0, tPreMig.Keys, tPreMig;
      while todo != {}
        invariant todo <= tPreMig.Keys
        invariant Distinct(order) && forall k :: k in order <==> k in tPreMig && k !in todo
        invariant |order| + |todo| == |tPreMig|
        invariant sum == Sum(order, k => ValueAt(m, k))
        decreases |todo|
      {
        var k :| k in todo;
        SumNext(order, k, m);
        assert |todo - {k}| == |todo| - 1;
        sum := tPreMig[k] + sum;
        todo := todo - {k};
        order := [k] + order;
      }
      avg := Some(sum / (|tPreMig| as real));
    }

    method MaxEstPreMig() returns (max: Option<real>)
      ensures max.None? <==> tPreMig == map[]
      ensures max.Some? ==> IsMaximum(max.value, tPreMig)
    {
      if |tPreMig| == 0 {
        return None;
      }
      var first :| first in tPreMig;
      var best, todo := tPreMig[first], tPreMig.Keys - {first};
      while todo != {}
        invariant todo <= tPreMig.Keys
        invariant exists k :: k in tPreMig && tPreMig[k] == best
        invariant forall k | k in tPreMig && k !in todo :: tPreMig[k] <= best
        decreases |todo|
      {
        var k :| k in todo;
        if tPreMig[k] > best {
          best := tPreMig[k];
        }
        todo := todo - {k};
      }
      max := Some(best);
    }
  }

  /** What `get_est_pre_mig_time` and `get_est_mig_time` look up. */
  function EstTime(m: map<Link, real>, source: string, dest: string): Option<real> {
    if source == dest then Some(0.0) else Get(m, (source, dest))
  }

  // -------------------------------------------------------------- lead times

  const LONG := 1000.0
  const MARGIN := 1.1

  /** Time until the handover from one base station to another, at a hysteresis. */
  type Crossings = (string, string, real) -> Option<real>

  const NEIGHBOUR_HYSTERESIS := 2.0
  const HANDOVER_HYSTERESIS := 7.0

  function Min(a: real, b: real): real {
    if b < a then b else a
  }

  function Max(a: real, b: real): real {
    if b > a then b else a
  }

  /** `lifetime_to_mig`. */
  function MigLead(cur: Option<Assignment.Place>, server: string, bts: string,
                   tMig: Option<real>, till: Option<real>): Option<real>
  {
    if cur.None? then Some(LONG)
    else if tMig.None? then None
    else if cur.value.bts == bts then Some(0.0)
    else if till.None? then None
    else Some(Min(LONG, till.value - MARGIN * Max(Assignment.HandoverTime(cur.value.bts, bts), tMig.value)))
  }

  /** `lifetime_to_pre_mig`. */
  function PreMigLead(cur: Option<Assignment.Place>, server: string, bts: string,
                      tPreMig: Option<real>, tMig: Option<real>, till: Option<real>): Option<real>
  {
    if cur.None? then Some(LONG)
    else if tMig.None? || tPreMig.None? then None
    else if cur.value.bts == bts then Some(0.0)
    else if till.None? then None
    else
      var handover := Assignment.HandoverTime(cur.value.bts, bts);
      Some(Min(LONG, till.value - MARGIN * (Max(handover, tMig.value) + tPreMig.value)))
  }

  /** What the planner asks the database about one user. */
  datatype Knowledge = Knowledge(cur: Option<Assignment.Place>, tPreMig: map<Link, real>, tMig: map<Link, real>,
                                 crossings: Crossings)
  {
    function Till(bts: string): Option<real>
      requires cur.Some?
    {
      crossings(cur.value.bts, bts, HANDOVER_HYSTERESIS)
    }

    function ToMig(server: string, bts: string): Option<real> {
      if cur.None? then MigLead(cur, server, bts, None, None)
      else MigLead(cur, server, bts, EstTime(tMig, cur.value.server, server), Till(bts))
    }

    function ToPreMig(server: string, bts: string): Option<real> {
      if cur.None? then PreMigLead(cur, server, bts, None, None, None)
      else PreMigLead(cur, server, bts, EstTime(tPreMig, cur.value.server, server),
                      EstTime(tMig, cur.value.server, server), Till(bts))
    }
  }

  /** The migration lead time is the latest start, in seconds from now and at most 1000,
    * for which the migration over this link and the handover, each with a tenth to spare,
    * still end before the user crosses over. It is unknown exactly without a migration
    * time of the link or without a crossing. */
  lemma MigLeadIsGreatest(k: Knowledge, server: string, bts: string, lead: real)
    ensures k.cur.None? ==> k.ToMig(server, bts) == Some(1000.0)
    ensures k.cur.Some? ==>
              var cur, r := k.cur.value, k.ToMig(server, bts);
              var till := k.crossings(cur.bts, bts, 7.0);
              && (r.None? <==> (cur.server != server && (cur.server, server) !in k.tMig) ||
                               (cur.bts != bts && till.None?))
              && (r.Some? && cur.bts == bts ==> r.value == 0.0)
              && (r.Some? && cur.bts != bts ==>
                    var mig := if cur.server == server then 0.0 else k.tMig[(cur.server, server)];
                    (lead <= r.value <==>
                       lead <= 1000.0 && lead + 1.1 * mig <= till.value && lead + 1.1 * 0.5 <= till.value))
  {
  }

  /** The same with the pre-migration before either of the two. */
  lemma PreMigLeadIsGreatest(k: Knowledge, server: string, bts: string, lead: real)
    ensures k.cur.None? ==> k.ToPreMig(server, bts) == Some(1000.0)
    ensures k.cur.Some? ==>
              var cur, r := k.cur.value, k.ToPreMig(server, bts);
              var till := k.crossings(cur.bts, bts, 7.0);
              && (r.None? <==>
                    (cur.server != server &&
                     ((cur.server, server) !in k.tMig || (cur.server, server) !in k.tPreMig)) ||
                    (cur.bts != bts && till.None?))
              && (r.Some? && cur.bts == bts ==> r.value == 0.0)
              && (r.Some? && cur.bts != bts ==>
                    var mig := if cur.server == server then 0.0 else k.tMig[(cur.server, server)];
                    var pre := if cur.server == server then 0.0 else k.tPreMig[(cur.server, server)];
                    (lead <= r.value <==>
                       lead <= 1000.0 && lead + 1.1 * (mig + pre) <= till.value &&
                       lead + 1.1 * (0.5 + pre) <= till.value))
  {
  }

  /** The pre-migration has to start before the migration: by exactly the
    * pre-migration time with its margin, unless nothing has to be waited for or a
    * value is capped. With the times an EstimateTime keeps, both are known or none. */
  lemma PreMigrationComesFirst(k: Knowledge, server: string, bts: string)
    requires k.tMig.Keys <= k.tPreMig.Keys
    requires forall l | l in k.tPreMig :: k.tPreMig[l] >= 0.0
    ensures var pre, mig := k.ToPreMig(server, bts), k.ToMig(server, bts);
            && (pre.Some? <==> mig.Some?)
            && (pre.Some? ==> pre.value <= mig.value)
            && (pre.Some? && k.cur.Some? && k.cur.value.bts != bts && mig.value < LONG ==>
                mig.value - pre.value == MARGIN * EstTime(k.tPreMig, k.cur.value.server, server).value)
            && (pre.Some? && (k.cur.Some? ==> k.cur.value.bts == bts || k.cur.value.server == server) ==> pre == mig)
  {
    if k.cur.Some? {
      var t := EstTime(k.tPreMig, k.cur.value.server, server);
      var down := Max(Assignment.HandoverTime(k.cur.value.bts, bts),
                      if EstTime(k.tMig, k.cur.value.server, server).Some?
                      then EstTime(k.tMig, k.cur.value.server, server).value else 0.0);
      if t.Some? {
        assert MARGIN * (down + t.value) == MARGIN * down + MARGIN * t.value;
      }
    }
  }

  /** Without any assumption on the two tables, a pre-migration lead time is only
    * given along with a migration lead time. */
  lemma PreMigLeadImpliesMigLead(k: Knowledge, server: string, bts: string)
    requires k.ToPreMig(server, bts).Some?
    ensures k.ToMig(server, bts).Some?
  {
  }

  // ------------------------------------------------------- neighbour searches

  /** The crossings that a neighbour search looks at. */
  predicate Reachable(cur: string, crossings: Crossings, bts: string) {
    bts != cur && crossings(cur, bts, NEIGHBOUR_HYSTERESIS).Some?
  }

  function LeadTo(cur: string, crossings: Crossings, bts: string, t: real): real
    requires Reachable(cur, crossings, bts)
  {
    crossings(cur, bts, NEIGHBOUR_HYSTERESIS).value - MARGIN * t
  }

  /** `life` is the least lead time over all reachable neighbours, but at most the cap. */
  ghost predicate IsLeast(life: real, cur: string, crossings: Crossings, neighbours: seq<string>, t: real) {
    && life <= LONG
    && (forall b | b in neighbours && Reachable(cur, crossings, b) :: life <= LeadTo(cur, crossings, b, t))
    && (life < LONG ==>
          exists b :: b in neighbours && Reachable(cur, crossings, b) && life == LeadTo(cur, crossings, b, t))
  }

  /** The result of a search is the latest start, at most 1000 seconds from now, for which
    * a pre-migration of `t` seconds and a tenth more is over before the user crosses to
    * any neighbour that it can reach. */
  lemma LeastIsGreatest(life: real, cur: string, crossings: Crossings, neighbours: seq<string>, t: real, lead: real)
    requires IsLeast(life, cur, crossings, neighbours, t)
    ensures lead <= life <==>
              && lead <= 1000.0
              && forall b | b in neighbours && b != cur && crossings(cur, b, 2.0).Some? ::
                   lead + 1.1 * t <= crossings(cur, b, 2.0).value
  {
    if life < 1000.0 {
      var b :| b in neighbours && Reachable(cur, crossings, b) && life == LeadTo(cur, crossings, b, t);
      assert crossings(cur, b, 2.0).Some?;
    }
    forall b | b in neighbours && b != cur && crossings(cur, b, 2.0).Some?
      ensures life + 1.1 * t <= crossings(cur, b, 2.0).value
    {
      assert Reachable(cur, crossings, b) && life <= LeadTo(cur, crossings, b, t);
    }
  }

  /** The longer the time to prepare, the earlier the start. */
  lemma LeastDecreases(life1: real, life2: real, cur: string, crossings: Crossings, neighbours: seq<string>,
                       t1: real, t2: real)
    requires IsLeast(life1, cur, crossings, neighbours, t1) && IsLeast(life2, cur, crossings, neighbours, t2)
    requires t1 <= t2
    ensures life2 <= life1
    ensures life1 - life2 <= MARGIN * (t2 - t1)
  {
    if life1 < LONG {
      var b :| b in neighbours && Reachable(cur, crossings, b) && life1 == LeadTo(cur, crossings, b, t1);
      assert life2 <= LeadTo(cur, crossings, b, t2);
    }
    if life2 < LONG {
      var b :| b in neighbours && Reachable(cur, crossings, b) && life2 == LeadTo(cur, crossings, b, t2);
      assert life1 <= LeadTo(cur, crossings, b, t1);
    }
  }

  /** The start by the maximum is never later than the start by the average. */
  lemma MaximumStartsFirst(byAvg: real, byMax: real, cur: string, crossings: Crossings, neighbours: seq<string>,
                           avg: real, max: real, m: map<Link, real>, order: seq<Link>)
    requires IsMean(avg, m, order) && IsMaximum(max, m)
    requires IsLeast(byAvg, cur, crossings, neighbours, avg) && IsLeast(byMax, cur, crossings, neighbours, max)
    ensures byMax <= byAvg
  {
    MeanBelowMaximum(avg, max, m, order);
    LeastDecreases(byAvg, byMax, cur, crossings, neighbours, avg, max);
  }

  class MigrationPlanner {
    var curAssign: map<string, Option<Assignment.Place>>

    constructor ()
      ensures curAssign == map[]
    {
      curAssign := map[];
    }

    /** The neighbour loop of the two searches. */
    method SearchNeighbours(cur: string, crossings: Crossings, neighbours: seq<string>, t: real) returns (life: real)
      ensures IsLeast(life, cur, crossings, neighbours, t)
    {
      life := LONG;
      for i := 0 to |neighbours|
        invariant IsLeast(life, cur, crossings, neighbours[..i], t)
      {
        assert neighbours[..i + 1] == neighbours[..i] + [neighbours[i]];
        var bts := neighbours[i];
        if bts == cur {
          continue;
        }
        var till := crossings(cur, bts, NEIGHBOUR_HYSTERESIS);
        if till.None? {
          continue;
        }
        var temp := till.value - MARGIN * t;
        if temp < life {
          life := temp;
          assert Reachable(cur, crossings, bts) && life == LeadTo(cur, crossings, bts, t);
        }
      }
      assert neighbours[..|neighbours|] == neighbours;
    }

    method LifetimeToAveragePreMig(user: string, cur: Option<Assignment.Place>, crossings: Crossings,
                                   neighbours: seq<string>, times: EstimateTime)
      returns (r: Option<(real, real)>, ghost order: seq<Link>)
      modifies this
      ensures curAssign == old(curAssign)[user := cur]
      ensures r.Some? <==> cur.Some? && times.tPreMig != map[]
      ensures r.Some? ==> IsMean(r.value.0, times.tPreMig, order) &&
                          IsLeast(r.value.1, cur.value.bts, crossings, neighbours, r.value.0)
    {
      order := [];
      curAssign := curAssign[user := cur];
      if cur.None? {
        return None, [];
      }
      var avg;
      avg, order := times.AverageEstPreMig();
      if avg.None? {
        return None, order;
      }
      var life := SearchNeighbours(cur.value.bts, crossings, neighbours, avg.value);
      r := Some((avg.value, life));
    }

    method LifetimeToMaxPreMig(user: string, cur: Option<Assignment.Place>, crossings: Crossings,
                               neighbours: seq<string>, times: EstimateTime)
      returns (r: Option<(real, real)>)
      modifies this
      ensures curAssign == old(curAssign)[user := cur]
      ensures r.Some? <==> cur.Some? && times.tPreMig != map[]
      ensures r.Some? ==> IsMaximum(r.value.0, times.tPreMig) &&
                          IsLeast(r.value.1, cur.value.bts, crossings, neighbours, r.value.0)
    {
      curAssign := curAssign[user := cur];
      if cur.None? {
        return None;
      }
      var max := times.MaxEstPreMig();
      if max.None? {
        return None;
      }
      var life := SearchNeighbours(cur.value.bts, crossings, neighbours, max.value);
      r := Some((max.value, life));
    }

    method LifetimeToPreMig(user: string, k: Knowledge, server: string, bts: string) returns (r: Option<real>)
      modifies this
      ensures curAssign == old(curAssign)[user := k.cur]
      ensures r == k.ToPreMig(server, bts)
    {
      var life := LONG;
      curAssign := curAssign[user := k.cur];
      if k.cur.None? {
        return Some(life);
      }
      var curBts, curServer := k.cur.value.bts, k.cur.value.server;
      var tMig, tPreMig := Some(0.0), Some(0.0);
      if curServer != server {
        tPreMig := EstTime(k.tPreMig, curServer, server);
        tMig := EstTime(k.tMig, curServer, server);
      }
      if tMig.None? || tPreMig.None? {
        return None;
      }
      if curBts == bts {
        life := 0.0;
      } else {
        var tHo := Assignment.HandoverTime(curBts, bts);
        var till := k.crossings(curBts, bts, HANDOVER_HYSTERESIS);
        if till.None? {
          return None;
        }
        var temp := till.value - MARGIN * (Max(tHo, tMig.value) + tPreMig.value);
        if temp < life {
          life := temp;
        }
      }
      r := Some(life);
    }

    method LifetimeToMig(user: string, k: Knowledge, server: string, bts: string) returns (r: Option<real>)
      modifies this
      ensures curAssign == old(curAssign)[user := k.cur]
      ensures r == k.ToMig(server, bts)
    {
      var life := LONG;
      curAssign := curAssign[user := k.cur];
      if k.cur.None? {
        return Some(life);
      }
      var curBts, curServer := k.cur.value.bts, k.cur.value.server;
      var tMig := Some(0.0);
      if curServer != server {
        tMig := EstTime(k.tMig, curServer, server);
      }
      if tMig.None? {
        return None;
      }
      if curBts == bts {
        life := 0.0;
      } else {
        var tHo := Assignment.HandoverTime(curBts, bts);
        var till := k.crossings(curBts, bts, HANDOVER_HYSTERESIS);
        if till.None? {
          return None;
        }
        var temp := till.value - MARGIN * Max(tHo, tMig.value);
        if temp < life {
          life := temp;
        }
      }
      r := Some(life);
    }
  }
}
