/** The optimization planner's run (optimization_planner.py): collect what is known,
  * ask the solver, and publish the difference between its answer and today. */
module Planner {
  import opened Basics
  import opened Sums
  import opened Assignment

  datatype PlanResult = PlanResult(user: string, nextBts: string, nextServer: string)

  /** A dictionary from triples to 0 or 1, as the planner keeps them. */
  type Assign = map<Triple, int>

  datatype Answer = Optimal(x: Point) | NotOptimal

  function Tabulate(us: seq<string>, st: Stats, x: Point): Assign {
    map u, s, b | u in us && s in st.servers && b in st.bss :: Triple(u, s, b) := x(Triple(u, s, b))
  }

  /** `d` picks one nonzero entry of `a` for every user who has one. */
  ghost predicate Reads(a: Assign, d: map<string, Place>) {
    && (forall t | t in a && a[t] != 0 :: t.user in d)
    && forall u | u in d :: Entry(a, u, d[u])
  }

  predicate Entry(a: Assign, u: string, p: Place) {
    Triple(u, p.server, p.bts) in a && a[Triple(u, p.server, p.bts)] != 0
  }

  /** The plans, in user order; None when a user loses its place (a KeyError). */
  function Diffs(us: seq<string>, cur: map<string, Place>, next: map<string, Place>): Option<seq<PlanResult>> {
    if us == [] then Some([])
    else
      var n := |us| - 1;
      var before := Diffs(us[..n], cur, next);
      var u := us[n];
      if before.None? || Get(cur, u) == Get(next, u) then before
      else if u !in next then None
      else Some(before.value + [PlanResult(u, next[u].bts, next[u].server)])
  }

  /** Carrying the plans out, one after the other. */
  function Apply(place: map<string, Place>, plans: seq<PlanResult>): map<string, Place> {
    if plans == [] then place
    else
      var last := plans[|plans| - 1];
      Apply(place, plans[..|plans| - 1])[last.user := Place(last.nextBts, last.nextServer)]
  }

  /** Diffs and Apply are inverse: carried out from the places as they are, the plans
    * give every listed user its new place and leave all others where they were. */
  lemma {:induction false} DiffsApply(us: seq<string>, base: map<string, Place>,
                                      cur: map<string, Place>, next: map<string, Place>)
    requires forall u | u in cur :: Get(base, u) == Some(cur[u])
    requires forall u | u in us :: u in next
    ensures Diffs(us, cur, next).Some?
    ensures var after := Apply(base, Diffs(us, cur, next).value);
            && (forall u | u in us :: Get(after, u) == Get(next, u))
            && (forall u | u !in us :: Get(after, u) == Get(base, u))
  {
    if us == [] {
    } else {
      var n := |us| - 1;
      DiffsApply(us[..n], base, cur, next);
      var before := Diffs(us[..n], cur, next).value;
      assert us == us[..n] + [us[n]];
      if Get(cur, us[n]) != Get(next, us[n]) {
        var plan := PlanResult(us[n], next[us[n]].bts, next[us[n]].server);
        assert (before + [plan])[..|before|] == before;
        assert Diffs(us, cur, next).value == before + [plan];
      } else {
        assert Diffs(us, cur, next).value == before;
      }
    }
  }

  /** Only real changes are published, and at most one for each user. */
  lemma {:induction false} DiffsAreChanges(us: seq<string>, cur: map<string, Place>, next: map<string, Place>)
    requires Distinct(us) && Diffs(us, cur, next).Some?
    ensures forall p | p in Diffs(us, cur, next).value ::
              p.user in us && Get(next, p.user) == Some(Place(p.nextBts, p.nextServer)) &&
                  Get(cur, p.user) != Get(next, p.user)
    ensures var ps := Diffs(us, cur, next).value; forall i, j | 0 <= i < j < |ps| :: ps[i].user != ps[j].user
  {
    if us == [] {
    } else {
      var n := |us| - 1;
      assert forall u | u in us[..n] :: u in us && u != us[n];
      DiffsAreChanges(us[..n], cur, next);
    }
  }

  lemma {:induction false} DiffsOfSame(us: seq<string>, cur: map<string, Place>, next: map<string, Place>)
    requires forall u | u in us :: Get(cur, u) == Get(next, u)
    ensures Diffs(us, cur, next) == Some([])
  {
    if us == [] {
    } else {
      DiffsOfSame(us[..|us| - 1], cur, next);
    }
  }

  lemma {:induction false} DiffsPrefix(us: seq<string>, n: nat, cur: map<string, Place>, next: map<string, Place>)
    requires n <= |us| && Diffs(us[..n], cur, next).None?
    ensures Diffs(us, cur, next).None?
    decreases |us|
  {
    if n == |us| {
      assert us[..n] == us;
    } else {
      var m := |us| - 1;
      assert us[..m][..n] == us[..n];
      DiffsPrefix(us[..m], n, cur, next);
    }
  }

  /** Each gain the objective asks for can be computed. */
  predicate Computable(st: Stats, us: seq<string>) {
    forall u, s, b, s2, b2 | u in us && s in st.servers && b in st.bss && s2 in st.servers && b2 in st.bss &&
                             Current(st)(Triple(u, s, b)) != 0 && !Blacklisted(st, Triple(u, s2, b2)) ::
      Gain(st, u, s, b, s2, b2).Some?
  }

  /** What is read from a table of a point that places a user once is that place. */
  lemma ReadsChosen(st: Stats, us: seq<string>, x: Point, d: map<string, Place>, u: string, p: Place)
    requires Reads(Tabulate(us, st, x), d) && u in us && Chosen(st, x, u, p)
    ensures Get(d, u) == Some(p)
  {
    assert Triple(u, p.server, p.bts) in Tabulate(us, st, x);
    assert Entry(Tabulate(us, st, x), u, d[u]);
  }

  lemma ReadsCurrent(st: Stats, d: map<string, Place>)
    requires Reads(Tabulate(st.users, st, Current(st)), d)
    ensures forall u | u in d :: Get(st.current, u) == Some(d[u])
  {
    forall u | u in d
      ensures Get(st.current, u) == Some(d[u])
    {
      assert Entry(Tabulate(st.users, st, Current(st)), u, d[u]);
    }
  }

  class OptimizationPlanner {
    var users: seq<string>
    var curAssign: Assign
    var assignNext: Assign

    constructor ()
    {
      users, curAssign, assignNext := [], map[], map[];
    }

    method ReadPlaces(a: Assign) returns (d: map<string, Place>)
      ensures Reads(a, d)
    {
      d := map[];
      var todo := a.Keys;
      while todo != {}
        invariant todo <= a.Keys
        invariant forall t | t in a && t !in todo && a[t] != 0 :: t.user in d
        invariant forall u | u in d :: Entry(a, u, d[u])
        decreases |todo|
      {
        var t :| t in todo;
        if a[t] != 0 {
          d := d[t.user := Place(t.bts, t.server)];
        }
        todo := todo - {t};
      }
    }

    /** The published plans, and the dictionaries they were read from. */
    method DiffAssign(cur: Assign, next: Assign)
      returns (diffs: Option<seq<PlanResult>>, ghost curDict: map<string, Place>, ghost nextDict: map<string, Place>)
      ensures Reads(cur, curDict) && Reads(next, nextDict)
      ensures diffs == Diffs(users, curDict, nextDict)
      ensures cur == next ==> diffs.Some?
    {
      var curPlaces := ReadPlaces(cur);
      var nextPlaces := ReadPlaces(next);
      curDict, nextDict := curPlaces, nextPlaces;
      var result := [];
      for i := 0 to |users|
        invariant Diffs(users[..i], curPlaces, nextPlaces) == Some(result)
      {
        assert users[..i + 1][..i] == users[..i];
        var user := users[i];
        if Get(curPlaces, user) != Get(nextPlaces, user) {
          if user !in nextPlaces {
            DiffsPrefix(users, i + 1, curPlaces, nextPlaces);
            assert cur != next by {
              assert Entry(cur, user, curPlaces[user]);
            }
            return None, curPlaces, nextPlaces;
          }
          result := result + [PlanResult(user, nextPlaces[user].bts, nextPlaces[user].server)];
        }
      }
      assert users[..|users|] == users;
      diffs := Some(result);
    }

    /** The whole planning step. Whatever is missing, the answer is no plan at all; a
      * solver that finds no optimum changes nothing; and an optimum is carried out
      * exactly: every movable user ends at its chosen place, nobody else moves. */
    method ComputePlan(st: Stats, valid: bool, enough: string -> bool, answer: Answer)
      returns (plans: seq<PlanResult>)
      requires WellFormed(st)
      requires answer.Optimal? ==> IsOptimal(st, Movable(st, st.users), answer.x)
      modifies this
      ensures if valid && (forall u | u in st.users :: enough(u)) && Computable(st, Movable(st, st.users)) &&
              answer.Optimal?
              then CarriesOut(st, answer.x, plans)
              else plans == []
    {
      users := st.users;
      curAssign := Tabulate(users, st, Current(st));
      if !valid {
        return [];
      }
      for i := 0 to |users|
        invariant forall j | 0 <= j < i :: enough(users[j])
      {
        if !enough(users[i]) {
          return [];
        }
      }
      users := Movable(st, users);
      if !Computable(st, users) {
        return [];
      }
      MovableDistinct(st, st.users);
      if answer.Optimal? {
        assignNext := Tabulate(users, st, answer.x);
        var diffs, curDict, nextDict := DiffAssign(curAssign, assignNext);
        CarriedOut(st, answer.x, curDict, nextDict);
        plans := diffs.value;
      } else {
        assignNext := curAssign;
        var diffs, curDict, nextDict := DiffAssign(curAssign, assignNext);
        ReadsCurrent(st, curDict);
        ReadsCurrent(st, nextDict);
        forall u | u in users
          ensures Get(curDict, u) == Get(nextDict, u)
        {
          SameReads(curAssign, curDict, nextDict, u);
        }
        DiffsOfSame(users, curDict, nextDict);
        plans := diffs.value;
      }
    }
  }

  lemma SameReads(a: Assign, d: map<string, Place>, e: map<string, Place>, u: string)
    requires Reads(a, d) && Reads(a, e)
    ensures u in d <==> u in e
  {
    if u in d {
      assert Entry(a, u, d[u]);
    }
    if u in e {
      assert Entry(a, u, e[u]);
    }
  }

  /** What the plans of an optimal answer do. */
  ghost predicate CarriesOut(st: Stats, x: Point, plans: seq<PlanResult>) {
    var us, after := Movable(st, st.users), Apply(st.current, plans);
    && (forall u | u in us :: u in after && Chosen(st, x, u, after[u]))
    && (forall u | u !in us :: Get(after, u) == Get(st.current, u))
    && (forall i, j | 0 <= i < j < |plans| :: plans[i].user != plans[j].user)
    && Allowed(st, us, after)
    && (forall other | Allowed(st, us, other) :: TotalWorth(st, us, other) <= TotalWorth(st, us, after))
    && (Feasible(st, us, Current(st)) ==> TotalWorth(st, us, after) >= 0.0)
  }

  lemma CarriedOut(st: Stats, x: Point, cur: map<string, Place>, next: map<string, Place>)
    requires WellFormed(st) && IsOptimal(st, Movable(st, st.users), x)
    requires Reads(Tabulate(st.users, st, Current(st)), cur)
    requires Reads(Tabulate(Movable(st, st.users), st, x), next)
    ensures Diffs(Movable(st, st.users), cur, next).Some?
    ensures CarriesOut(st, x, Diffs(Movable(st, st.users), cur, next).value)
  {
    var us := Movable(st, st.users);
    MovableDistinct(st, st.users);
    var place := FeasibleMeans(st, us, x);
    forall u | u in us
      ensures Get(next, u) == Some(place[u])
    {
      ReadsChosen(st, us, x, next, u, place[u]);
    }
    ReadsCurrent(st, cur);
    DiffsApply(us, st.current, cur, next);
    DiffsAreChanges(us, cur, next);
    var after := Apply(st.current, Diffs(us, cur, next).value);
    forall u | u in us
      ensures u in after && after[u] == place[u]
    {
      assert Get(after, u) == Get(next, u);
    }
    FeasibleWithinLimits(st, us, x, after);
    forall other | Allowed(st, us, other)
      ensures TotalWorth(st, us, other) <= TotalWorth(st, us, after)
    {
      BestPlacement(st, us, x, after, other);
    }
    if Feasible(st, us, Current(st)) {
      NeverLoses(st, us, x);
      ProfitIsWorth(st, us, x, after);
    }
  }
}
