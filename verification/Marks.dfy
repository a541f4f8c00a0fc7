/** What every run of the route manager keeps: its marks, tables and rules are its
  * own, and releasing them leaves the host as it was found. */
module Marks {
  import opened Basics
  import opened Route

  // ------------------------------------------------------------- allocation

  /** Each table gets an id that was free, and no two get the same. */
  lemma {:induction false} AllocatedIds(ts: seq<RouteEntry>, ids: set<nat>, from: nat, to: nat)
    ensures var all := Allocate(ts, ids, from, to);
            && (forall i | 0 <= i < |all| && all[i].tableId.Some? ::
                  from <= all[i].tableId.value < to && all[i].tableId.value !in ids)
            && (forall i, j | 0 <= i < j < |all| && all[i].tableId.Some? :: all[i].tableId != all[j].tableId)
    decreases |ts|
  {
    if ts == [] {
    } else {
      var id := FirstFree(from, to, ids);
      var ids1 := if id.Some? then ids + {id.value} else ids;
      AllocatedIds(ts[1..], ids1, from, to);
      assert Allocate(ts, ids, from, to) == [ts[0].(tableId := id)] + Allocate(ts[1..], ids1, from, to);
    }
  }

  /** Nothing else changes. */
  lemma {:induction false} AllocatedOnlyIds(ts: seq<RouteEntry>, ids: set<nat>, from: nat, to: nat)
    ensures var all := Allocate(ts, ids, from, to);
            forall i | 0 <= i < |all| :: all[i] == ts[i].(tableId := all[i].tableId)
    decreases |ts|
  {
    if ts == [] {
    } else {
      var id := FirstFree(from, to, ids);
      AllocatedOnlyIds(ts[1..], if id.Some? then ids + {id.value} else ids, from, to);
    }
  }

  /** An id is missing only when the whole range is taken. */
  lemma {:induction false} MissingIds(ts: seq<RouteEntry>, ids: set<nat>, from: nat, to: nat, i: nat, n: nat)
    requires i < |ts| && Allocate(ts, ids, from, to)[i].tableId.None? && from <= n < to
    ensures n in ids || exists j :: HasId(Allocate(ts, ids, from, to), j, n)
    decreases |ts|
  {
    var id := FirstFree(from, to, ids);
    if i == 0 || n in ids {
    } else {
      if id == Some(n) {
        assert HasId(Allocate(ts, ids, from, to), 0, n);
      } else {
        var ids1 := if id.Some? then ids + {id.value} else ids;
        MissingIds(ts[1..], ids1, from, to, i - 1, n);
        var j :| HasId(Allocate(ts[1..], ids1, from, to), j, n);
        assert HasId(Allocate(ts, ids, from, to), j + 1, n);
      }
    }
  }

  predicate HasId(ts: seq<RouteEntry>, i: int, n: nat) {
    0 <= i < |ts| && ts[i].tableId == Some(n)
  }

  // --------------------------------------------------------- what is its own

  /** The values that are there, as a bag. */
  function Bag<T(==)>(xs: seq<Option<T>>): multiset<T> {
    if xs == [] then multiset{} else One(xs[0]) + Bag(xs[1..])
  }

  function One<T(==)>(x: Option<T>): multiset<T> {
    if x.Some? then multiset{x.value} else multiset{}
  }

  lemma Exchange<T>(a: multiset<T>, b: multiset<T>, r: multiset<T>)
    ensures (b + r) + a == (a + r) + b
  {
  }

  lemma Insert<T>(c: multiset<T>, r: multiset<T>, r1: multiset<T>, a: multiset<T>, b: multiset<T>)
    requires r1 + a == r + b
    ensures (c + r1) + a == (c + r) + b
  {
    assert (c + r1) + a == c + (r1 + a);
    assert (c + r) + b == c + (r + b);
  }

  lemma {:induction false} BagUpdate<T>(xs: seq<Option<T>>, i: nat, x: Option<T>)
    requires i < |xs|
    ensures Bag(xs[i := x]) + One(xs[i]) == Bag(xs) + One(x)
    ensures xs[i].Some? ==> xs[i].value in Bag(xs)
  {
    if i == 0 {
      assert xs[0 := x][1..] == xs[1..];
      Exchange(One(xs[0]), One(x), Bag(xs[1..]));
    } else {
      assert xs[i := x][1..] == xs[1..][i - 1 := x];
      BagUpdate(xs[1..], i - 1, x);
      Insert(One(xs[0]), Bag(xs[1..]), Bag(xs[1..][i - 1 := x]), One(xs[i]), One(x));
    }
  }

  lemma BagAdd<T>(xs: seq<Option<T>>, i: nat, v: T)
    requires i < |xs| && xs[i].None?
    ensures Bag(xs[i := Some(v)]) == Bag(xs) + multiset{v} == multiset{v} + Bag(xs)
  {
    BagUpdate(xs, i, Some(v));
  }

  lemma BagMove<T>(xs: seq<Option<T>>, i: nat, v: T, w: T, left: multiset<T>)
    requires i < |xs| && xs[i] == Some(v) && left + multiset{v} == Bag(xs)
    ensures Bag(xs[i := Some(w)]) == left + multiset{w}
  {
    BagUpdate(xs, i, Some(w));
    assert (left + multiset{w}) + multiset{v} == (left + multiset{v}) + multiset{w};
    Cancel(Bag(xs[i := Some(w)]), left + multiset{w}, multiset{v});
  }

  lemma Assoc<T>(a: seq<T>, b: seq<T>, c: seq<T>)
    ensures (a + b) + c == a + (b + c)
  {
  }

  lemma {:induction false} BagOwner<T>(xs: seq<Option<T>>, x: T) returns (i: nat)
    requires x in Bag(xs)
    ensures i < |xs| && xs[i] == Some(x)
  {
    if xs[0] == Some(x) {
      i := 0;
    } else {
      var j := BagOwner(xs[1..], x);
      i := j + 1;
    }
  }

  lemma {:induction false} BagEmpty<T>(xs: seq<Option<T>>)
    requires forall i | 0 <= i < |xs| :: xs[i].None?
    ensures Bag(xs) == multiset{}
  {
    if xs == [] {
    } else {
      BagEmpty(xs[1..]);
    }
  }

  function FilterIn(t: RouteEntry): Option<Filter> {
    if t.mark.Some? then Some(FilterOf(t)) else None
  }

  function RuleIn(t: RouteEntry): Option<Rule> {
    if t.mark.Some? then Some(RuleOf(t)) else None
  }

  function Filters(ts: seq<RouteEntry>): seq<Option<Filter>> {
    seq(|ts|, i requires 0 <= i < |ts| => FilterIn(ts[i]))
  }

  function Rules(ts: seq<RouteEntry>): seq<Option<Rule>> {
    seq(|ts|, i requires 0 <= i < |ts| => RuleIn(ts[i]))
  }

  ghost predicate DistinctMarks(ts: seq<RouteEntry>) {
    forall i, j | 0 <= i < j < |ts| && ts[i].mark.Some? && ts[j].mark.Some? :: ts[i].mark != ts[j].mark
  }

  ghost predicate Fresh(used: set<nat>, ts: seq<RouteEntry>) {
    forall i | 0 <= i < |ts| && ts[i].mark.Some? :: ts[i].mark.value !in used
  }

  /** Beside what was there before, the host holds exactly one filter and one rule for
    * each marked user: the filters at the end, the rules at the front. */
  ghost predicate Owns(base: State, s: State, ts: seq<RouteEntry>, ours: seq<Filter>, mine: seq<Rule>) {
    && HoldsFilters(base, s, ts, ours) && HoldsRules(base, s, ts, mine) && s.otherMarks == base.otherMarks
    && DistinctMarks(ts) && Fresh(MarksInUse(base), ts)
  }

  ghost predicate HoldsFilters(base: State, s: State, ts: seq<RouteEntry>, ours: seq<Filter>) {
    s.filters == base.filters + ours && multiset(ours) == Bag(Filters(ts))
  }

  ghost predicate HoldsRules(base: State, s: State, ts: seq<RouteEntry>, mine: seq<Rule>) {
    s.rules == mine + base.rules && multiset(mine) == Bag(Rules(ts))
  }

  ghost predicate Inv(base: State, s: State, ts: seq<RouteEntry>) {
    exists ours, mine :: Owns(base, s, ts, ours, mine)
  }

  lemma {:induction false} RemoveBehind(fs: seq<Filter>, gs: seq<Filter>, f: Filter)
    requires f !in fs
    ensures RemoveFilter(fs + gs, f) == fs + RemoveFilter(gs, f)
  {
    if fs == [] {
      assert fs + gs == gs;
    } else {
      assert (fs + gs)[1..] == fs[1..] + gs;
      RemoveBehind(fs[1..], gs, f);
    }
  }

  lemma {:induction false} RemoveOne(fs: seq<Filter>, f: Filter)
    requires f in fs
    ensures multiset(RemoveFilter(fs, f)) + multiset{f} == multiset(fs)
  {
    assert fs == [fs[0]] + fs[1..];
    if fs[0] == f {
    } else {
      RemoveOne(fs[1..], f);
      assert multiset(RemoveFilter(fs, f)) == multiset{fs[0]} + multiset(RemoveFilter(fs[1..], f));
    }
  }

  lemma {:induction false} RemoveAhead(rs: seq<Rule>, qs: seq<Rule>, mark: nat)
    requires HasRule(rs, mark)
    ensures RemoveRule(rs + qs, mark) == RemoveRule(rs, mark) + qs
  {
    assert rs == [rs[0]] + rs[1..] && (rs + qs)[0] == rs[0] && (rs + qs)[1..] == rs[1..] + qs;
    if rs[0].mark == mark {
    } else {
      RemoveAhead(rs[1..], qs, mark);
    }
  }

  lemma {:induction false} RemoveOneRule(rs: seq<Rule>, mark: nat) returns (r: Rule)
    requires HasRule(rs, mark)
    ensures r in rs && r.mark == mark && multiset(RemoveRule(rs, mark)) + multiset{r} == multiset(rs)
  {
    assert rs == [rs[0]] + rs[1..];
    if rs[0].mark == mark {
      r := rs[0];
    } else {
      r := RemoveOneRule(rs[1..], mark);
      assert multiset(RemoveRule(rs, mark)) == multiset{rs[0]} + multiset(RemoveRule(rs[1..], mark));
    }
  }

  lemma Cancel<T>(a: multiset<T>, b: multiset<T>, x: multiset<T>)
    requires a + x == b + x
    ensures a == b
  {
    forall e: T
      ensures a[e] == b[e]
    {
      assert (a + x)[e] == a[e] + x[e] && (b + x)[e] == b[e] + x[e];
    }
  }

  /** No filter from before carries one of the manager's marks. */
  lemma NotFromBefore(base: State, ts: seq<RouteEntry>, i: nat)
    requires i < |ts| && ts[i].mark.Some? && Fresh(MarksInUse(base), ts)
    ensures FilterOf(ts[i]) !in base.filters
  {
    assert forall f | f in base.filters :: f.mark in MarksInUse(base);
  }

  lemma OursMember(base: State, s: State, ts: seq<RouteEntry>, ours: seq<Filter>, mine: seq<Rule>, i: nat)
    requires Owns(base, s, ts, ours, mine) && i < |ts| && ts[i].mark.Some?
    ensures FilterOf(ts[i]) in ours && FilterOf(ts[i]) in s.filters && ts[i].mark.value in MarksInUse(s)
    ensures RuleOf(ts[i]) in mine && HasRule(mine, ts[i].mark.value)
  {
    BagUpdate(Filters(ts), i, None);
    BagUpdate(Rules(ts), i, None);
    assert Filters(ts)[i] == Some(FilterOf(ts[i])) && Rules(ts)[i] == Some(RuleOf(ts[i]));
    assert FilterOf(ts[i]) in multiset(ours) && RuleOf(ts[i]) in multiset(mine);
    assert FilterOf(ts[i]).mark in MarksInUse(s);
  }

  // ------------------------------------------------------------- set_filter

  lemma FiltersAt(ts: seq<RouteEntry>, i: nat, t: RouteEntry)
    requires i < |ts|
    ensures Filters(ts)[i] == FilterIn(ts[i]) && Filters(ts[i := t]) == Filters(ts)[i := FilterIn(t)]
  {
  }

  lemma MovedBag(xs: seq<Option<Filter>>, ours: seq<Filter>, i: nat, f: Filter, f1: Filter)
    requires i < |xs| && xs[i] == Some(f) && f in ours && multiset(ours) == Bag(xs)
    ensures multiset(RemoveFilter(ours, f) + [f1]) == Bag(xs[i := Some(f1)])
  {
    RemoveOne(ours, f);
    BagMove(xs, i, f, f1, multiset(RemoveFilter(ours, f)));
  }

  lemma MovedFilters(base: State, s: State, ts: seq<RouteEntry>, ours: seq<Filter>, i: nat, t1: RouteEntry)
    returns (ours1: seq<Filter>)
    requires i < |ts| && ts[i].mark.Some? && t1.mark.Some? && HoldsFilters(base, s, ts, ours)
    requires FilterOf(ts[i]) in ours && FilterOf(ts[i]) !in base.filters
    ensures HoldsFilters(base, s.(filters := RemoveFilter(s.filters, FilterOf(ts[i])) + [FilterOf(t1)]), ts[i := t1],
            ours1)
  {
    FiltersAt(ts, i, t1);
    MovedBag(Filters(ts), ours, i, FilterOf(ts[i]), FilterOf(t1));
    RemoveBehind(base.filters, ours, FilterOf(ts[i]));
    var left := RemoveFilter(ours, FilterOf(ts[i]));
    Assoc(base.filters, left, [FilterOf(t1)]);
    ours1 := left + [FilterOf(t1)];
  }

  lemma AddedFilters(base: State, s: State, ts: seq<RouteEntry>, ours: seq<Filter>, i: nat, t1: RouteEntry)
    requires i < |ts| && ts[i].mark.None? && t1.mark.Some? && HoldsFilters(base, s, ts, ours)
    ensures HoldsFilters(base, s.(filters := s.filters + [FilterOf(t1)]), ts[i := t1], ours + [FilterOf(t1)])
  {
    var f1 := FilterOf(t1);
    Assoc(base.filters, ours, [f1]);
    BagAdd(Filters(ts), i, f1);
    FiltersAt(ts, i, t1);
  }

  lemma AddedRules(base: State, s: State, ts: seq<RouteEntry>, mine: seq<Rule>, i: nat, t1: RouteEntry)
    requires i < |ts| && ts[i].mark.None? && t1.mark.Some? && HoldsRules(base, s, ts, mine)
    ensures HoldsRules(base, s.(rules := [RuleOf(t1)] + s.rules), ts[i := t1], [RuleOf(t1)] + mine)
  {
    var r1 := RuleOf(t1);
    Assoc([r1], mine, base.rules);
    BagAdd(Rules(ts), i, r1);
    assert Rules(ts)[i := Some(r1)] == Rules(ts[i := t1]);
  }

  lemma MoveKeeps(base: State, s: State, ts: seq<RouteEntry>, ours: seq<Filter>, mine: seq<Rule>, i: nat,
                  t1: RouteEntry)
    requires Owns(base, s, ts, ours, mine) && i < |ts| && ts[i].mark.Some?
    requires t1.mark == ts[i].mark && t1.name == ts[i].name
    ensures FilterOf(ts[i]) in s.filters
    ensures Inv(base, s.(filters := RemoveFilter(s.filters, FilterOf(ts[i])) + [FilterOf(t1)]), ts[i := t1])
  {
    OursMember(base, s, ts, ours, mine, i);
    NotFromBefore(base, ts, i);
    var ours1 := MovedFilters(base, s, ts, ours, i, t1);
    assert Rules(ts[i := t1]) == Rules(ts);
    assert Owns(base, s.(filters := RemoveFilter(s.filters, FilterOf(ts[i])) + [FilterOf(t1)]), ts[i := t1], ours1,
        mine);
  }

  lemma MarkKeeps(base: State, s: State, ts: seq<RouteEntry>, ours: seq<Filter>, mine: seq<Rule>, i: nat,
                  t1: RouteEntry)
    requires Owns(base, s, ts, ours, mine) && i < |ts| && ts[i].mark.None?
    requires t1.mark.Some? && t1.mark.value !in MarksInUse(s)
    ensures Inv(base, s.(filters := s.filters + [FilterOf(t1)], rules := [RuleOf(t1)] + s.rules), ts[i := t1])
  {
    AddedFilters(base, s, ts, ours, i, t1);
    AddedRules(base, s, ts, mine, i, t1);
    forall j | 0 <= j < |ts| && ts[j].mark.Some?
      ensures ts[j].mark != t1.mark
    {
      OursMember(base, s, ts, ours, mine, j);
    }
    UsedBefore(base, s, ours);
    var s1 := s.(filters := s.filters + [FilterOf(t1)], rules := [RuleOf(t1)] + s.rules);
    assert Owns(base, s1, ts[i := t1], ours + [FilterOf(t1)], [RuleOf(t1)] + mine);
  }

  lemma UsedBefore(base: State, s: State, ours: seq<Filter>)
    requires s.filters == base.filters + ours && s.otherMarks == base.otherMarks
    ensures MarksInUse(base) <= MarksInUse(s)
  {
    forall f | f in base.filters
      ensures f in s.filters
    {
    }
  }

  /** One call keeps what the manager owns. */
  lemma SetFilterKeeps(base: State, s: State, ts: seq<RouteEntry>, user: string, ip: string, port: string,
                       from: nat, to: nat)
    requires Inv(base, s, ts) && FilterSet(s, ts, user, ip, port, from, to).Done?
    ensures var r := FilterSet(s, ts, user, ip, port, from, to);
            Inv(base, r.s, r.ts) && r.s.file == s.file && SameTables(ts, r.ts)
  {
    var ours, mine :| Owns(base, s, ts, ours, mine);
    var i := Find(ts, user).value;
    if ts[i].mark.Some? {
      MoveKeeps(base, s, ts, ours, mine, i, ts[i].(ip := ip, port := port));
    } else {
      var mark := FirstFree(from, to, MarksInUse(s));
      MarkKeeps(base, s, ts, ours, mine, i, ts[i].(mark := mark, ip := ip, port := port));
    }
  }

  predicate SameTables(ts: seq<RouteEntry>, ts1: seq<RouteEntry>) {
    |ts| == |ts1| && forall i | 0 <= i < |ts| :: ts1[i].name == ts[i].name && ts1[i].tableId == ts[i].tableId
  }

  /** A call fails only for an unknown user, or when a user without a mark finds none
    * left: the old filter of a marked user is always there to be replaced. */
  lemma SetFilterFails(base: State, s: State, ts: seq<RouteEntry>, user: string, ip: string, port: string,
                       from: nat, to: nat)
    requires Inv(base, s, ts)
    ensures FilterSet(s, ts, user, ip, port, from, to).Raised? <==>
              Find(ts, user).None? ||
              (ts[Find(ts, user).value].mark.None? && forall n | from <= n < to :: n in MarksInUse(s))
  {
    var ours, mine :| Owns(base, s, ts, ours, mine);
    var found := Find(ts, user);
    if found.Some? && ts[found.value].mark.Some? {
      OursMember(base, s, ts, ours, mine, found.value);
    }
  }

  // ------------------------------------------------------------------ release

  function Ids(ts: seq<RouteEntry>): seq<string> {
    if ts == [] then [] else [IdText(ts[0].tableId)] + Ids(ts[1..])
  }

  function DeleteEach(lines: seq<Line>, prefixes: seq<string>): seq<Line>
    decreases |prefixes|
  {
    if prefixes == [] then lines else DeleteEach(Delete(lines, prefixes[0]), prefixes[1..])
  }

  /** Releasing gives back every filter and every rule, whatever happened before. */
  lemma {:induction false} ReleaseRestores(base: State, s: State, ts: seq<RouteEntry>, ours: seq<Filter>,
                                           mine: seq<Rule>)
    requires Owns(base, s, ts, ours, mine)
    ensures Release(s, ts) == Some(base.(file := DeleteEach(s.file, Ids(ts))))
    decreases |ts|
  {
    if ts == [] {
      NothingOwned(base, s, ours, mine);
    } else {
      var s1, ours1, mine1 := ReleaseStep(base, s, ts, ours, mine);
      ReleaseRestores(base, s1, ts[1..], ours1, mine1);
    }
  }

  lemma ReleaseStep(base: State, s: State, ts: seq<RouteEntry>, ours: seq<Filter>, mine: seq<Rule>)
    returns (s1: State, ours1: seq<Filter>, mine1: seq<Rule>)
    requires Owns(base, s, ts, ours, mine) && ts != []
    ensures Owns(base, s1, ts[1..], ours1, mine1)
    ensures s1.file == Delete(s.file, IdText(ts[0].tableId)) && Release(s, ts) == Release(s1, ts[1..])
  {
    assert Filters(ts)[1..] == Filters(ts[1..]) && Rules(ts)[1..] == Rules(ts[1..]);
    if ts[0].mark.None? {
      s1, ours1, mine1 := s.(file := Delete(s.file, IdText(ts[0].tableId))), ours, mine;
    } else {
      ours1 := ReleaseFilter(base, s, ts, ours, mine);
      mine1 := ReleaseRule(base, s, ts, ours, mine);
      s1 := ReleaseMarked(s, ts);
    }
  }

  lemma ReleaseMarked(s: State, ts: seq<RouteEntry>) returns (s1: State)
    requires ts != [] && ts[0].mark.Some? && HasRule(s.rules, ts[0].mark.value) && FilterOf(ts[0]) in s.filters
    ensures s1.file == Delete(s.file, IdText(ts[0].tableId)) && s1.otherMarks == s.otherMarks
    ensures s1.filters == RemoveFilter(s.filters, FilterOf(ts[0])) && s1.rules == RemoveRule(s.rules, ts[0].mark.value)
    ensures Release(s, ts) == Release(s1, ts[1..])
  {
    s1 := ReleasedTable(s, ts[0]);
  }

  lemma NothingOwned(base: State, s: State, ours: seq<Filter>, mine: seq<Rule>)
    requires Owns(base, s, [], ours, mine)
    ensures s == base.(file := s.file)
  {
    assert |multiset(ours)| == 0 && |multiset(mine)| == 0;
    assert base.filters + [] == base.filters && [] + base.rules == base.rules;
  }

  lemma ReleaseFilter(base: State, s: State, ts: seq<RouteEntry>, ours: seq<Filter>, mine: seq<Rule>)
    returns (ours1: seq<Filter>)
    requires Owns(base, s, ts, ours, mine) && ts != [] && ts[0].mark.Some?
    ensures FilterOf(ts[0]) in s.filters && RemoveFilter(s.filters, FilterOf(ts[0])) == base.filters + ours1
    ensures multiset(ours1) == Bag(Filters(ts)[1..])
  {
    var f := FilterOf(ts[0]);
    OursMember(base, s, ts, ours, mine, 0);
    NotFromBefore(base, ts, 0);
    RemoveBehind(base.filters, ours, f);
    RemoveOne(ours, f);
    ours1 := RemoveFilter(ours, f);
    assert Filters(ts)[0] == Some(f);
    assert Bag(Filters(ts)) == multiset{f} + Bag(Filters(ts)[1..]);
    Cancel(multiset(ours1), Bag(Filters(ts)[1..]), multiset{f});
  }

  lemma ReleaseRule(base: State, s: State, ts: seq<RouteEntry>, ours: seq<Filter>, mine: seq<Rule>)
    returns (mine1: seq<Rule>)
    requires Owns(base, s, ts, ours, mine) && ts != [] && ts[0].mark.Some?
    ensures HasRule(s.rules, ts[0].mark.value) && RemoveRule(s.rules, ts[0].mark.value) == mine1 + base.rules
    ensures multiset(mine1) == Bag(Rules(ts)[1..])
  {
    var mark := ts[0].mark.value;
    OursMember(base, s, ts, ours, mine, 0);
    assert RuleOf(ts[0]) in s.rules;
    RemoveAhead(mine, base.rules, mark);
    var r := RemoveOneRule(mine, mark);
    assert r in multiset(mine);
    var i := BagOwner(Rules(ts), r);
    assert i == 0;
    mine1 := RemoveRule(mine, mark);
    assert Rules(ts)[0] == Some(r);
    assert Bag(Rules(ts)) == multiset{r} + Bag(Rules(ts)[1..]);
    Cancel(multiset(mine1), Bag(Rules(ts)[1..]), multiset{r});
  }

  // ----------------------------------------------------------- the table file

  predicate Begins(l: Line, prefixes: seq<string>) {
    exists p :: p in prefixes && p <= LineText(l)
  }

  lemma {:induction false} DeleteAppend(a: seq<Line>, b: seq<Line>, p: string)
    ensures Delete(a + b, p) == Delete(a, p) + Delete(b, p)
  {
    if a == [] {
      assert a + b == b;
    } else {
      assert (a + b)[0] == a[0] && (a + b)[1..] == a[1..] + b;
      DeleteAppend(a[1..], b, p);
      var h, x, y := Kept(a[0], p), Delete(a[1..], p), Delete(b, p);
      assert h + (x + y) == (h + x) + y;
    }
  }

  lemma {:induction false} DeleteLeaves(a: seq<Line>, p: string)
    ensures |Delete(a, p)| <= |a|
    ensures forall l | l in Delete(a, p) :: l in a && !(p <= LineText(l))
    ensures (forall l | l in a :: !(p <= LineText(l))) ==> Delete(a, p) == a
  {
    if a == [] {
    } else {
      DeleteLeaves(a[1..], p);
      assert a == [a[0]] + a[1..] && a[0] in a;
    }
  }

  lemma {:induction false} DeleteEachSplit(a: seq<Line>, b: seq<Line>, ps: seq<string>)
    ensures DeleteEach(a + b, ps) == DeleteEach(a, ps) + DeleteEach(b, ps)
    decreases |ps|
  {
    if ps == [] {
    } else {
      DeleteAppend(a, b, ps[0]);
      DeleteEachSplit(Delete(a, ps[0]), Delete(b, ps[0]), ps[1..]);
    }
  }

  lemma {:induction false} DeleteEachLeaves(a: seq<Line>, ps: seq<string>)
    ensures |DeleteEach(a, ps)| <= |a|
    ensures forall l | l in DeleteEach(a, ps) :: l in a && !Begins(l, ps)
    ensures (forall l | l in a :: !Begins(l, ps)) ==> DeleteEach(a, ps) == a
    decreases |ps|
  {
    if ps == [] {
    } else {
      var p, rest := ps[0], Delete(a, ps[0]);
      DeleteLeaves(a, p);
      DeleteEachLeaves(rest, ps[1..]);
      forall l | l in DeleteEach(a, ps)
        ensures l in a && !Begins(l, ps)
      {
        assert l in rest;
        assert forall q | q in ps :: q == p || q in ps[1..];
      }
      if forall l | l in a :: !Begins(l, ps) {
        assert p in ps && forall q | q in ps[1..] :: q in ps;
        assert forall l | l in a :: !(p <= LineText(l));
        assert forall l | l in a :: !Begins(l, ps[1..]);
      }
    }
  }

  lemma {:induction false} NewLinesBegin(ts: seq<RouteEntry>)
    ensures forall l | l in NewLines(ts) :: Begins(l, Ids(ts))
  {
    if ts == [] {
    } else {
      NewLinesBegin(ts[1..]);
      var first := NewLine(ts[0].tableId, ts[0].name);
      NewLineBegins(ts[0].tableId, ts[0].name);
      assert Ids(ts)[0] == IdText(ts[0].tableId);
      assert IdText(ts[0].tableId) in Ids(ts);
      forall l | l in NewLines(ts)
        ensures Begins(l, Ids(ts))
      {
        if l == first {
          assert IdText(ts[0].tableId) <= LineText(l);
        } else {
          assert l in NewLines(ts[1..]);
          var p :| p in Ids(ts[1..]) && p <= LineText(l);
          assert p in Ids(ts);
        }
      }
    }
  }

  lemma NewLineBegins(id: Option<nat>, name: string)
    ensures IdText(id) <= LineText(NewLine(id, name))
  {
  }

  /** The table file is as before exactly when no line in it began with one of the new
    * ids; the deletion does not look where an id ends. */
  lemma FileRestored(before: seq<Line>, ts: seq<RouteEntry>)
    ensures DeleteEach(before + NewLines(ts), Ids(ts)) == before <==> forall l | l in before :: !Begins(l, Ids(ts))
  {
    var ps := Ids(ts);
    DeleteEachSplit(before, NewLines(ts), ps);
    DeleteEachLeaves(before, ps);
    DeleteEachLeaves(NewLines(ts), ps);
    NewLinesBegin(ts);
    if DeleteEach(NewLines(ts), ps) != [] {
      assert DeleteEach(NewLines(ts), ps)[0] in DeleteEach(NewLines(ts), ps);
    }
  }

  /** An older table 1001 disappears with the release of table 100. */
  lemma OlderLineIsLost(t: RouteEntry)
    requires t.tableId == Some(100)
    ensures DeleteEach([Entry(1001, "other")] + NewLines([t]), Ids([t])) == []
  {
    var l := Entry(1001, "other");
    DigitsOfHundred();
    assert [t][1..] == [] && Ids([t]) == ["100"] && NewLines([t]) == [Entry(100, t.name)];
    var lines := [l, Entry(100, t.name)];
    assert [l] + NewLines([t]) == lines;
    assert "100" <= LineText(l) && "100" <= LineText(Entry(100, t.name));
    assert lines[1..] == [Entry(100, t.name)] && lines[1..][1..] == [];
    assert Delete(lines[1..], "100") == Kept(lines[1], "100") + Delete([], "100") == [];
    assert Delete(lines, "100") == [] && ["100"][1..] == [];
    assert DeleteEach(lines, ["100"]) == DeleteEach([], []);
  }

  lemma DigitsOfHundred()
    ensures Digits(100) == "100" && Digits(1001) == "1001"
  {
    assert Digits(1) == "1";
    assert Digits(10) == "10";
    assert Digits(100) == "100";
  }

  // -------------------------------------------------------------------- runs

  datatype Call = Call(user: string, ip: string, port: string, from: nat, to: nat)

  /** Calls that raise change nothing. */
  function AfterCall(s: State, ts: seq<RouteEntry>, c: Call): (State, seq<RouteEntry>) {
    match FilterSet(s, ts, c.user, c.ip, c.port, c.from, c.to)
    case Done(s1, ts1) => (s1, ts1)
    case Raised(_) => (s, ts)
  }

  function AfterCalls(s: State, ts: seq<RouteEntry>, cs: seq<Call>): (State, seq<RouteEntry>)
    decreases |cs|
  {
    if cs == [] then (s, ts)
    else
      var (s1, ts1) := AfterCall(s, ts, cs[0]);
      AfterCalls(s1, ts1, cs[1..])
  }

  lemma CallKeeps(base: State, s: State, ts: seq<RouteEntry>, c: Call)
    requires Inv(base, s, ts)
    ensures var r := AfterCall(s, ts, c); Inv(base, r.0, r.1) && r.0.file == s.file && SameTables(ts, r.1)
  {
    if FilterSet(s, ts, c.user, c.ip, c.port, c.from, c.to).Done? {
      SetFilterKeeps(base, s, ts, c.user, c.ip, c.port, c.from, c.to);
    }
  }

  lemma {:induction false} CallsKeep(base: State, s: State, ts: seq<RouteEntry>, cs: seq<Call>)
    requires Inv(base, s, ts)
    ensures var (s1, ts1) := AfterCalls(s, ts, cs);
            Inv(base, s1, ts1) && s1.file == s.file && Ids(ts1) == Ids(ts)
    decreases |cs|
  {
    if cs == [] {
    } else {
      var c := cs[0];
      CallKeeps(base, s, ts, c);
      var (s1, ts1) := AfterCall(s, ts, c);
      SameIds(ts, ts1);
      CallsKeep(base, s1, ts1, cs[1..]);
    }
  }

  lemma {:induction false} SameIds(ts: seq<RouteEntry>, ts1: seq<RouteEntry>)
    requires SameTables(ts, ts1)
    ensures Ids(ts) == Ids(ts1)
  {
    if ts == [] {
    } else {
      SameIds(ts[1..], ts1[1..]);
    }
  }

  /** The state right after `allocate_tables`. */
  function Allocated(base: State, ts: seq<RouteEntry>, from: nat, to: nat): (State, seq<RouteEntry>) {
    var all := Allocate(ts, TableIds(base.file), from, to);
    (base.(file := base.file + NewLines(all)), all)
  }

  lemma AllocatedOwns(base: State, ts: seq<RouteEntry>, from: nat, to: nat)
    requires forall i | 0 <= i < |ts| :: ts[i].mark.None?
    ensures var (s, all) := Allocated(base, ts, from, to); Inv(base, s, all)
  {
    var (s, all) := Allocated(base, ts, from, to);
    AllocatedOnlyIds(ts, TableIds(base.file), from, to);
    BagEmpty(Filters(all));
    BagEmpty(Rules(all));
    assert base.filters + [] == base.filters && [] + base.rules == base.rules;
    assert Owns(base, s, all, [], []);
  }

  /** Conservation: allocate, call `set_filter` in any way, release. The host has the
    * filters, the rules and the marks it had before, and its table file exactly when
    * no line of that began with one of the allocated ids. */
  lemma Conservation(base: State, ts: seq<RouteEntry>, from: nat, to: nat, cs: seq<Call>)
    requires forall i | 0 <= i < |ts| :: ts[i].mark.None?
    ensures var (s, all) := Allocated(base, ts, from, to);
            var (s1, ts1) := AfterCalls(s, all, cs);
            && Inv(base, s1, ts1)
            && Release(s1, ts1).Some?
            && Release(s1, ts1).value.(file := base.file) == base
            && (Release(s1, ts1).value == base <==> forall l | l in base.file :: !Begins(l, Ids(all)))
  {
    var (s, all) := Allocated(base, ts, from, to);
    AllocatedOwns(base, ts, from, to);
    CallsKeep(base, s, all, cs);
    var (s1, ts1) := AfterCalls(s, all, cs);
    var ours, mine :| Owns(base, s1, ts1, ours, mine);
    ReleaseRestores(base, s1, ts1, ours, mine);
    FileRestored(base.file, all);
  }

  // ------------------------------------------------------------------ traffic

  lemma {:induction false} MarkOfLast(fs: seq<Filter>, gs: seq<Filter>, f: Filter)
    requires f in gs && forall g | g in gs && g.ip == f.ip && g.port == f.port :: g == f
    ensures MarkOf(fs + gs, f.ip, f.port) == Some(f.mark)
    decreases |gs|
  {
    var n := |gs| - 1;
    assert (fs + gs)[|fs + gs| - 1] == gs[n];
    if gs[n] == f {
    } else {
      assert (fs + gs)[..|fs + gs| - 1] == fs + gs[..n];
      MarkOfLast(fs, gs[..n], f);
    }
  }

  /** The addresses of marked users differ. */
  ghost predicate OwnAddress(ts: seq<RouteEntry>, i: nat)
    requires i < |ts|
  {
    forall j | 0 <= j < |ts| && j != i && ts[j].mark.Some? :: ts[j].ip != ts[i].ip || ts[j].port != ts[i].port
  }

  /** Traffic to a user's latest address carries that user's mark. */
  lemma TrafficIsMarked(base: State, s: State, ts: seq<RouteEntry>, i: nat)
    requires Inv(base, s, ts) && i < |ts| && ts[i].mark.Some? && OwnAddress(ts, i)
    ensures MarkOf(s.filters, ts[i].ip, ts[i].port) == ts[i].mark
  {
    var ours, mine :| Owns(base, s, ts, ours, mine);
    OursMember(base, s, ts, ours, mine, i);
    forall g: Filter | g in ours && g.ip == ts[i].ip && g.port == ts[i].port
      ensures g == FilterOf(ts[i])
    {
      assert g in multiset(ours);
      var j := BagOwner(Filters(ts), g);
    }
    MarkOfLast(base.filters, ours, FilterOf(ts[i]));
  }
}
