/** Marking the traffic of simulated users (end-user/route.py): each user has a
  * routing table, and, once connected, a packet mark and one rule that sets it. */
module Route {
  import opened Basics

  // -------------------------------------------------------- the host's state

  /** A line of the table file: an entry that is read back, or any other text. */
  datatype Line = Entry(id: nat, name: string) | Text(text: string)

  datatype Filter = Filter(ip: string, port: string, mark: nat)
  datatype Rule = Rule(mark: nat, table: string)

  /** `otherMarks` are those of rules outside the mangle table. */
  datatype State = State(file: seq<Line>, filters: seq<Filter>, rules: seq<Rule>, otherMarks: set<nat>)

  function Digits(n: nat): string {
    if n < 10 then [(n as char) + '0'] else Digits(n / 10) + [(n % 10) as char + '0']
  }

  /** A table id as it is written; None when the range was exhausted. */
  function IdText(id: Option<nat>): string {
    match id
    case None => "None"
    case Some(n) => Digits(n)
  }

  function LineText(l: Line): string {
    match l
    case Entry(id, name) => Digits(id) + "\t" + name
    case Text(text) => text
  }

  function NewLine(id: Option<nat>, name: string): Line {
    match id
    case None => Text("None" + "\t" + name)
    case Some(n) => Entry(n, name)
  }

  /** `sed '/^prefix/d'`. */
  function Delete(lines: seq<Line>, prefix: string): seq<Line> {
    if lines == [] then []
    else Kept(lines[0], prefix) + Delete(lines[1..], prefix)
  }

  function Kept(l: Line, prefix: string): seq<Line> {
    if prefix <= LineText(l) then [] else [l]
  }

  /** `get_table_ids`. */
  function TableIds(lines: seq<Line>): set<nat> {
    set l | l in lines && l.Entry? :: l.id
  }

  /** The marks that `get_avail_mark` avoids. */
  function MarksInUse(s: State): set<nat> {
    s.otherMarks + set f | f in s.filters :: f.mark
  }

  /** The first number of a range that is not taken. */
  function FirstFree(from: nat, to: nat, taken: set<nat>): (r: Option<nat>)
    ensures r.Some? ==> from <= r.value < to && r.value !in taken && forall n | from <= n < r.value :: n in taken
    ensures r.None? ==> (forall n | from <= n < to :: n in taken)
    decreases if from < to then to - from else 0
  {
    if from >= to then None else if from !in taken then Some(from) else FirstFree(from + 1, to, taken)
  }

  function RemoveFilter(fs: seq<Filter>, f: Filter): seq<Filter> {
    if fs == [] then [] else if fs[0] == f then fs[1..] else [fs[0]] + RemoveFilter(fs[1..], f)
  }

  /** `ip rule del fwmark`: the first rule for the mark goes. */
  function RemoveRule(rs: seq<Rule>, mark: nat): seq<Rule> {
    if rs == [] then [] else if rs[0].mark == mark then rs[1..] else [rs[0]] + RemoveRule(rs[1..], mark)
  }

  predicate HasRule(rs: seq<Rule>, mark: nat) {
    exists r :: r in rs && r.mark == mark
  }

  /** The mark a packet leaves with: every matching rule sets it, the last one stays. */
  function MarkOf(fs: seq<Filter>, ip: string, port: string): Option<nat> {
    if fs == [] then None
    else
      var last := fs[|fs| - 1];
      if last.ip == ip && last.port == port then Some(last.mark) else MarkOf(fs[..|fs| - 1], ip, port)
  }

  // ------------------------------------------------------------ route entries

  datatype RouteEntry = RouteEntry(name: string, tableId: Option<nat>, mark: Option<nat>,
                                   ip: string, port: string, haveFilter: bool)

  function Find(ts: seq<RouteEntry>, user: string): (r: Option<nat>)
    ensures r.Some? ==> r.value < |ts| && ts[r.value].name == user
  {
    if ts == [] then None
    else if ts[0].name == user then Some(0)
    else
      var r := Find(ts[1..], user);
      if r.None? then None else Some(r.value + 1)
  }

  /** The lines and ids that `allocate_tables` adds. */
  function Allocate(ts: seq<RouteEntry>, ids: set<nat>, from: nat, to: nat): (r: seq<RouteEntry>)
    ensures |r| == |ts|
    decreases |ts|
  {
    if ts == [] then []
    else
      var id := FirstFree(from, to, ids);
      [ts[0].(tableId := id)] + Allocate(ts[1..], if id.Some? then ids + {id.value} else ids, from, to)
  }

  function NewLines(ts: seq<RouteEntry>): seq<Line> {
    if ts == [] then [] else [NewLine(ts[0].tableId, ts[0].name)] + NewLines(ts[1..])
  }

  function FilterOf(t: RouteEntry): Filter
    requires t.mark.Some?
  {
    Filter(t.ip, t.port, t.mark.value)
  }

  function RuleOf(t: RouteEntry): Rule
    requires t.mark.Some?
  {
    Rule(t.mark.value, t.name)
  }

  datatype Error = StopIteration | CalledProcessError

  datatype Result = Done(s: State, ts: seq<RouteEntry>) | Raised(error: Error)

  /** `set_filter`. */
  function FilterSet(s: State, ts: seq<RouteEntry>, user: string, ip: string, port: string, from: nat,
                     to: nat): Result
  {
    var found := Find(ts, user);
    if found.None? then Raised(StopIteration)
    else
      var i, t := found.value, ts[found.value];
      if t.mark.Some? then
        if FilterOf(t) !in s.filters then Raised(CalledProcessError)
        else Done(s.(filters := RemoveFilter(s.filters, FilterOf(t)) + [Filter(ip, port, t.mark.value)]),
                  ts[i := t.(ip := ip, port := port)])
      else
        var mark := FirstFree(from, to, MarksInUse(s));
        if mark.None? then Raised(CalledProcessError)
        else Done(s.(filters := s.filters + [Filter(ip, port, mark.value)],
                     rules := [Rule(mark.value, t.name)] + s.rules),
                  ts[i := t.(mark := mark, ip := ip, port := port)])
  }

  /** One turn of `release_tables`, when its commands succeed. */
  function ReleasedTable(s: State, t: RouteEntry): State {
    var file := Delete(s.file, IdText(t.tableId));
    if t.mark.None? then s.(file := file)
    else State(file, RemoveFilter(s.filters, FilterOf(t)), RemoveRule(s.rules, t.mark.value), s.otherMarks)
  }

  /** `release_tables`; None when a command fails. */
  function Release(s: State, ts: seq<RouteEntry>): Option<State>
    decreases |ts|
  {
    if ts == [] then Some(s)
    else if ts[0].mark.Some? && (!HasRule(s.rules, ts[0].mark.value) || FilterOf(ts[0]) !in s.filters) then None
    else Release(ReleasedTable(s, ts[0]), ts[1..])
  }

  // -------------------------------------------------------------- the classes

  /** The host, as the commands see it. */
  class Host {
    var file: seq<Line>
    var filters: seq<Filter>
    var rules: seq<Rule>
    var otherMarks: set<nat>

    function View(): State reads this {
      State(file, filters, rules, otherMarks)
    }

    constructor (s: State)
      ensures View() == s
    {
      file, filters, rules, otherMarks := s.file, s.filters, s.rules, s.otherMarks;
    }

    method CreateMarkFilter(ip: string, port: string, mark: nat)
      modifies this`filters
      ensures filters == old(filters) + [Filter(ip, port, mark)]
    {
      filters := filters + [Filter(ip, port, mark)];
    }

    method DeleteMarkFilter(ip: string, port: string, mark: nat) returns (ok: bool)
      modifies this`filters
      ensures ok <==> Filter(ip, port, mark) in old(filters)
      ensures filters == RemoveFilter(old(filters), Filter(ip, port, mark))
    {
      ok := Filter(ip, port, mark) in filters;
      filters := RemoveFilter(filters, Filter(ip, port, mark));
      if !ok {
        RemoveAbsent(old(filters), Filter(ip, port, mark));
      }
    }

    method CreateMarkRule(mark: nat, table: string)
      modifies this`rules
      ensures rules == [Rule(mark, table)] + old(rules)
    {
      rules := [Rule(mark, table)] + rules;
    }

    method DeleteMarkRule(mark: nat) returns (ok: bool)
      modifies this`rules
      ensures ok <==> HasRule(old(rules), mark)
      ensures rules == RemoveRule(old(rules), mark)
    {
      ok := HasRule(rules, mark);
      rules := RemoveRule(rules, mark);
    }

    method AppendLine(id: Option<nat>, name: string)
      modifies this`file
      ensures file == old(file) + [NewLine(id, name)]
    {
      file := file + [NewLine(id, name)];
    }

    method DeleteRouteTable(id: Option<nat>)
      modifies this`file
      ensures file == Delete(old(file), IdText(id))
    {
      file := Delete(file, IdText(id));
    }
  }

  lemma {:induction false} RemoveAbsent(fs: seq<Filter>, f: Filter)
    requires f !in fs
    ensures RemoveFilter(fs, f) == fs
  {
    if fs == [] {
    } else {
      RemoveAbsent(fs[1..], f);
    }
  }

  class RouteManager {
    const host: Host
    var tables: seq<RouteEntry>
    var isAllocated: bool

    constructor (users: seq<string>, h: Host)
      ensures host == h && !isAllocated
      ensures tables == seq(|users|, i requires 0 <= i < |users| => RouteEntry(users[i], None, None, "", "", false))
    {
      host := h;
      tables := seq(|users|, i requires 0 <= i < |users| => RouteEntry(users[i], None, None, "", "", false));
      isAllocated := false;
    }

    method AllocateTables(from: nat, to: nat)
      modifies this, host`file
      ensures tables == Allocate(old(tables), TableIds(old(host.file)), from, to)
      ensures host.file == old(host.file) + NewLines(tables)
      ensures isAllocated
    {
      ghost var start, all := tables, Allocate(tables, TableIds(host.file), from, to);
      var ids := TableIds(host.file);
      for i := 0 to |tables|
        invariant |all| == |tables| && tables == all[..i] + start[i..]
        invariant Allocate(start[i..], ids, from, to) == all[i..]
        invariant host.file == old(host.file) + NewLines(all[..i])
      {
        var id := FirstFree(from, to, ids);
        AllocateStep(start, ids, from, to, all, i);
        NextTable(all, start, tables, i);
        NextLine(all, start, i, id, old(host.file));
        AllocateTable(i, id);
        if id.Some? {
          ids := ids + {id.value};
        }
      }
      assert all[..|all|] == all;
      isAllocated := true;
    }

    method AllocateTable(i: nat, id: Option<nat>)
      requires i < |tables|
      modifies this`tables, host`file
      ensures tables == old(tables)[i := old(tables)[i].(tableId := id)]
      ensures host.file == old(host.file) + [NewLine(id, old(tables)[i].name)]
    {
      host.AppendLine(id, tables[i].name);
      tables := tables[i := tables[i].(tableId := id)];
    }

    method SetFilter(user: string, ip: string, port: string, from: nat, to: nat) returns (r: Option<Error>)
      modifies this`tables, host
      ensures match FilterSet(old(host.View()), old(tables), user, ip, port, from, to)
              case Done(s, ts) => r.None? && host.View() == s && tables == ts
              case Raised(e) => r == Some(e) && host.View() == old(host.View()) && tables == old(tables)
    {
      var found := Find(tables, user);
      if found.None? {
        return Some(StopIteration);
      }
      var i, t := found.value, tables[found.value];
      if t.mark.Some? {
        var ok := host.DeleteMarkFilter(t.ip, t.port, t.mark.value);
        if !ok {
          RemoveAbsent(old(host.filters), FilterOf(t));
          return Some(CalledProcessError);
        }
        host.CreateMarkFilter(ip, port, t.mark.value);
        tables := tables[i := t.(ip := ip, port := port)];
      } else {
        var mark := FirstFree(from, to, MarksInUse(host.View()));
        if mark.None? {
          return Some(CalledProcessError);
        }
        host.CreateMarkFilter(ip, port, mark.value);
        tables := tables[i := t.(mark := mark)];
        host.CreateMarkRule(mark.value, t.name);
        tables := tables[i := tables[i].(ip := ip, port := port)];
      }
      r := None;
    }

    method ReleaseTable(t: RouteEntry) returns (ok: bool)
      modifies host
      ensures ok <==> t.mark.None? || (HasRule(old(host.rules), t.mark.value) && FilterOf(t) in old(host.filters))
      ensures ok ==> host.View() == ReleasedTable(old(host.View()), t)
    {
      if t.mark.Some? {
        var ruleOk := host.DeleteMarkRule(t.mark.value);
        if !ruleOk {
          return false;
        }
        var filterOk := host.DeleteMarkFilter(t.ip, t.port, t.mark.value);
        if !filterOk {
          return false;
        }
      }
      host.DeleteRouteTable(t.tableId);
      ok := true;
    }

    /** Stops at the first command that fails; the state is then only partly released. */
    method ReleaseTables() returns (ok: bool)
      modifies host
      ensures ok <==> Release(old(host.View()), tables).Some?
      ensures ok ==> host.View() == Release(old(host.View()), tables).value
    {
      ghost var ts := tables;
      for i := 0 to |tables|
        invariant tables == ts
        invariant Release(old(host.View()), ts) == Release(host.View(), ts[i..])
      {
        assert ts[i..][1..] == ts[i + 1..];
        var done := ReleaseTable(tables[i]);
        if !done {
          return false;
        }
      }
      ok := true;
    }
  }

  lemma AllocateStep(start: seq<RouteEntry>, ids: set<nat>, from: nat, to: nat, all: seq<RouteEntry>, i: nat)
    requires i < |start| == |all| && Allocate(start[i..], ids, from, to) == all[i..]
    ensures var id := FirstFree(from, to, ids);
            all[i] == start[i].(tableId := id) &&
            Allocate(start[i + 1..], if id.Some? then ids + {id.value} else ids, from, to) == all[i + 1..]
  {
    assert start[i..][1..] == start[i + 1..];
    assert all[i..][0] == all[i] && all[i..][1..] == all[i + 1..];
  }

  lemma NextTable(all: seq<RouteEntry>, start: seq<RouteEntry>, now: seq<RouteEntry>, i: nat)
    requires i < |all| == |start| && now == all[..i] + start[i..]
    ensures now[i := all[i]] == all[..i + 1] + start[i + 1..]
    ensures now[i] == start[i] && all[..i] + [all[i]] == all[..i + 1]
  {
  }

  lemma NextLine(all: seq<RouteEntry>, start: seq<RouteEntry>, i: nat, id: Option<nat>, file: seq<Line>)
    requires i < |all| == |start| && all[i] == start[i].(tableId := id)
    ensures (file + NewLines(all[..i])) + [NewLine(id, start[i].name)] == file + NewLines(all[..i + 1])
  {
    assert all[..i] + [all[i]] == all[..i + 1];
    NewLinesAppend(all[..i], all[i]);
  }

  lemma {:induction false} NewLinesAppend(ts: seq<RouteEntry>, t: RouteEntry)
    ensures NewLines(ts + [t]) == NewLines(ts) + [NewLine(t.tableId, t.name)]
  {
    if ts == [] {
      assert ts + [t] == [t];
    } else {
      assert (ts + [t])[1..] == ts[1..] + [t];
      NewLinesAppend(ts[1..], t);
    }
  }
}
