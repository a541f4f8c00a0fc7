/** Prepare and migrate commands that come in pairs. */
module Pairs {
  import opened Basics

  /** What a command, or the message that causes it, does to the source's socket. */
  datatype Kind = Measuring | Preparing | Migrating

  datatype Token<U(==)> = Token(who: U, kind: Kind)

  /** Each prepare is followed by the migrate of the same service before any other
    * prepare; `pending` has been prepared already. */
  predicate PairedFrom<U(==)>(ts: seq<Token<U>>, pending: Option<U>)
    decreases |ts|
  {
    if ts == [] then pending.None?
    else match ts[0].kind
         case Measuring => PairedFrom(ts[1..], pending)
         case Preparing => pending.None? && PairedFrom(ts[1..], Some(ts[0].who))
         case Migrating => pending == Some(ts[0].who) && PairedFrom(ts[1..], None)
  }

  lemma {:induction false} DropMeasuring<U>(a: seq<Token<U>>, t: Token<U>, b: seq<Token<U>>, pending: Option<U>)
    requires t.kind == Measuring
    ensures PairedFrom(a + [t] + b, pending) <==> PairedFrom(a + b, pending)
    decreases |a|
  {
    var all := a + [t] + b;
    if a == [] {
      assert all[1..] == b && a + b == b;
    } else {
      assert all[0] == a[0] == (a + b)[0];
      assert all[1..] == a[1..] + [t] + b && (a + b)[1..] == a[1..] + b;
      DropMeasuring(a[1..], t, b, if a[0].kind == Preparing then Some(a[0].who) else pending);
      DropMeasuring(a[1..], t, b, None);
      DropMeasuring(a[1..], t, b, pending);
    }
  }

  lemma {:induction false} AppendPair<U>(a: seq<Token<U>>, u: U, pending: Option<U>)
    requires PairedFrom(a, pending)
    ensures PairedFrom(a + [Token(u, Preparing), Token(u, Migrating)], pending)
    decreases |a|
  {
    var pair := [Token(u, Preparing), Token(u, Migrating)];
    if a == [] {
      assert a + pair == pair && pair[1..] == [Token(u, Migrating)] && pair[1..][1..] == [];
    } else {
      assert (a + pair)[1..] == a[1..] + pair;
      match a[0].kind
      case Measuring => AppendPair(a[1..], u, pending);
      case Preparing => AppendPair(a[1..], u, Some(a[0].who));
      case Migrating => AppendPair(a[1..], u, None);
    }
  }

  /** Only measurements between `j` and `i`. */
  predicate QuietBetween<U(==)>(ts: seq<Token<U>>, j: int, i: int) {
    forall m | j < m < i && 0 <= m < |ts| :: ts[m].kind == Measuring
  }

  ghost predicate PreparedJustBefore<U>(ts: seq<Token<U>>, i: int)
    requires 0 <= i < |ts|
  {
    exists j :: 0 <= j < i && ts[j] == Token(ts[i].who, Preparing) && QuietBetween(ts, j, i)
  }

  /** In a paired queue each migrate finds its own prepare before it, with nothing but
    * measurements in between. */
  lemma {:induction false} PreparedBefore<U>(ts: seq<Token<U>>, pending: Option<U>, i: nat)
    requires PairedFrom(ts, pending) && i < |ts| && ts[i].kind == Migrating
    ensures PreparedJustBefore(ts, i) || (pending == Some(ts[i].who) && QuietBetween(ts, -1, i))
    decreases |ts|
  {
    if i == 0 {
    } else {
      var next := match ts[0].kind case Measuring => pending case Preparing => Some(ts[0].who) case Migrating => None;
      var rest := ts[1..];
      PreparedBefore(rest, next, i - 1);
      assert forall m | 0 <= m < |rest| :: rest[m] == ts[m + 1];
      if PreparedJustBefore(rest, i - 1) {
        var j :| 0 <= j < i - 1 && rest[j] == Token(ts[i].who, Preparing) && QuietBetween(rest, j, i - 1);
        assert ts[j + 1] == Token(ts[i].who, Preparing);
        assert QuietBetween(ts, j + 1, i) by {
          forall m | j + 1 < m < i
            ensures ts[m].kind == Measuring
          {
            assert rest[m - 1].kind == Measuring;
          }
        }
      } else {
        forall m | 0 < m < i
          ensures ts[m].kind == Measuring
        {
          assert rest[m - 1].kind == Measuring;
        }
        if ts[0].kind == Preparing {
          assert ts[0] == Token(ts[i].who, Preparing) && QuietBetween(ts, 0, i);
        }
      }
    }
  }
}
