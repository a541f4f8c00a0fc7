/** What the gain of a move means (stats_edge.py): the delay that the user's requests are
  * spared at the new place, less the time for which the service is away. */
module Gains {
  import opened Basics
  import opened Assignment
  import opened Planner

  /** The time to send some data over a link of this bandwidth. */
  function Transfer(data: real, bandwidth: real): real
    requires bandwidth != 0.0
  {
    data / bandwidth
  }

  /** The milliseconds of processing at a server of capacity `there`, for what takes `ms`
    * at one of capacity `here`. */
  function Processing(ms: real, here: real, there: real): real
    requires there != 0.0
  {
    ms * here / there
  }

  /** The delay of one request, in microseconds: its data over the link of base station
    * `b` to server `s`, the round trip, and `ms` milliseconds of processing. */
  function Delay(st: Stats, u: string, s: string, b: string, ms: real): real
    requires st.bandwidth(Triple(u, s, b)) != 0.0
  {
    Transfer(st.dataSize(u) * 8.0, st.bandwidth(Triple(u, s, b))) + st.rtt(Place(b, s)) + 1000.0 * ms
  }

  /** Both places are connected, the target has a capacity, and the database knows how
    * long the user's requests take now. */
  predicate Measured(st: Stats, u: string, s: string, b: string, s2: string, b2: string) {
    && st.bandwidth(Triple(u, s, b)) != 0.0 && st.bandwidth(Triple(u, s2, b2)) != 0.0
    && st.cpuOf(s2) != 0.0 && st.procDelay(Triple(u, s, b)).Some?
  }

  /** What a request takes now less what it will take there; the processing takes as much
    * longer as the target is slower. */
  function Spared(st: Stats, u: string, s: string, b: string, s2: string, b2: string): real
    requires Measured(st, u, s, b, s2, b2)
  {
    var ms := st.procDelay(Triple(u, s, b)).value;
    Delay(st, u, s, b, ms) - Delay(st, u, s2, b2, Processing(ms, st.cpuOf(s), st.cpuOf(s2)))
  }

  lemma Quotient(a: real, x: real)
    requires x != 0.0
    ensures a * (1.0 / x) == a / x
  {
    assert a / x * x == a;
    assert a * (1.0 / x) * x == a * (1.0 / x * x) == a;
  }

  /** `get_delta_delay` is the delay that is spared; it is known exactly when both places
    * are measured, and a user that stays is spared nothing. */
  lemma DeltaIsSpared(st: Stats, u: string, s: string, b: string, s2: string, b2: string)
    ensures DeltaDelay(st, u, s, s2, b, b2)
            == if s == s2 && b == b2 then Some(0.0)
               else if Measured(st, u, s, b, s2, b2) then Some(Spared(st, u, s, b, s2, b2)) else None
  {
    if Measured(st, u, s, b, s2, b2) {
      var bw, bw2 := st.bandwidth(Triple(u, s, b)), st.bandwidth(Triple(u, s2, b2));
      var ms, cap, cap2 := st.procDelay(Triple(u, s, b)).value, st.cpuOf(s), st.cpuOf(s2);
      var d, rtt, rtt2 := st.dataSize(u), st.rtt(Place(b, s)), st.rtt(Place(b2, s2));
      Regrouped(d, bw, bw2, rtt, rtt2, ms, cap, cap2);
      if s != s2 || b != b2 {
        assert DeltaDelay(st, u, s, s2, b, b2).value
            == d * 8.0 * (1.0 / bw - 1.0 / bw2) + (rtt - rtt2) + ms * (1.0 - cap / cap2) * 1000.0;
      }
    }
  }

  lemma Regrouped(d: real, bw: real, bw2: real, rtt: real, rtt2: real, ms: real, cap: real, cap2: real)
    requires bw != 0.0 && bw2 != 0.0 && cap2 != 0.0
    ensures d * 8.0 * (1.0 / bw - 1.0 / bw2) + (rtt - rtt2) + ms * (1.0 - cap / cap2) * 1000.0
            == (Transfer(d * 8.0, bw) + rtt + 1000.0 * ms)
               - (Transfer(d * 8.0, bw2) + rtt2 + 1000.0 * Processing(ms, cap, cap2))
  {
    var d8, part, t1, t2, p := d * 8.0, ms * (1.0 - cap / cap2), Transfer(d * 8.0, bw), Transfer(d * 8.0, bw2),
      Processing(ms, cap, cap2);
    TransferSpared(d8, bw, bw2);
    ProcessingSpared(ms, cap, cap2);
    assert part * 1000.0 == 1000.0 * ms - 1000.0 * p;
    assert d8 * (1.0 / bw - 1.0 / bw2) == t1 - t2;
  }

  lemma TransferSpared(d: real, bw: real, bw2: real)
    requires bw != 0.0 && bw2 != 0.0
    ensures d * (1.0 / bw - 1.0 / bw2) == Transfer(d, bw) - Transfer(d, bw2)
  {
    Quotient(d, bw);
    Quotient(d, bw2);
    assert d * (1.0 / bw - 1.0 / bw2) == d * (1.0 / bw) - d * (1.0 / bw2);
  }

  lemma ProcessingSpared(ms: real, cap: real, cap2: real)
    requires cap2 != 0.0
    ensures ms * (1.0 - cap / cap2) == ms - Processing(ms, cap, cap2)
  {
    Quotient(cap, cap2);
    Quotient(ms * cap, cap2);
    assert ms * (cap * (1.0 / cap2)) == (ms * cap) * (1.0 / cap2);
    assert ms * (1.0 - cap / cap2) == ms - ms * (cap / cap2);
  }

  /** The gain of a move is the greatest number that, with the time of the migration or
    * with that of the handover, is within what all the user's requests are spared. It is
    * known exactly when the places are measured and the migration time is known. */
  lemma GainIsGreatest(st: Stats, u: string, s: string, b: string, s2: string, b2: string, g: real)
    requires s != s2 || b != b2
    ensures var r := Gain(st, u, s, b, s2, b2);
            && (r.Some? <==> Measured(st, u, s, b, s2, b2) && (s == s2 || st.migTime(u, s, s2).Some?))
            && (r.Some? ==>
                  var spared := st.requests(u) * Spared(st, u, s, b, s2, b2);
                  var away := if s == s2 then 0.0 else st.migTime(u, s, s2).value;
                  (g <= r.value <==>
                     g + 1000000.0 * away <= spared && g + (if b == b2 then 0.0 else 500000.0) <= spared))
  {
    DeltaIsSpared(st, u, s, b, s2, b2);
    var r := Gain(st, u, s, b, s2, b2);
    if r.Some? {
      var delta := Spared(st, u, s, b, s2, b2);
      assert delta * st.requests(u) == st.requests(u) * delta;
    }
  }

  // ------------------------------------------------------------------ better places

  lemma SmallerQuotient(a: real, x: real, y: real)
    requires a > 0.0 && 0.0 < x < y
    ensures a / y < a / x
  {
    var p, q := a / x, a / y;
    assert p * x == a && q * y == a;
    assert p > 0.0;
    assert p * (y - x) > 0.0;
    assert p * y == p * x + p * (y - x);
    assert (p - q) * y > 0.0;
  }

  lemma FasterTransfer(data: real, bw1: real, bw2: real)
    requires data > 0.0 && 0.0 < bw1 < bw2
    ensures Transfer(data, bw2) < Transfer(data, bw1)
  {
    SmallerQuotient(data, bw1, bw2);
  }

  lemma FasterProcessing(ms: real, here: real, cap1: real, cap2: real)
    requires ms > 0.0 && here > 0.0 && 0.0 < cap1 < cap2
    ensures Processing(ms, here, cap2) < Processing(ms, here, cap1)
  {
    assert ms * here > 0.0;
    SmallerQuotient(ms * here, cap1, cap2);
  }

  lemma MoreIsSpared(requests: real, spared1: real, spared2: real)
    requires requests > 0.0 && spared1 < spared2
    ensures requests * spared1 < requests * spared2
  {
    assert requests * (spared2 - spared1) > 0.0;
  }

  /** A gain that is greater where only what is spared differs. */
  lemma GainGrows(st1: Stats, st2: Stats, u: string, s: string, b: string, s2: string, b2: string)
    requires (s != s2 || b != b2) && st1.requests(u) == st2.requests(u) > 0.0
    requires MigrationTime(st1, u, s, s2) == MigrationTime(st2, u, s, s2)
    requires Measured(st1, u, s, b, s2, b2) && Measured(st2, u, s, b, s2, b2)
    requires Spared(st1, u, s, b, s2, b2) < Spared(st2, u, s, b, s2, b2)
    ensures var r1, r2 := Gain(st1, u, s, b, s2, b2), Gain(st2, u, s, b, s2, b2);
            (r1.Some? <==> r2.Some?) && (r1.Some? ==> r1.value < r2.value)
  {
    DeltaIsSpared(st1, u, s, b, s2, b2);
    DeltaIsSpared(st2, u, s, b, s2, b2);
    MoreIsSpared(st1.requests(u), Spared(st1, u, s, b, s2, b2), Spared(st2, u, s, b, s2, b2));
  }

  /** A faster link to the target raises the gain. */
  lemma FasterLinkGains(st: Stats, u: string, s: string, b: string, s2: string, b2: string, bw: Triple -> real)
    requires (s != s2 || b != b2) && st.requests(u) > 0.0 && st.dataSize(u) > 0.0 && Measured(st, u, s, b, s2, b2)
    requires bw(Triple(u, s, b)) == st.bandwidth(Triple(u, s, b))
    requires 0.0 < st.bandwidth(Triple(u, s2, b2)) < bw(Triple(u, s2, b2))
    ensures var r1, r2 := Gain(st, u, s, b, s2, b2), Gain(st.(bandwidth := bw), u, s, b, s2, b2);
            (r1.Some? <==> r2.Some?) && (r1.Some? ==> r1.value < r2.value)
  {
    FasterTransfer(st.dataSize(u) * 8.0, st.bandwidth(Triple(u, s2, b2)), bw(Triple(u, s2, b2)));
    GainGrows(st, st.(bandwidth := bw), u, s, b, s2, b2);
  }

  /** So does a shorter round trip to it. */
  lemma ShorterTripGains(st: Stats, u: string, s: string, b: string, s2: string, b2: string, rtt: Place -> real)
    requires (s != s2 || b != b2) && st.requests(u) > 0.0 && Measured(st, u, s, b, s2, b2)
    requires rtt(Place(b, s)) == st.rtt(Place(b, s)) && rtt(Place(b2, s2)) < st.rtt(Place(b2, s2))
    ensures var r1, r2 := Gain(st, u, s, b, s2, b2), Gain(st.(rtt := rtt), u, s, b, s2, b2);
            (r1.Some? <==> r2.Some?) && (r1.Some? ==> r1.value < r2.value)
  {
    GainGrows(st, st.(rtt := rtt), u, s, b, s2, b2);
  }

  /** And so does more capacity of the target, for a user that needs some processing. */
  lemma FasterServerGains(st: Stats, u: string, s: string, b: string, s2: string, b2: string, cpuOf: string -> real)
    requires s != s2 && st.requests(u) > 0.0 && Measured(st, u, s, b, s2, b2)
    requires st.procDelay(Triple(u, s, b)).value > 0.0 && cpuOf(s) == st.cpuOf(s) > 0.0
    requires 0.0 < st.cpuOf(s2) < cpuOf(s2)
    ensures var r1, r2 := Gain(st, u, s, b, s2, b2), Gain(st.(cpuOf := cpuOf), u, s, b, s2, b2);
            (r1.Some? <==> r2.Some?) && (r1.Some? ==> r1.value < r2.value)
  {
    var ms := st.procDelay(Triple(u, s, b)).value;
    FasterProcessing(ms, st.cpuOf(s), st.cpuOf(s2), cpuOf(s2));
    GainGrows(st, st.(cpuOf := cpuOf), u, s, b, s2, b2);
  }

  /** A longer migration never raises it, and lowers it unless the handover takes longer. */
  lemma LongerMigrationCosts(st: Stats, u: string, s: string, b: string, s2: string, b2: string,
                             mig: (string, string, string) -> Option<real>)
    requires s != s2 && st.migTime(u, s, s2).Some? && mig(u, s, s2).Some?
    requires st.migTime(u, s, s2).value < mig(u, s, s2).value
    ensures var r1, r2 := Gain(st, u, s, b, s2, b2), Gain(st.(migTime := mig), u, s, b, s2, b2);
            && (r1.Some? <==> r2.Some?)
            && (r1.Some? ==> r2.value <= r1.value)
            && (r1.Some? && (b == b2 || mig(u, s, s2).value > 0.5) && mig(u, s, s2).value > 0.0 ==> r2.value < r1.value)
  {
  }

  // --------------------------------------------------------------------- the limits

  /** A placement is allowed when each user goes to a server and a neighbouring base station
    * that exist, no server gets more load than it has processing power, memory and disk,
    * and no base station more than 200 users. */
  lemma AllowedExactly(st: Stats, us: seq<string>, place: map<string, Place>)
    ensures Allowed(st, us, place) <==>
              && (forall u | u in us :: u in place && place[u].server in st.servers && place[u].bts in st.bss &&
                    place[u].bts in st.neighbours(u))
              && (forall s | s in st.servers :: Load(us, place, s, st.cpu) <= st.cpuOf(s))
              && (forall s | s in st.servers :: Load(us, place, s, st.ram) <= st.ramOf(s))
              && (forall s | s in st.servers :: Load(us, place, s, st.disk) <= st.diskOf(s))
              && (forall b | b in st.bss :: Attached(us, place, b) <= 200)
  {
  }

  /** The objective can be computed exactly when, for each movable user whose place is known,
    * every other neighbouring place is measured and its migration time is known. */
  lemma ComputableExactly(st: Stats, us: seq<string>)
    ensures Computable(st, us) <==>
              forall u, s2, b2 | u in us && Known(st, u) && s2 in st.servers && b2 in st.bss &&
                                 b2 in st.neighbours(u) && Place(b2, s2) != st.current[u] ::
                && Measured(st, u, st.current[u].server, st.current[u].bts, s2, b2)
                && (st.current[u].server == s2 || st.migTime(u, st.current[u].server, s2).Some?)
  {
    forall u, s2, b2 | Known(st, u)
      ensures Gain(st, u, st.current[u].server, st.current[u].bts, s2, b2).Some? <==>
                Place(b2, s2) == st.current[u] ||
                (Measured(st, u, st.current[u].server, st.current[u].bts, s2, b2) &&
                 (st.current[u].server == s2 || st.migTime(u, st.current[u].server, s2).Some?))
    {
      DeltaIsSpared(st, u, st.current[u].server, st.current[u].bts, s2, b2);
    }
    forall u, s, b
      ensures s in st.servers && b in st.bss && Current(st)(Triple(u, s, b)) != 0 <==>
                Known(st, u) && st.current[u] == Place(b, s)
    {
    }
  }

  /** The planner knows where the user is. */
  predicate Known(st: Stats, u: string) {
    u in st.current && st.current[u].server in st.servers && st.current[u].bts in st.bss
  }
}
