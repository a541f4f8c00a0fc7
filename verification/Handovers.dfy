/** Where the user is sent: in any run of the protocol, which base stations the user is
  * told to go to, in which order, where its device is and what the controller believes. */
module Handovers {
  import opened Basics
  import opened Handlers
  import opened Protocol
  import opened Decisions
  import E = EdgeHandlers
  import opened Redeployment

  /** The base stations of the handovers in the user's inbox. */
  function Waiting(inbox: seq<EuMsg>): seq<string> {
    if inbox == [] then [] else (if inbox[0].UHandover? then [inbox[0].bts] else []) + Waiting(inbox[1..])
  }

  /** The plan finds a deployed user elsewhere, with no handover under way. */
  predicate Sends(s: Sys, step: Step) {
    && step.RunPlan? && s.ctl.row.Some? && s.ctl.bits.Some? && s.ctl.bts != Some(step.plan.bts)
    && HandoverBit !in s.ctl.bits.value && HandoveredBit !in s.ctl.bits.value
  }

  predicate ReadsHandover(s: Sys, step: Step) {
    step.EuReceive? && s.euInbox != [] && s.euInbox[0].UHandover?
  }

  /** The base stations of the plans of a run that send the user elsewhere. */
  function Sent(s: Sys, steps: seq<Step>): seq<string>
    requires StepsFrom(s, steps).Some?
    decreases |steps|
  {
    if steps == [] then []
    else (if Sends(s, steps[0]) then [steps[0].plan.bts] else []) + Sent(Apply(s, steps[0]), steps[1..])
  }

  /** For each handover that the device reads, whether it knows the base station. */
  function Answers(s: Sys, steps: seq<Step>): seq<bool>
    requires StepsFrom(s, steps).Some?
    decreases |steps|
  {
    if steps == [] then []
    else (if ReadsHandover(s, steps[0]) then [steps[0].known] else []) + Answers(Apply(s, steps[0]), steps[1..])
  }

  /** The last of these base stations that is known, or else `home`. */
  function LastKnown(home: string, sent: seq<string>, known: seq<bool>): string
    requires |sent| == |known|
    decreases |sent|
  {
    if sent == [] then home else LastKnown(if known[0] then sent[0] else home, sent[1..], known[1..])
  }

  // ------------------------------------------------------------ the user's inbox

  lemma {:induction false} WaitingAppend(inbox: seq<EuMsg>, m: EuMsg)
    ensures Waiting(inbox + [m]) == Waiting(inbox) + if m.UHandover? then [m.bts] else []
  {
    if inbox == [] {
      assert [m][1..] == [] && inbox + [m] == [m];
    } else {
      var first, last := if inbox[0].UHandover? then [inbox[0].bts] else [], if m.UHandover? then [m.bts] else [];
      assert (inbox + [m])[1..] == inbox[1..] + [m];
      WaitingAppend(inbox[1..], m);
      assert first + (Waiting(inbox[1..]) + last) == (first + Waiting(inbox[1..])) + last;
    }
  }

  lemma {:induction false} WaitingIn(inbox: seq<EuMsg>, b: string)
    ensures b in Waiting(inbox) <==> UHandover(b) in inbox
  {
    if inbox == [] {
    } else {
      WaitingIn(inbox[1..], b);
      assert inbox == [inbox[0]] + inbox[1..];
    }
  }

  function HandoversOf(out: seq<Effect>): seq<string> {
    if out == [] then [] else (if out[0].Handover? then [out[0].bts] else []) + HandoversOf(out[1..])
  }

  lemma PublishOne(s: Sys, e: Effect)
    ensures var t := Publish(s, e);
            t.eu == s.eu && t.ctl == s.ctl && t.ctlInbox == s.ctlInbox &&
            Waiting(t.euInbox) == Waiting(s.euInbox) + if e.Handover? then [e.bts] else []
  {
    if e.Handover? {
      WaitingAppend(s.euInbox, UHandover(e.bts));
    }
  }

  lemma {:induction false} PublishWaits(s: Sys, out: seq<Effect>)
    ensures var t := PublishAll(s, out);
            t.eu == s.eu && t.ctl == s.ctl && t.ctlInbox == s.ctlInbox &&
            Waiting(t.euInbox) == Waiting(s.euInbox) + HandoversOf(out)
    decreases |out|
  {
    if out == [] {
    } else {
      var one := if out[0].Handover? then [out[0].bts] else [];
      PublishOne(s, out[0]);
      PublishWaits(Publish(s, out[0]), out[1..]);
      assert (Waiting(s.euInbox) + one) + HandoversOf(out[1..]) == Waiting(s.euInbox) + (one + HandoversOf(out[1..]));
    }
  }

  lemma {:induction false} PostWaits(s: Sys, out: seq<E.Message>)
    ensures var t := PostAll(s, out);
            t.eu == s.eu && t.ctl == s.ctl && Waiting(t.euInbox) == Waiting(s.euInbox) &&
            forall b :: CHandovered(b) in t.ctlInbox ==> CHandovered(b) in s.ctlInbox
    decreases |out|
  {
    if out == [] {
    } else {
      PostWaits(Post(s, out[0]), out[1..]);
      match out[0] {
        case PubAllocated(svc) => WaitingAppend(s.euInbox, UAllocated(svc));
        case PubMigrated(svc) => WaitingAppend(s.euInbox, UMigrated(svc));
        case _ =>
      }
    }
  }

  // -------------------------------------------------------------- what steps do

  /** No effect but the handover of a plan names a base station for the user. */
  lemma HandoversShort(out: seq<Effect>)
    ensures out == [] ==> HandoversOf(out) == []
    ensures |out| == 1 ==> HandoversOf(out) == if out[0].Handover? then [out[0].bts] else []
    ensures |out| == 2 && !out[1].Handover? ==> HandoversOf(out) == if out[0].Handover? then [out[0].bts] else []
    ensures |out| == 3 && !out[1].Handover? && !out[2].Handover? ==>
              HandoversOf(out) == if out[0].Handover? then [out[0].bts] else []
  {
    if |out| >= 1 {
      var t := out[1..];
      assert HandoversOf(out) == (if out[0].Handover? then [out[0].bts] else []) + HandoversOf(t);
      if |t| >= 1 {
        assert HandoversOf(t) == (if t[0].Handover? then [t[0].bts] else []) + HandoversOf(t[1..]);
        if |t| == 2 {
          assert t[1..] == [out[2]] && [out[2]][1..] == [];
        }
      }
    }
  }

  lemma PlanSends(s: Sys, plan: Plan, json: bool)
    ensures HandoversOf(ThresholdPlan(s.ctl, plan, json).out)
            == if Sends(s, RunPlan(plan, json)) then [plan.bts] else []
  {
    var c := s.ctl;
    if c.row.Some? && c.bits.Some? {
      HandoverHalf(c, plan);
      MigrationHalf(ThresholdHandover(c, plan).c, plan, json);
    }
    HandoversShort(ThresholdPlan(c, plan, json).out);
  }

  lemma OthersSendNone(c: Ctl, m: CtlMsg)
    ensures HandoversOf(CtlHandle(c, m).out) == []
  {
    HandoversShort(CtlHandle(c, m).out);
  }

  /** What one step does to the user's inbox and to the device. */
  lemma StepWaits(s: Sys, step: Step)
    requires Enabled(s, step)
    ensures var t := Apply(s, step);
            && Waiting(s.euInbox) + (if Sends(s, step) then [step.plan.bts] else [])
               == (if ReadsHandover(s, step) then [s.euInbox[0].bts] else []) + Waiting(t.euInbox)
            && t.eu.ssid == (if ReadsHandover(s, step) && step.known then s.euInbox[0].bts else s.eu.ssid)
            && t.eu.connected == (step.Reconnect? || (s.eu.connected && !(ReadsHandover(s, step) && step.known)))
  {
    match step {
      case Discover(place) =>
        var o := Discovery(s.ctl, s.eu.ssid, true, place);
        HandoversShort(o.out);
        PublishWaits(s.(ctl := o.c, eu := s.eu.(discovered := true)), o.out);
      case RunPlan(plan, json) =>
        var o := ThresholdPlan(s.ctl, plan, json);
        PlanSends(s, plan, json);
        PublishWaits(s.(ctl := o.c, jsonLost := s.jsonLost || (!json && o.c.row != s.ctl.row)), o.out);
      case CtlReceive =>
        var o := CtlHandle(s.ctl, s.ctlInbox[0]);
        OthersSendNone(s.ctl, s.ctlInbox[0]);
        PublishWaits(s.(ctl := o.c, ctlInbox := s.ctlInbox[1..]), o.out);
      case HostReceive(x, port) =>
        var h := s.hosts[x];
        var r := HostHandle(h.edge, x, h.inbox[0], port);
        PostWaits(s.(hosts := s.hosts[x := h.(edge := r.e, inbox := h.inbox[1..])]), r.out);
      case SourceRun(x) =>
        var h := s.hosts[x];
        var r := E.SourceStep(h.edge, true);
        PostWaits(s.(hosts := s.hosts[x := h.(edge := r.e, sourceAlive := r.ok)]), r.out);
      case DestRun(x, free) =>
        var h := s.hosts[x];
        var r := DestHandle(h.edge, h.dgrams[0], free);
        PostWaits(s.(hosts := s.hosts[x := h.(edge := r.e, dgrams := h.dgrams[1..], destAlive := r.ok)]), r.out);
      case _ =>
    }
  }

  /** The first of these stations is read. */
  lemma FirstRead(home: string, b: string, known: bool, sent: seq<string>, answers: seq<bool>)
    requires |answers| <= |sent|
    ensures ([b] + sent)[|answers| + 1..] == sent[|answers|..]
    ensures LastKnown(home, ([b] + sent)[..|answers| + 1], [known] + answers)
            == LastKnown(if known then b else home, sent[..|answers|], answers)
  {
    assert ([b] + sent)[..|answers| + 1][1..] == sent[..|answers|];
    assert ([known] + answers)[1..] == answers;
  }

  /** One step of the run: `one` is sent, and `read` is read with the answer `answer`. */
  lemma StepInOrder(home: string, waiting0: seq<string>, one: seq<string>, waiting1: seq<string>,
                    read: seq<string>, answer: seq<bool>, later: seq<string>, answers: seq<bool>)
    requires waiting0 + one == read + waiting1 && |answer| == |read| <= 1 && |answers| <= |waiting1 + later|
    ensures var sent, sent1, home1 := waiting0 + (one + later), waiting1 + later,
              if read != [] && answer[0] then read[0] else home;
            && |answer + answers| <= |sent| && sent[|answer + answers|..] == sent1[|answers|..]
            && LastKnown(home, sent[..|answer + answers|], answer + answers)
               == LastKnown(home1, sent1[..|answers|], answers)
  {
    assert waiting0 + (one + later) == (waiting0 + one) + later == read + (waiting1 + later);
    if read == [] {
      assert answer + answers == answers;
      assert waiting0 + (one + later) == waiting1 + later;
    } else {
      assert read == [read[0]] && answer == [answer[0]];
      FirstRead(home, read[0], answer[0], waiting1 + later, answers);
    }
  }

  /** The user is sent to the base stations of the plans, each once and in order, and its
    * device is on the last of those it has read about and knows. */
  lemma {:induction false} SentInOrder(s: Sys, steps: seq<Step>)
    requires StepsFrom(s, steps).Some?
    ensures var t, sent, n := StepsFrom(s, steps).value, Waiting(s.euInbox) + Sent(s, steps), |Answers(s, steps)|;
            && n <= |sent| && Waiting(t.euInbox) == sent[n..]
            && t.eu.ssid == LastKnown(s.eu.ssid, sent[..n], Answers(s, steps))
    decreases |steps|
  {
    if steps == [] {
      assert Waiting(s.euInbox) + [] == Waiting(s.euInbox);
    } else {
      var s1, rest := Apply(s, steps[0]), steps[1..];
      StepWaits(s, steps[0]);
      SentInOrder(s1, rest);
      StepInOrder(s.eu.ssid, Waiting(s.euInbox), if Sends(s, steps[0]) then [steps[0].plan.bts] else [],
                  Waiting(s1.euInbox), if ReadsHandover(s, steps[0]) then [s.euInbox[0].bts] else [],
                  if ReadsHandover(s, steps[0]) then [steps[0].known] else [], Sent(s1, rest), Answers(s1, rest));
    }
  }

  // ------------------------------------------------------- all that names a station

  /** An earlier step of the run is a plan that sends the user to this base station. */
  ghost predicate SentBy(s: Sys, steps: seq<Step>, b: string) {
    exists i :: 0 <= i < |steps| && StepsFrom(s, steps[..i]).Some? &&
      Sends(StepsFrom(s, steps[..i]).value, steps[i]) && steps[i].plan.bts == b
  }

  lemma {:induction false} SentArePlans(s: Sys, steps: seq<Step>, b: string)
    requires StepsFrom(s, steps).Some? && b in Sent(s, steps)
    ensures SentBy(s, steps, b)
    decreases |steps|
  {
    if steps == [] {
    } else if Sends(s, steps[0]) && steps[0].plan.bts == b {
      assert StepsFrom(s, steps[..0]) == Some(s);
    } else {
      var s1, rest := Apply(s, steps[0]), steps[1..];
      SentArePlans(s1, rest, b);
      var i :| 0 <= i < |rest| && StepsFrom(s1, rest[..i]).Some? &&
        Sends(StepsFrom(s1, rest[..i]).value, rest[i]) && rest[i].plan.bts == b;
      assert steps[..i + 1][0] == steps[0] && steps[..i + 1][1..] == rest[..i];
      assert StepsFrom(s, steps[..i + 1]) == StepsFrom(s1, rest[..i]);
      assert steps[i + 1] == rest[i];
    }
  }

  /** Every place where a base station is written down has one of these names. */
  ghost predicate NamesIn(s: Sys, names: set<string>) {
    && s.eu.ssid in names
    && (s.ctl.bts.Some? ==> s.ctl.bts.value in names)
    && (forall b :: b in Waiting(s.euInbox) ==> b in names)
    && (forall b :: CHandovered(b) in s.ctlInbox ==> b in names)
  }

  lemma CtlNames(s: Sys)
    requires s.ctlInbox != []
    ensures var t := CtlRead(s);
            && t.eu == s.eu && Waiting(t.euInbox) == Waiting(s.euInbox) && t.ctlInbox == s.ctlInbox[1..]
            && (t.ctl.bts == s.ctl.bts || (s.ctlInbox[0].CHandovered? && t.ctl.bts == Some(s.ctlInbox[0].bts)))
  {
    var o := CtlHandle(s.ctl, s.ctlInbox[0]);
    OthersSendNone(s.ctl, s.ctlInbox[0]);
    PublishWaits(s.(ctl := o.c, ctlInbox := s.ctlInbox[1..]), o.out);
  }

  /** What one step writes into the controller's entry and into its inbox. */
  lemma StepReports(s: Sys, step: Step)
    requires Enabled(s, step)
    ensures var t := Apply(s, step);
            && (t.ctl.bts == s.ctl.bts || t.ctl.bts == Some(s.eu.ssid) ||
                (t.ctl.bts.Some? && CHandovered(t.ctl.bts.value) in s.ctlInbox))
            && forall b :: CHandovered(b) in t.ctlInbox ==> CHandovered(b) in s.ctlInbox || b == s.eu.ssid
  {
    match step {
      case Discover(place) =>
        var o := Discovery(s.ctl, s.eu.ssid, true, place);
        PublishWaits(s.(ctl := o.c, eu := s.eu.(discovered := true)), o.out);
      case RunPlan(plan, json) =>
        var o := ThresholdPlan(s.ctl, plan, json);
        if s.ctl.row.Some? && s.ctl.bits.Some? {
          HandoverHalf(s.ctl, plan);
          MigrationHalf(ThresholdHandover(s.ctl, plan).c, plan, json);
        }
        PublishWaits(s.(ctl := o.c, jsonLost := s.jsonLost || (!json && o.c.row != s.ctl.row)), o.out);
      case CtlReceive =>
        CtlNames(s);
      case HostReceive(x, port) =>
        var h := s.hosts[x];
        var r := HostHandle(h.edge, x, h.inbox[0], port);
        PostWaits(s.(hosts := s.hosts[x := h.(edge := r.e, inbox := h.inbox[1..])]), r.out);
      case SourceRun(x) =>
        var h := s.hosts[x];
        var r := E.SourceStep(h.edge, true);
        PostWaits(s.(hosts := s.hosts[x := h.(edge := r.e, sourceAlive := r.ok)]), r.out);
      case DestRun(x, free) =>
        var h := s.hosts[x];
        var r := DestHandle(h.edge, h.dgrams[0], free);
        PostWaits(s.(hosts := s.hosts[x := h.(edge := r.e, dgrams := h.dgrams[1..], destAlive := r.ok)]), r.out);
      case _ =>
    }
  }

  lemma StepNames(s: Sys, step: Step, names: set<string>)
    requires Enabled(s, step) && NamesIn(s, names)
    ensures NamesIn(Apply(s, step), names + if Sends(s, step) then {step.plan.bts} else {})
  {
    StepWaits(s, step);
    StepReports(s, step);
    var t := Apply(s, step);
    var more := if Sends(s, step) then [step.plan.bts] else [];
    forall b | b in Waiting(t.euInbox)
      ensures b in names + if Sends(s, step) then {step.plan.bts} else {}
    {
      assert b in Waiting(s.euInbox) + more;
    }
    if ReadsHandover(s, step) {
      assert s.euInbox[0].bts in Waiting(s.euInbox);
    }
  }

  lemma {:induction false} RunNames(s: Sys, steps: seq<Step>, names: set<string>)
    requires StepsFrom(s, steps).Some? && NamesIn(s, names)
    ensures NamesIn(StepsFrom(s, steps).value, names + set b | b in Sent(s, steps))
    decreases |steps|
  {
    var all := names + set b | b in Sent(s, steps);
    if steps == [] {
      assert all == names;
    } else {
      var s1, rest := Apply(s, steps[0]), steps[1..];
      var names1 := names + if Sends(s, steps[0]) then {steps[0].plan.bts} else {};
      StepNames(s, steps[0], names);
      RunNames(s1, rest, names1);
      assert all == names1 + set b | b in Sent(s1, rest);
    }
  }

  /** In every run, each handover the user is told of, the base station the device is on,
    * those it reports and the one the controller believes in are the base stations of
    * earlier plans that sent the user there, or the one the user came from. */
  lemma StationsArePlanned(s: Sys, steps: seq<Step>, b: string)
    requires Initial(s) && StepsFrom(s, steps).Some?
    ensures var t := StepsFrom(s, steps).value;
            && (UHandover(b) in t.euInbox ==> SentBy(s, steps, b))
            && (b == t.eu.ssid || t.ctl.bts == Some(b) || CHandovered(b) in t.ctlInbox ==>
                  b == s.eu.ssid || SentBy(s, steps, b))
  {
    var t := StepsFrom(s, steps).value;
    SentInOrder(s, steps);
    WaitingIn(t.euInbox, b);
    RunNames(s, steps, {s.eu.ssid});
    if b in Sent(s, steps) {
      SentArePlans(s, steps, b);
    }
  }

  /** When the user has read everything and knows every base station, its device is on
    * the one of the last plan that sent it away. */
  lemma {:induction false} AllKnown(home: string, sent: seq<string>, known: seq<bool>)
    requires |sent| == |known| && forall i | 0 <= i < |known| :: known[i]
    ensures LastKnown(home, sent, known) == if sent == [] then home else sent[|sent| - 1]
    decreases |sent|
  {
    if sent == [] {
    } else {
      AllKnown(sent[0], sent[1..], known[1..]);
    }
  }

  lemma FollowsThePlans(s: Sys, steps: seq<Step>)
    requires Initial(s) && StepsFrom(s, steps).Some? && StepsFrom(s, steps).value.euInbox == []
    requires forall i | 0 <= i < |Answers(s, steps)| :: Answers(s, steps)[i]
    ensures var sent := Sent(s, steps);
            StepsFrom(s, steps).value.eu.ssid == if sent == [] then s.eu.ssid else sent[|sent| - 1]
  {
    SentInOrder(s, steps);
    var sent, n := Waiting(s.euInbox) + Sent(s, steps), |Answers(s, steps)|;
    assert sent == Sent(s, steps);
    assert n == |sent| && sent[..n] == sent;
    AllKnown(s.eu.ssid, sent, Answers(s, steps));
  }
}
