/** Complete delivery: a message goes to exactly the subscribers it is meant for, once each, whatever else
    is subscribed to or published meanwhile, and it is only given back when they all have handled it. */
module Completion {
  import opened Types
  import opened Protocol
  import opened Frames
  import opened RefCount
  import opened RefSafety
  import opened Logs
  import opened Delivery
  import opened Lifetime
  import opened Transit
  import opened OnTheWay
  import opened Intended

  /** m is published to the broker, and the broker has started to hand it out. From here on a subscriber
      that changes its subscription to the id of m may or may not get it. */
  ghost predicate HandedOut(s: State, m: Msg) {
    SentBroker(s, m) && m !in s.pub && s.broker != Taken(m)
  }

  /** m has not been published, or the broker has not started to hand it out. */
  ghost predicate Waiting(s: State, m: Msg) {
    m !in s.sent || m in s.pub || s.broker == Taken(m)
  }

  /** What k is owed of m is what is meant for it. */
  ghost predicate DueIsOwed(s: State, k: nat, m: Msg)
    requires Shaped(s) && k < |s.subs|
  {
    Owed(s, k, m) <==> Due(s, k, m)
  }

  lemma NotCarried(s: State, k: nat, m: Msg)
    requires TransitInv(s) && k < |s.subs| && forall i :: 0 <= i < |s.subs| ==> Times(s, i, m) == 0
    ensures !Upstream(s, k, m) && !(s.mutex.ByPoller? && s.poll[s.mutex.i] == Relaying(m, k))
  {
    forall i | 0 <= i < k ensures !Feeds(s, i, k, m) {
      if Carries(s, i, m) { CarriedIsHere(s, i, m); }
    }
    if s.mutex.ByPoller? {
      assert PollInv(s, s.mutex.i);
      if s.poll[s.mutex.i] == Relaying(m, k) { RelayedIsHere(s, s.mutex.i, m); }
    }
    hide TransitInv, Times;
  }

  lemma BrokersIsHandedOut(s: State, m: Msg)
    requires TransitInv(s) && (s.broker.Visiting? || s.broker.Putting?) && s.broker.m == m
    ensures HandedOut(s, m)
  {
    assert MsgTransit(s, m);
    BrokersIsSent(s, m);
  }

  lemma PubIsSent(s: State, m: Msg)
    requires TransitInv(s) && (m in s.pub || s.broker == Taken(m))
    ensures SentBroker(s, m)
  {
    assert MsgTransit(s, m);
    CountIn(Published(s), m);
    if s.broker == Taken(m) { BrokersIsSent(s, m); }
  }

  /** Before that, k is owed m when it takes its id. */
  lemma WaitingIsOwed(s: State, k: nat, m: Msg)
    requires TransitInv(s) && k < |s.subs| && Waiting(s, m)
    ensures DueIsOwed(s, k, m)
  {
    assert MsgTransit(s, m);
    assert forall i :: 0 <= i < |s.subs| ==> Times(s, i, m) == 0;
    NotCarried(s, k, m);
    if (s.broker.Visiting? || s.broker.Putting?) && s.broker.m == m { BrokersIsHandedOut(s, m); }
    if m in s.pub || s.broker == Taken(m) { PubIsSent(s, m); }
    hide TransitInv, Times, Upstream;
  }

  /** A message published to one subscriber is owed to no other. */
  lemma DirectIsClosed(s: State, k: nat, m: Msg)
    requires TransitInv(s) && k < |s.subs| && m in s.sent && s.sent[m].Direct?
    ensures !Open(s, k, m) && !Addressed(s, k, m)
  {
    var j := s.sent[m].i;
    assert MsgTransit(s, m) && DirectOnly(s, j, m);
    if (s.broker.Visiting? || s.broker.Putting?) && s.broker.m == m { BrokersIsHandedOut(s, m); }
    if m in s.pub || s.broker == Taken(m) { PubIsSent(s, m); }
    if s.mutex.ByPoller? && s.mutex.i < |s.subs| && s.poll[s.mutex.i] == Relaying(m, k) {
      RelayedIsHere(s, s.mutex.i, m);
    }
    forall i | 0 <= i < k ensures !Feeds(s, i, k, m) {
      if Carries(s, i, m) { CarriedIsHere(s, i, m); }
    }
    hide TransitInv, Times;
  }

  lemma DueSame(s: State, step: Step, k: nat, m: Msg)
    requires Shaped(s) && Enabled(s, step) && k < |s.subs|
    requires step != Publish(m) && step != PublishDirect(k, m) && !Retakes(step, k, m.id)
    ensures Due(Apply(s, step), k, m) <==> Due(s, k, m)
  {
    hide Apply;
    WantsSame(s, step, k, m.id);
    if step.Publish? {
      PublishSends(s, step.m);
    } else if step.PublishDirect? {
      PublishDirectSends(s, step.i, step.m);
    } else {
      SentSame(s, step);
    }
    hide Enabled;
  }

  lemma DirectArrives(s: State, k: nat, m: Msg)
    requires TransitInv(s) && Enabled(s, PublishDirect(k, m))
    ensures DueIsOwed(Apply(s, PublishDirect(k, m)), k, m)
  {
    TimesAfter(s, PublishDirect(k, m), k, m);
    PublishDirectSends(s, k, m);
    hide Apply, TransitInv, Times;
  }

  lemma PublishedWaits(s: State, m: Msg)
    requires Shaped(s) && Enabled(s, Publish(m))
    ensures Waiting(Apply(s, Publish(m)), m)
  {
  }

  lemma RetakenWaits(s: State, step: Step, k: nat, m: Msg)
    requires Shaped(s) && Enabled(s, step) && Retakes(step, k, m.id)
    ensures var s' := Apply(s, step);
            && s'.sent == s.sent && s'.pub == s.pub && s'.broker == s.broker && s'.mutex == s.mutex
            && s'.handled == s.handled && s'.poll == s.poll && s'.q == s.q && |s'.subs| == |s.subs|
  {
  }

  lemma RetakenKeepsDueIsOwed(s: State, step: Step, k: nat, m: Msg)
    requires TransitInv(s) && k < |s.subs| && DueIsOwed(s, k, m) && Enabled(s, step)
    requires Retakes(step, k, m.id) && !HandedOut(s, m)
    ensures DueIsOwed(Apply(s, step), k, m)
  {
    var s' := Apply(s, step);
    StepKeepsTransitInv(s, step);
    RetakenWaits(s, step, k, m);
    hide Apply, TransitInv;
    if Waiting(s, m) {
      WaitingIsOwed(s', k, m);
    } else {
      DirectIsClosed(s, k, m);
      DirectIsClosed(s', k, m);
      assert Times(s', k, m) == Times(s, k, m);
    }
  }

  lemma StepKeepsDueIsOwed(s: State, step: Step, k: nat, m: Msg)
    requires TransitInv(s) && k < |s.subs| && DueIsOwed(s, k, m)
    requires Enabled(s, step) && (Retakes(step, k, m.id) ==> !HandedOut(s, m))
    ensures DueIsOwed(Apply(s, step), k, m)
  {
    hide Apply, Enabled, TransitInv, Owed, Due, HandedOut;
    TransitParts(s);
    if step == Publish(m) {
      StepKeepsTransitInv(s, step);
      PublishedWaits(s, m);
      SubsFrame(s, step);
      WaitingIsOwed(Apply(s, step), k, m);
    } else if step == PublishDirect(k, m) {
      DirectArrives(s, k, m);
    } else if Retakes(step, k, m.id) {
      RetakenKeepsDueIsOwed(s, step, k, m);
    } else {
      StepKeepsOwed(s, step, k, m);
      DueSame(s, step, k, m);
    }
  }

  // ----- while m is handed out -----

  lemma SentStays(s: State, step: Step, m: Msg)
    requires Shaped(s) && Enabled(s, step) && m in s.sent
    ensures m in Apply(s, step).sent && Apply(s, step).sent[m] == s.sent[m]
    ensures step != Publish(m)
    ensures step.PublishDirect? ==> step.m != m
  {
    hide Apply;
    if step.Publish? {
      PublishSent(s, step.m);
    } else if step.PublishDirect? {
      PublishDirectSent(s, step.i, step.m);
    } else {
      SentSame(s, step);
    }
    hide Enabled;
  }

  lemma HandedOutStays(s: State, step: Step, m: Msg)
    requires Shaped(s) && Enabled(s, step) && HandedOut(s, m)
    ensures HandedOut(Apply(s, step), m)
  {
    hide Apply;
    SentStays(s, step, m);
    if BrokerStep(step) {
      match step
      case Take => TakePc(s);
      case Lock => LockPc(s);
      case Visit => VisitPc(s);
      case Put => PutPc(s);
      case Finish => FinishPc(s);
    } else {
      OthersLeaveBroker(s, step);
      OthersPub(s, step);
    }
  }

  /** k does not change its subscription to the id of m while m is handed out and may still come to it: the
      broker is in front of k with it, or a fifo subscriber that will relay it. */
  ghost predicate KeepsStill(s: State, step: Step, k: nat, m: Msg)
    requires Shaped(s) && k < |s.subs|
  {
    Retakes(step, k, m.id) ==> !HandedOut(s, m) || !Open(s, k, m)
  }

  /** Later a subscription comes too late, and an unsubscription takes nothing back: not even what is still in
      k's own queue. */
  lemma LateKeepsOwed(s: State, step: Step, k: nat, m: Msg)
    requires TransitInv(s) && k < |s.subs| && Enabled(s, step) && Retakes(step, k, m.id) && !Open(s, k, m)
    ensures Owed(Apply(s, step), k, m) <==> Owed(s, k, m)
  {
    TransitParts(s);
    RetakenWaits(s, step, k, m);
    OpenAfter(s, step, k, m);
    hide Apply, Enabled, TransitInv, Open, Inv;
  }

  lemma HandedOutKeepsOwed(s: State, step: Step, k: nat, m: Msg)
    requires TransitInv(s) && k < |s.subs| && HandedOut(s, m)
    requires Enabled(s, step) && KeepsStill(s, step, k, m)
    ensures HandedOut(Apply(s, step), m) && (Owed(Apply(s, step), k, m) <==> Owed(s, k, m))
  {
    hide Apply, TransitInv, Owed, Open;
    TransitParts(s);
    HandedOutStays(s, step, m);
    SentStays(s, step, m);
    if Retakes(step, k, m.id) {
      LateKeepsOwed(s, step, k, m);
    } else {
      StepKeepsOwed(s, step, k, m);
    }
  }

  // ----- over runs -----

  /** All along a run k keeps still. Other subscribers, and k for other ids, may do as they like. */
  ghost predicate Still(s: State, steps: seq<Step>, k: nat, m: Msg)
    requires Shaped(s) && IsRun(s, steps) && k < |s.subs|
    decreases |steps|
  {
    steps != [] ==> KeepsStill(s, steps[0], k, m) && Still(Apply(s, steps[0]), steps[1..], k, m)
  }

  /** The steps made before the broker starts to hand out m. */
  ghost function UntilHandedOut(s: State, steps: seq<Step>, m: Msg): seq<Step>
    requires Shaped(s) && IsRun(s, steps)
    decreases |steps|
  {
    if steps == [] || HandedOut(s, m) then []
    else [steps[0]] + UntilHandedOut(Apply(s, steps[0]), steps[1..], m)
  }

  lemma {:induction false} RunKeepsOwed(s: State, steps: seq<Step>, k: nat, m: Msg)
    requires TransitInv(s) && k < |s.subs| && HandedOut(s, m) && IsRun(s, steps) && Still(s, steps, k, m)
    ensures var e := Exec(s, steps); TransitInv(e) && |e.subs| == |s.subs| && (Owed(e, k, m) <==> Owed(s, k, m))
    decreases |steps|
  {
    hide Apply, Enabled, MsgTransit, Owed, HandedOut, KeepsStill;
    if steps != [] {
      StepKeepsTransitInv(s, steps[0]);
      HandedOutKeepsOwed(s, steps[0], k, m);
      SubsFrame(s, steps[0]);
      RunKeepsOwed(Apply(s, steps[0]), steps[1..], k, m);
    }
  }

  /** What k is owed in the end was decided before m was handed out. */
  lemma {:induction false} OwedIsIntended(s: State, steps: seq<Step>, k: nat, m: Msg)
    requires TransitInv(s) && k < |s.subs| && DueIsOwed(s, k, m) && IsRun(s, steps) && Still(s, steps, k, m)
    ensures var e := Exec(s, steps);
            && TransitInv(e) && |e.subs| == |s.subs|
            && (Owed(e, k, m) <==> IntendedFor(s, UntilHandedOut(s, steps, m), k, m))
    decreases |steps|
  {
    hide Apply, Enabled, MsgTransit, Owed, Due, HandedOut, IntendedFor, Open;
    if steps == [] {
      IntendedNow(s, k, m);
    } else if HandedOut(s, m) {
      IntendedNow(s, k, m);
      RunKeepsOwed(s, steps, k, m);
    } else {
      StepKeepsTransitInv(s, steps[0]);
      StepKeepsDueIsOwed(s, steps[0], k, m);
      SubsFrame(s, steps[0]);
      var s' := Apply(s, steps[0]);
      OwedIsIntended(s', steps[1..], k, m);
      IntendedRest(s, steps[0], UntilHandedOut(s', steps[1..], m), k, m);
    }
  }

  /** From any state in which the broker has not started to hand out m, over any run: when m has come to
      rest, a subscriber that kept its subscription to the id of m while m was handed out to it has handled
      it exactly once if the steps made before that made m one for it, and otherwise not. */
  lemma EachDueOnce(s: State, steps: seq<Step>, k: nat, m: Msg)
    requires TransitInv(s) && k < |s.subs| && Waiting(s, m) && IsRun(s, steps) && Still(s, steps, k, m)
    requires AtRest(Exec(s, steps), m)
    ensures var e := Exec(s, steps);
            && |e.subs| == |s.subs|
            && Count(e.handled[k], m) == if IntendedFor(s, UntilHandedOut(s, steps, m), k, m) then 1 else 0
  {
    WaitingIsOwed(s, k, m);
    OwedIsIntended(s, steps, k, m);
    OwedIsHandled(Exec(s, steps), k, m);
    hide TransitInv, IntendedFor;
  }

  // ----- when nobody owns it -----

  lemma UnownedIsAtRest(s: State, m: Msg)
    requires Inv(s) && Owners(s, m) == 0
    ensures AtRest(s, m)
  {
    if InUse(s, m) { NoUseAfterFree(s, m); }
  }

  /** Nobody owns m: then each subscriber it was meant for has handled it exactly once, and nobody else. */
  lemma UnownedIsHandled(s: State, k: nat, m: Msg)
    requires TransitInv(s) && k < |s.subs| && DueIsOwed(s, k, m) && Owners(s, m) == 0
    ensures Count(s.handled[k], m) == if Due(s, k, m) then 1 else 0
  {
    TransitParts(s);
    UnownedIsAtRest(s, m);
    OwedIsHandled(s, k, m);
    hide TransitInv;
  }

  lemma DyingIsUnowned(s: State, m: Msg)
    requires TransitInv(s) && Enabled(s, Free(m))
    ensures Owners(s, m) == 0
  {
    TransitParts(s);
    assert MsgInv(s, m);
    hide TransitInv, Owners;
  }

  /** In every run: the block of a message is freed only after all deliveries of it. */
  lemma FreedIsDelivered(subs: seq<Sub>, pool: set<Block>, steps: seq<Step>, m: Msg, k: nat)
    requires ValidSubs(subs) && IsRun(Init(subs, pool), steps) && k < |subs|
    requires Still(Init(subs, pool), steps, k, m)
    requires Enabled(Exec(Init(subs, pool), steps), Free(m))
    ensures var s0 := Init(subs, pool);
            var e := Exec(s0, steps);
            && |e.subs| == |subs|
            && Count(e.handled[k], m) == if IntendedFor(s0, UntilHandedOut(s0, steps, m), k, m) then 1 else 0
  {
    var s0 := Init(subs, pool);
    InitTransitInv(subs, pool);
    WaitingIsOwed(s0, k, m);
    hide TransitInv, DueIsOwed, IsRun, Exec, Still, ValidSubs, IntendedFor, UntilHandedOut;
    OwedIsIntended(s0, steps, k, m);
    hide Init;
    var e := Exec(s0, steps);
    DyingIsUnowned(e, m);
    TransitParts(e);
    UnownedIsAtRest(e, m);
    OwedIsHandled(e, k, m);
  }
}
