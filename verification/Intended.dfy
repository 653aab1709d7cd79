/** Who a message is meant for, read off the steps of a run: who has subscribed to its id last, and how it
    was published. */
module Intended {
  import opened Protocol
  import opened Frames
  import opened Order
  import opened Delivery
  import B = Subscriptions

  // ----- subscriptions -----

  /** Subscriber i takes id after the steps, and `before` says whether it did at first: the last step that
      subscribed it to id or unsubscribed it from id was a subscription, or there was none and it did. */
  ghost predicate LastSubscribes(before: bool, steps: seq<Step>, i: nat, id: nat) {
    || (exists k :: 0 <= k < |steps| && steps[k] == Subscribe(i, id) &&
                    forall j :: k < j < |steps| ==> steps[j] != Unsubscribe(i, id))
    || (before && forall j :: 0 <= j < |steps| ==> steps[j] != Unsubscribe(i, id))
  }

  lemma LastOfRest(before: bool, steps: seq<Step>, i: nat, id: nat)
    requires steps != []
    ensures var b := steps[0] == Subscribe(i, id) || (before && steps[0] != Unsubscribe(i, id));
            LastSubscribes(before, steps, i, id) <==> LastSubscribes(b, steps[1..], i, id)
  {
    var rest := steps[1..];
    assert forall j :: 0 < j < |steps| ==> steps[j] == rest[j - 1];
    assert forall j :: 0 <= j < |rest| ==> rest[j] == steps[j + 1];
    if k :| 0 <= k < |rest| && rest[k] == Subscribe(i, id) &&
            (forall j :: k < j < |rest| ==> rest[j] != Unsubscribe(i, id)) {
      assert steps[k + 1] == rest[k];
    }
    if k :| 0 <= k < |steps| && steps[k] == Subscribe(i, id) &&
            (forall j :: k < j < |steps| ==> steps[j] != Unsubscribe(i, id)) {
      if k > 0 { assert rest[k - 1] == steps[k]; }
    }
  }

  lemma SubscribedSame(s: State, step: Step, i: nat)
    requires Shaped(s) && Enabled(s, step) && i < |s.subs|
    requires !(Resubscribes(step) && step.i == i)
    ensures Apply(s, step).subs[i].subscribed == s.subs[i].subscribed
  {
    if !step.Subscribe? && !step.Unsubscribe? {
      SubsFrame(s, step);
      hide Apply, Enabled;
    }
  }

  lemma StepSubscribes(s: State, step: Step, i: nat, id: nat)
    requires Shaped(s) && Enabled(s, step) && i < |s.subs|
    ensures id in Apply(s, step).subs[i].subscribed <==>
              step == Subscribe(i, id) || (id in s.subs[i].subscribed && step != Unsubscribe(i, id))
  {
    if !(Resubscribes(step) && step.i == i) {
      SubscribedSame(s, step, i);
      hide Apply, Enabled;
    }
  }

  /** In every run of all threads a subscriber takes an id exactly when its last subscription step for the
      id was a subscription. */
  lemma {:induction false} SubscribedIff(s: State, steps: seq<Step>, i: nat, id: nat)
    requires Shaped(s) && IsRun(s, steps) && i < |s.subs|
    ensures var e := Exec(s, steps);
            && |e.subs| == |s.subs|
            && (id in e.subs[i].subscribed <==> LastSubscribes(id in s.subs[i].subscribed, steps, i, id))
    decreases |steps|
  {
    hide Apply, Enabled, LastSubscribes;
    if steps != [] {
      StepSubscribes(s, steps[0], i, id);
      SubscribedIff(Apply(s, steps[0]), steps[1..], i, id);
      LastOfRest(id in s.subs[i].subscribed, steps, i, id);
    } else {
      NoneTaken(id in s.subs[i].subscribed, i, id);
    }
  }

  lemma NoneTaken(before: bool, i: nat, id: nat)
    ensures LastSubscribes(before, [], i, id) <==> before
  {
  }

  /** What the steps of a run do to the bit array of subscriber i. */
  function OpsOf(steps: seq<Step>, i: nat): seq<B.Op> {
    if steps == [] then []
    else
      var rest := OpsOf(steps[1..], i);
      match steps[0]
      case Subscribe(k, id) => if k == i then [B.Subscribe(id)] + rest else rest
      case Unsubscribe(k, id) => if k == i then [B.Unsubscribe(id)] + rest else rest
      case _ => rest
  }

  lemma {:induction false} WantedFirst(ids: set<nat>, op: B.Op, rest: seq<B.Op>)
    ensures B.Wanted(ids, [op] + rest) ==
              B.Wanted(if op.Subscribe? then ids + {op.id} else ids - {op.id}, rest)
  {
    var ops := [op] + rest;
    if rest == [] {
      assert ops[..0] == [];
    } else {
      assert ops[..|ops| - 1] == [op] + rest[..|rest| - 1];
      WantedFirst(ids, op, rest[..|rest| - 1]);
    }
  }

  /** In every run the subscriptions of a subscriber are what its bit array stands for after the same
      operations. */
  lemma {:induction false} RunFillsBits(s: State, steps: seq<Step>, i: nat)
    requires Shaped(s) && IsRun(s, steps) && i < |s.subs|
    ensures var e := Exec(s, steps);
            && |e.subs| == |s.subs|
            && e.subs[i].subscribed == B.Wanted(s.subs[i].subscribed, OpsOf(steps, i))
    decreases |steps|
  {
    hide Apply, Enabled, B.Wanted;
    if steps == [] {
      NoOps(s.subs[i].subscribed);
    } else {
      var s', op := Apply(s, steps[0]), steps[0];
      RunFillsBits(s', steps[1..], i);
      forall id ensures id in s'.subs[i].subscribed <==>
                          op == Subscribe(i, id) || (id in s.subs[i].subscribed && op != Unsubscribe(i, id))
      {
        StepSubscribes(s, op, i, id);
      }
      if Resubscribes(op) && op.i == i {
        var bit := if op.Subscribe? then B.Subscribe(op.id) else B.Unsubscribe(op.id);
        WantedFirst(s.subs[i].subscribed, bit, OpsOf(steps[1..], i));
        assert s'.subs[i].subscribed ==
          if op.Subscribe? then s.subs[i].subscribed + {op.id} else s.subs[i].subscribed - {op.id};
      } else {
        assert s'.subs[i].subscribed == s.subs[i].subscribed;
      }
    }
  }

  lemma NoOps(ids: set<nat>)
    ensures B.Wanted(ids, []) == ids
  {
  }

  /** Nothing else about a subscriber ever changes. */
  lemma {:induction false} RunKeepsSubs(s: State, steps: seq<Step>)
    requires Shaped(s) && IsRun(s, steps)
    ensures SubsKept(s, Exec(s, steps))
    decreases |steps|
  {
    hide Apply, Enabled;
    if steps != [] {
      SubsFrame(s, steps[0]);
      RunKeepsSubs(Apply(s, steps[0]), steps[1..]);
    }
  }

  /** Subscriber i with other subscriptions. */
  ghost function WithIds(s: State, i: nat, ids: set<nat>): (s': State)
    requires Shaped(s) && i < |s.subs|
    ensures Shaped(s')
  {
    s.(subs := s.subs[i := s.subs[i].(subscribed := ids)])
  }

  /** The ids that one of two sets has and the other has not. */
  function Differing(a: set<nat>, b: set<nat>): set<nat> {
    (a - b) + (b - a)
  }

  ghost predicate MayChange(s: State, i: nat, id: nat)
    requires Shaped(s)
  {
    Enabled(s, Subscribe(i, id)) && Enabled(s, Unsubscribe(i, id))
  }

  lemma OneLessDiffers(s: State, i: nat, ids: set<nat>, id: nat) returns (step: Step)
    requires Shaped(s) && i < |s.subs| && id <= s.subs[i].maxPub && id in Differing(ids, s.subs[i].subscribed)
    ensures Enabled(s, step)
    ensures var s' := Apply(s, step);
            && s' == WithIds(s, i, s'.subs[i].subscribed)
            && Differing(ids, s'.subs[i].subscribed) == Differing(ids, s.subs[i].subscribed) - {id}
  {
    step := if id in ids then Subscribe(i, id) else Unsubscribe(i, id);
  }

  /** At any time a subscriber may go from any subscriptions to any others, and nothing but them changes. */
  lemma {:induction false} Resubscribed(s: State, i: nat, ids: set<nat>) returns (steps: seq<Step>)
    requires Shaped(s) && i < |s.subs|
    requires forall id :: id in Differing(ids, s.subs[i].subscribed) ==> id <= s.subs[i].maxPub
    ensures IsRun(s, steps) && Exec(s, steps) == WithIds(s, i, ids)
    ensures forall id: nat :: id <= s.subs[i].maxPub ==> MayChange(s, i, id)
    decreases Differing(ids, s.subs[i].subscribed)
  {
    assert forall id: nat :: id <= s.subs[i].maxPub ==> MayChange(s, i, id);
    hide MayChange;
    if Differing(ids, s.subs[i].subscribed) == {} {
      assert forall id :: id in ids <==> id in s.subs[i].subscribed by {
        assert forall id :: id !in Differing(ids, s.subs[i].subscribed);
      }
      assert ids == s.subs[i].subscribed;
      steps := [];
    } else {
      var id :| id in Differing(ids, s.subs[i].subscribed);
      var step := OneLessDiffers(s, i, ids, id);
      hide Apply, Enabled;
      var rest := Resubscribed(Apply(s, step), i, ids);
      steps := [step] + rest;
      assert steps[1..] == rest;
    }
  }

  // ----- publication -----

  lemma StepSends(s: State, step: Step, i: nat, m: Msg)
    requires Shaped(s) && Enabled(s, step)
    ensures var s' := Apply(s, step);
            && (SentBroker(s', m) <==> SentBroker(s, m) || step == Publish(m))
            && (SentDirect(s', i, m) <==> SentDirect(s, i, m) || step == PublishDirect(i, m))
  {
    hide Apply;
    if step.Publish? {
      PublishSent(s, step.m);
    } else if step.PublishDirect? {
      PublishDirectSent(s, step.i, step.m);
    } else {
      SentSame(s, step);
    }
    hide Enabled;
  }

  /** In every run the messages published, to the broker and to each subscriber, are those that somebody has
      published there. */
  lemma {:induction false} SentIff(s: State, steps: seq<Step>, i: nat, m: Msg)
    requires Shaped(s) && IsRun(s, steps)
    ensures SentBroker(Exec(s, steps), m) <==> SentBroker(s, m) || Publish(m) in steps
    ensures SentDirect(Exec(s, steps), i, m) <==> SentDirect(s, i, m) || PublishDirect(i, m) in steps
    decreases |steps|
  {
    hide Apply, Enabled, SentBroker, SentDirect;
    if steps != [] {
      StepSends(s, steps[0], i, m);
      SentIff(Apply(s, steps[0]), steps[1..], i, m);
      assert steps == [steps[0]] + steps[1..];
    }
  }

  // ----- both -----

  /** After the steps m is intended for subscriber i: it has been published to the broker, its id is within
      range for i, and i has last subscribed to it; or it has been published to i. */
  ghost predicate IntendedFor(s: State, steps: seq<Step>, i: nat, m: Msg)
    requires i < |s.subs|
  {
    || ((SentBroker(s, m) || Publish(m) in steps) && m.id <= s.subs[i].maxPub
        && LastSubscribes(m.id in s.subs[i].subscribed, steps, i, m.id))
    || SentDirect(s, i, m) || PublishDirect(i, m) in steps
  }

  /** It has the state's own publications and subscriptions for a start ... */
  lemma IntendedNow(s: State, i: nat, m: Msg)
    requires i < |s.subs|
    ensures IntendedFor(s, [], i, m) <==> Due(s, i, m)
  {
  }

  /** ... and goes on from what the first step leaves. */
  lemma IntendedRest(s: State, step: Step, rest: seq<Step>, i: nat, m: Msg)
    requires Shaped(s) && Enabled(s, step) && i < |s.subs|
    ensures IntendedFor(s, [step] + rest, i, m) <==> IntendedFor(Apply(s, step), rest, i, m)
  {
    hide Apply, Enabled, SentBroker, SentDirect, LastSubscribes;
    StepSends(s, step, i, m);
    StepSubscribes(s, step, i, m.id);
    SubsFrame(s, step);
    LastOfRest(m.id in s.subs[i].subscribed, [step] + rest, i, m.id);
    assert ([step] + rest)[1..] == rest;
  }

  /** What is due in a state at the end of a run is what the run has made so. */
  lemma IntendedIsDue(s: State, steps: seq<Step>, i: nat, m: Msg)
    requires Shaped(s) && IsRun(s, steps) && i < |s.subs|
    ensures |Exec(s, steps).subs| == |s.subs| && (Due(Exec(s, steps), i, m) <==> IntendedFor(s, steps, i, m))
  {
    hide SentBroker, SentDirect, LastSubscribes;
    SubscribedIff(s, steps, i, m.id);
    RunKeepsSubs(s, steps);
    SentIff(s, steps, i, m);
    hide Exec, IsRun;
  }
}
