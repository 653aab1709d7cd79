/** What every subscriber receives, over whole runs with fixed subscriptions: at most once, in publish
    order (per id for fifo subscribers), higher priority first. */
module Delivery {
  import opened Types
  import opened Protocol
  import opened Frames
  import opened RefCount
  import opened RefSafety
  import opened Logs
  import opened Order

  // ----- published once -----

  ghost predicate SentBroker(s: State, m: Msg) {
    m in s.sent && s.sent[m] == ToBroker
  }

  ghost predicate SentDirect(s: State, i: nat, m: Msg) {
    m in s.sent && s.sent[m] == Direct(i)
  }

  ghost predicate SentInv(s: State, m: Msg)
    requires Shaped(s)
  {
    && Count(Published(s), m) == (if SentBroker(s, m) then 1 else 0)
    && (forall i :: 0 <= i < |s.subs| ==>
          Count(s.direct[i], m) == if SentDirect(s, i, m) then 1 else 0)
  }

  /** A running handler of a queueing subscriber was called with the last message of its log. */
  ghost predicate HandlingInv(s: State, i: nat)
    requires Shaped(s) && i < |s.subs|
  {
    s.poll[i].Handling? ==> s.handled[i] != [] && s.handled[i][|s.handled[i]| - 1] == s.poll[i].m
  }

  ghost predicate DeliveryInv(s: State) {
    && OrderInv(s)
    && (forall m :: SentInv(s, m))
    && (forall i :: 0 <= i < |s.subs| ==> HandlingInv(s, i))
  }

  lemma {:induction false} CountConcat(a: seq<Msg>, b: seq<Msg>, m: Msg)
    ensures Count(a + b, m) == Count(a, m) + Count(b, m)
  {
    if b == [] {
      assert a + b == a;
    } else {
      var last := |b| - 1;
      assert a + b == (a + b[..last]) + [b[last]];
      CountAppend(a + b[..last], b[last], m);
      CountConcat(a, b[..last], m);
    }
  }

  lemma {:induction false} CountSel(ids: set<nat>, log: seq<Msg>, m: Msg)
    ensures Count(Sel(ids, log), m) == if m.id in ids then Count(log, m) else 0
  {
    if log != [] {
      var last := |log| - 1;
      CountSel(ids, log[..last], m);
      CountConcat(Sel(ids, log[..last]), if log[last].id in ids then [log[last]] else [], m);
    }
  }

  lemma {:induction false} CountIn(log: seq<Msg>, m: Msg)
    ensures Count(log, m) > 0 <==> m in log
  {
    if log != [] {
      assert log == log[..|log| - 1] + [log[|log| - 1]];
      CountIn(log[..|log| - 1], m);
    }
  }

  lemma CountPrefix(a: seq<Msg>, b: seq<Msg>, m: Msg)
    requires a <= b
    ensures Count(a, m) <= Count(b, m)
  {
    assert b == a + b[|a|..];
    CountConcat(a, b[|a|..], m);
  }

  lemma SelPrefix(ids: set<nat>, a: seq<Msg>, b: seq<Msg>)
    requires a <= b
    ensures Sel(ids, a) <= Sel(ids, b)
  {
    assert b == a + b[|a|..];
    SelConcat(ids, a, b[|a|..]);
  }

  // ----- the invariant over runs -----

  lemma PublishSends(s: State, k: Msg)
    requires Shaped(s) && Enabled(s, Publish(k))
    ensures var s' := Apply(s, Publish(k));
            && k !in s.sent && s'.sent == s.sent[k := ToBroker] && s'.direct == s.direct
            && Published(s') == Published(s) + [k]
  {
    PublishFrame(s, k);
    PublishSent(s, k);
    hide Apply, Enabled;
  }

  lemma PublishKeepsSentInv(s: State, k: Msg, m: Msg)
    requires Shaped(s) && SentInv(s, m) && Enabled(s, Publish(k))
    ensures SentInv(Apply(s, Publish(k)), m)
  {
    hide Apply, Enabled, Published;
    var s' := Apply(s, Publish(k));
    PublishSends(s, k);
    CountAppend(Published(s), k, m);
    forall i | 0 <= i < |s'.subs|
      ensures Count(s'.direct[i], m) == if SentDirect(s', i, m) then 1 else 0
    {
      assert SentDirect(s', i, m) <==> SentDirect(s, i, m);
    }
  }

  lemma PublishDirectSends(s: State, i: nat, k: Msg)
    requires Shaped(s) && Enabled(s, PublishDirect(i, k))
    ensures var s' := Apply(s, PublishDirect(i, k));
            && k !in s.sent && s'.sent == s.sent[k := Direct(i)] && i < |s.subs|
            && s'.direct == s.direct[i := s.direct[i] + [k]] && Published(s') == Published(s)
  {
    PublishDirectFrame(s, i, k);
    PublishDirectSent(s, i, k);
    hide Apply;
  }

  lemma PublishDirectKeepsSentInv(s: State, i: nat, k: Msg, m: Msg)
    requires Shaped(s) && SentInv(s, m) && Enabled(s, PublishDirect(i, k))
    ensures SentInv(Apply(s, PublishDirect(i, k)), m)
  {
    hide Apply, Enabled, Published;
    var s' := Apply(s, PublishDirect(i, k));
    PublishDirectSends(s, i, k);
    CountAppend(s.direct[i], k, m);
    forall j | 0 <= j < |s'.subs|
      ensures Count(s'.direct[j], m) == if SentDirect(s', j, m) then 1 else 0
    {
      assert j != i || k != m ==> (SentDirect(s', j, m) <==> SentDirect(s, j, m));
    }
  }

  lemma SentSame(s: State, step: Step)
    requires Shaped(s) && Enabled(s, step) && !step.Publish? && !step.PublishDirect?
    ensures Apply(s, step).sent == s.sent
  {
    hide Apply, Enabled;
    if BrokerStep(step) {
      BrokerFrame(s, step);
    } else if PollerStep(step) {
      PollerFrame(s, step);
    } else {
      AppFrame(s, step);
    }
  }

  lemma PublishedSame(s: State, step: Step)
    requires Shaped(s) && Enabled(s, step) && !step.Publish?
    ensures Published(Apply(s, step)) == Published(s)
  {
    hide Apply;
    if BrokerStep(step) {
      match step
      case Take => TakePc(s);
      case Lock => LockPc(s);
      case Visit => VisitPc(s);
      case Put => PutPc(s);
      case Finish => FinishPc(s);
    } else if PollerStep(step) {
      PollerFrame(s, step);
    } else {
      AppFrame(s, step);
      if step.PublishDirect? { PublishDirectFrame(s, step.i, step.m); }
    }
  }

  lemma StepKeepsSentInv(s: State, step: Step, m: Msg)
    requires Shaped(s) && SentInv(s, m) && Enabled(s, step)
    requires !step.Publish? && !step.PublishDirect?
    ensures SentInv(Apply(s, step), m)
  {
    hide Apply, Enabled, Published;
    var s' := Apply(s, step);
    SentSame(s, step);
    DirectKept(s, step);
    PublishedSame(s, step);
    forall i | 0 <= i < |s'.subs|
      ensures Count(s'.direct[i], m) == if SentDirect(s', i, m) then 1 else 0
    {
      assert SentDirect(s', i, m) <==> SentDirect(s, i, m);
    }
  }

  /** How the pc of a polling thread changes: only by its own steps. */
  lemma PollAfter(s: State, step: Step, i: nat)
    requires Shaped(s) && Enabled(s, step) && i < |s.subs|
    ensures Apply(s, step).poll[i] != s.poll[i] ==> PollerStep(step) && step.i == i
  {
    hide Apply, Enabled;
    if BrokerStep(step) {
      BrokerFrame(s, step);
    } else if PollerStep(step) {
      PollerFrame(s, step);
    } else {
      AppFrame(s, step);
    }
  }

  lemma HandlerCallSetsPoll(s: State, step: Step, i: nat)
    requires Shaped(s) && Enabled(s, step) && i < |s.subs| && !s.poll[i].Handling?
    ensures Apply(s, step).poll[i].Handling? ==>
              HandlerCall(s, step) == Some(At(i, Apply(s, step).poll[i].m))
  {
    hide Apply, NextWanting;
    PollAfter(s, step, i);
    if PollerStep(step) && step.i == i {
      match step
      case PollGet(_) => PollGetPc(s, i);
      case RelayLock(_) => RelayLockPc(s, i);
      case RelayPut(_) => RelayPutPc(s, i);
      case Return(_) => ReturnPc(s, i);
    }
    hide Enabled;
  }

  lemma HandlerGoesOn(s: State, step: Step, i: nat)
    requires Shaped(s) && Enabled(s, step) && i < |s.subs| && s.poll[i].Handling?
    ensures Apply(s, step).poll[i].Handling? ==> Apply(s, step).poll[i] == s.poll[i]
  {
    PollAfter(s, step, i);
    if step == Return(i) { ReturnPc(s, i); }
    hide Apply;
  }

  lemma HandlerBusy(s: State, step: Step, i: nat)
    requires Shaped(s) && PcInv(s) && Enabled(s, step) && i < |s.subs| && s.poll[i].Handling?
    ensures HandlerCall(s, step).Some? ==> HandlerCall(s, step).value.i != i
  {
    assert PollInv(s, i);
  }

  lemma StepKeepsHandlingInv(s: State, step: Step, i: nat)
    requires Shaped(s) && PcInv(s) && Current(s) && Enabled(s, step) && i < |s.subs| && HandlingInv(s, i)
    ensures HandlingInv(Apply(s, step), i)
  {
    hide Apply, PcInv;
    StepLogs(s, step, i);
    if s.poll[i].Handling? {
      HandlerBusy(s, step, i);
      HandlerGoesOn(s, step, i);
    } else {
      HandlerCallSetsPoll(s, step, i);
    }
  }

  lemma StepKeepsDeliveryInv(s: State, step: Step)
    requires DeliveryInv(s) && Enabled(s, step) && !Resubscribes(step)
    ensures DeliveryInv(Apply(s, step))
  {
    hide Apply, FirstFed, ChainFed, SubOrd, RefInv;
    StepKeepsOrderInv(s, step);
    forall m ensures SentInv(Apply(s, step), m) {
      assert SentInv(s, m);
      match step
      case Publish(k) => PublishKeepsSentInv(s, k, m);
      case PublishDirect(i, k) => PublishDirectKeepsSentInv(s, i, k, m);
      case _ => StepKeepsSentInv(s, step, m);
    }
    forall i | 0 <= i < |s.subs| ensures HandlingInv(Apply(s, step), i) {
      assert HandlingInv(s, i);
      StepKeepsHandlingInv(s, step, i);
    }
  }

  lemma InitDeliveryInv(subs: seq<Sub>, pool: set<Block>)
    requires ValidSubs(subs)
    ensures DeliveryInv(Init(subs, pool))
  {
    InitInv(subs, pool);
  }

  /** No subscription changes while the run lasts. */
  ghost predicate FixedSubscriptions(steps: seq<Step>) {
    forall k :: 0 <= k < |steps| ==> !Resubscribes(steps[k])
  }

  lemma {:induction false} RunKeepsDeliveryInv(s: State, steps: seq<Step>)
    requires DeliveryInv(s) && IsRun(s, steps) && FixedSubscriptions(steps)
    ensures DeliveryInv(Exec(s, steps)) && Exec(s, steps).subs == s.subs
    decreases |steps|
  {
    if steps != [] {
      StepKeepsDeliveryInv(s, steps[0]);
      StepKeepsSubs(s, steps[0]);
      RunKeepsDeliveryInv(Apply(s, steps[0]), steps[1..]);
    }
  }

  // ----- order -----

  /** Every fifo subscriber before i takes all of `ids` or none of them. */
  ghost predicate Uniform(subs: seq<Sub>, i: nat, ids: set<nat>)
    requires i <= |subs|
  {
    forall k :: 0 <= k < i && subs[k].rxType == Fifo ==> TakesAll(subs[k], ids) || TakesNone(subs[k], ids)
  }

  /** The nearest fifo subscriber before `i` that takes some of `ids`, or -1. */
  ghost function Feeder(subs: seq<Sub>, i: nat, ids: set<nat>): (p: int)
    requires i <= |subs|
    ensures -1 <= p < i
    ensures p >= 0 ==> subs[p].rxType == Fifo && !TakesNone(subs[p], ids)
    ensures forall k :: p < k < i && subs[k].rxType == Fifo ==> TakesNone(subs[k], ids)
  {
    if i == 0 then -1
    else if subs[i - 1].rxType == Fifo && !TakesNone(subs[i - 1], ids) then i - 1
    else Feeder(subs, i - 1, ids)
  }

  lemma FeederIsAdjacent(subs: seq<Sub>, i: nat, ids: set<nat>)
    requires ValidSubs(subs) && i < |subs| && subs[i].rxType == Fifo && TakesAll(subs[i], ids)
    requires Uniform(subs, i, ids)
    ensures var p := Feeder(subs, i, ids);
            if p < 0 then First(subs, i, ids)
            else Adjacent(subs, p, i, ids) && subs[p].rxType == Fifo && Uniform(subs, p, ids)
  {
    var p := Feeder(subs, i, ids);
    if p >= 0 {
      forall k | p < k < i ensures TakesNone(subs[k], ids) {
        AfterFifo(subs, p, k);
      }
    }
  }

  lemma HandledFirst(s: State, i: nat, ids: set<nat>)
    requires Shaped(s) && i < |s.subs|
    ensures Sel(ids, s.handled[i]) <= Sel(ids, Arrived(s, i))
  {
    assert s.handled[i] <= Arrived(s, i);
    SelPrefix(ids, s.handled[i], Arrived(s, i));
  }

  /** Where the ids of a fifo subscriber enter the chain: what arrived is what the broker passed by
      some fifo subscriber at or before it. */
  lemma {:induction false} FifoFed(s: State, i: nat, ids: set<nat>) returns (f: nat)
    requires OrderInv(s) && i < |s.subs| && s.subs[i].rxType == Fifo
    requires TakesAll(s.subs[i], ids) && Uniform(s.subs, i, ids)
    ensures f <= i && s.subs[f].rxType == Fifo
    ensures Sel(ids, Arrived(s, i)) <= Sel(ids, Passed(s, f))
    decreases i
  {
    var p := Feeder(s.subs, i, ids);
    FeederIsAdjacent(s.subs, i, ids);
    if p < 0 {
      f := i;
      assert FirstFed(s, i, ids);
    } else {
      f := FifoFed(s, p, ids);
      assert ChainFed(s, p, i, ids);
      HandledFirst(s, p, ids);
    }
  }

  /** Between two fifo subscribers for x, the later only ever has what the earlier has relayed. */
  lemma {:induction false} FifoBehind(s: State, i: nat, j: nat, x: nat)
    requires OrderInv(s) && i < j < |s.subs| && s.subs[i].rxType == Fifo
    requires s.subs[i].Wants(x) && s.subs[j].Wants(x)
    ensures Sel({x}, Arrived(s, j)) <= Sel({x}, s.handled[i])
    decreases j
  {
    AfterFifo(s.subs, i, j);
    var p := Feeder(s.subs, j, {x});
    FeederIsAdjacent(s.subs, j, {x});
    assert !TakesNone(s.subs[i], {x});
    assert ChainFed(s, p, j, {x});
    if p > i {
      FifoBehind(s, i, p, x);
      HandledFirst(s, p, {x});
    }
  }

  lemma PassedIsPublished(s: State, k: nat, ids: set<nat>)
    ensures Sel(ids, Passed(s, k)) <= Sel(ids, s.taken) <= Sel(ids, Published(s))
  {
    SelPrefix(ids, Passed(s, k), s.taken);
    SelPrefix(ids, s.taken, Published(s));
  }

  /** Callback and msgq subscribers handle a prefix of what they subscribe to, in publish order. */
  lemma BrokerFedOrder(s: State, i: nat)
    requires DeliveryInv(s) && i < |s.subs| && s.subs[i].rxType != Fifo
    ensures Sel(s.subs[i].Wanted(), s.handled[i]) <= Sel(s.subs[i].Wanted(), Published(s))
  {
    assert SubOrd(s, i);
    HandledFirst(s, i, s.subs[i].Wanted());
    PassedIsPublished(s, i, s.subs[i].Wanted());
  }

  /** A fifo subscriber handles a prefix of the messages of `ids`, in publish order, whenever each
      earlier fifo subscriber takes all or none of `ids`; in particular for each single id. */
  lemma FifoOrder(s: State, i: nat, ids: set<nat>)
    requires DeliveryInv(s) && i < |s.subs| && s.subs[i].rxType == Fifo
    requires TakesAll(s.subs[i], ids) && Uniform(s.subs, i, ids)
    ensures Sel(ids, s.handled[i]) <= Sel(ids, Arrived(s, i)) <= Sel(ids, s.taken) <= Sel(ids, Published(s))
  {
    var f := FifoFed(s, i, ids);
    HandledFirst(s, i, ids);
    PassedIsPublished(s, f, ids);
  }

  /** Messages published directly to a subscriber are handled in that order. */
  lemma DirectOrder(s: State, i: nat)
    requires DeliveryInv(s) && i < |s.subs|
    ensures Sel(PrivateIds(s.subs[i]), s.handled[i]) <= s.direct[i]
  {
    assert SubOrd(s, i);
    HandledFirst(s, i, PrivateIds(s.subs[i]));
  }

  // ----- at most once -----

  /** Is subscriber i meant to receive m? */
  ghost predicate Due(s: State, i: nat, m: Msg)
    requires i < |s.subs|
  {
    (SentBroker(s, m) && s.subs[i].Wants(m.id)) || SentDirect(s, i, m)
  }

  /** A message reaches a subscriber at most once, and only if it is meant for it. */
  lemma ArrivesAtMostOnce(s: State, i: nat, m: Msg)
    requires DeliveryInv(s) && i < |s.subs|
    ensures Count(Arrived(s, i), m) <= if Due(s, i, m) then 1 else 0
  {
    assert SubOrd(s, i) && SentInv(s, m);
    CountIn(Arrived(s, i), m);
    var log := Arrived(s, i);
    if m in log {
      if s.subs[i].Wants(m.id) {
        var ids := if s.subs[i].rxType == Fifo then {m.id} else s.subs[i].Wanted();
        if s.subs[i].rxType == Fifo {
          FifoOrder(s, i, ids);
        } else {
          PassedIsPublished(s, i, ids);
        }
        CountSel(ids, log, m);
        CountSel(ids, Published(s), m);
        CountPrefix(Sel(ids, log), Sel(ids, Published(s)), m);
      } else {
        assert IsPrivate(s.subs[i], m.id);
        CountSel(PrivateIds(s.subs[i]), log, m);
      }
    }
  }

  /** The handler of a subscriber is called at most once with a message. */
  lemma HandledAtMostOnce(s: State, i: nat, m: Msg)
    requires DeliveryInv(s) && i < |s.subs|
    ensures Count(s.handled[i], m) <= if Due(s, i, m) then 1 else 0
  {
    ArrivesAtMostOnce(s, i, m);
    CountPrefix(s.handled[i], Arrived(s, i), m);
  }

  // ----- priority -----

  lemma PassedEarlier(s: State, i: nat, j: nat)
    requires i <= j
    ensures Passed(s, j) <= Passed(s, i)
  {
  }

  /** A published message is at a later subscriber only after every earlier one that takes it has
      got it, and, when the earlier one is a fifo subscriber, has relayed it. */
  lemma EarlierFirst(s: State, i: nat, j: nat, m: Msg)
    requires DeliveryInv(s) && i < j < |s.subs|
    requires s.subs[i].Wants(m.id) && s.subs[j].Wants(m.id) && m in Arrived(s, j)
    ensures m in Arrived(s, i)
    ensures s.subs[i].rxType == Fifo ==> m in s.handled[i]
  {
    SelIn({m.id}, Arrived(s, j), m);
    if s.subs[i].rxType == Fifo {
      FifoBehind(s, i, j, m.id);
      SelIn({m.id}, s.handled[i], m);
    } else {
      var k := j;
      if s.subs[j].rxType == Fifo {
        k := FifoFed(s, j, {m.id});
        if k < i { AfterFifo(s.subs, k, i); }
        SelIn({m.id}, Passed(s, k), m);
      } else {
        assert SubOrd(s, j);
        SelIn(s.subs[j].Wanted(), Arrived(s, j), m);
        SelIn(s.subs[j].Wanted(), Passed(s, j), m);
      }
      PassedEarlier(s, i, k);
      assert SubOrd(s, i);
      SelIn(s.subs[i].Wanted(), Passed(s, i), m);
      SelIn(s.subs[i].Wanted(), Arrived(s, i), m);
    }
  }

  lemma ArrivedParts(s: State, i: nat, m: Msg)
    requires Shaped(s) && i < |s.subs|
    ensures Count(Arrived(s, i), m)
         == Count(s.handled[i], m) + Count(Pre(s.poll[i]), m) + Count(s.q[i], m)
  {
    CountConcat(s.handled[i] + Pre(s.poll[i]), s.q[i], m);
    CountConcat(s.handled[i], Pre(s.poll[i]), m);
  }
}
