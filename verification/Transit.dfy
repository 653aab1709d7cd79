/** One way through the list: whatever the interleaving, and even while subscriptions change, a message
    moves forward only. So it reaches each subscriber at most once and is in at most one fifo. */
module Transit {
  import opened Types
  import opened Protocol
  import opened Frames
  import opened RefCount
  import opened RefSafety
  import opened Logs
  import opened Order
  import opened Delivery

  /** How often m has arrived at list position k. */
  ghost function Times(s: State, k: nat, m: Msg): nat
    requires Shaped(s) && k < |s.subs|
  {
    Count(Arrived(s, k), m)
  }

  /** The fifo subscriber at i has m queued, or in hand to be relayed. */
  ghost predicate Carries(s: State, i: nat, m: Msg)
    requires Shaped(s) && i < |s.subs|
  {
    s.subs[i].rxType.Fifo? && m in Pre(s.poll[i]) + s.q[i]
  }

  ghost predicate Untouched(s: State, m: Msg)
    requires Shaped(s)
  {
    forall k {:trigger Times(s, k, m)} :: 0 <= k < |s.subs| ==> Times(s, k, m) == 0
  }

  ghost predicate Unpublished(s: State, m: Msg)
    requires Shaped(s)
  {
    m !in s.sent || m in s.pub || s.broker == Taken(m) ==> Untouched(s, m)
  }

  /** A message published to one subscriber is private to it and nowhere else. */
  ghost predicate DirectOnly(s: State, i: nat, m: Msg)
    requires Shaped(s)
  {
    SentDirect(s, i, m) ==>
      && (i < |s.subs| ==> m.id > s.subs[i].maxPub)
      && (forall k {:trigger Times(s, k, m)} :: 0 <= k < |s.subs| && k != i ==> Times(s, k, m) == 0)
  }

  /** The broker's current message is not at any position still to be visited, nor at any fifo. */
  ghost predicate BrokerFront(s: State, m: Msg)
    requires Shaped(s)
  {
    (s.broker.Visiting? || s.broker.Putting?) && s.broker.m == m ==>
      forall k {:trigger Times(s, k, m)} ::
        0 <= k < |s.subs| && (k >= s.broker.pos || s.subs[k].rxType.Fifo?) ==> Times(s, k, m) == 0
  }

  /** A public message carried by a fifo subscriber is at no later position. */
  ghost predicate CarrierFront(s: State, i: nat, m: Msg)
    requires Shaped(s) && i < |s.subs|
  {
    Carries(s, i, m) && m.id <= s.subs[i].maxPub ==>
      forall k {:trigger Times(s, k, m)} :: i < k < |s.subs| ==> Times(s, k, m) == 0
  }

  /** At position k: at most once, and a private message only if it was published to k. */
  ghost predicate Place(s: State, k: nat, m: Msg)
    requires Shaped(s) && k < |s.subs|
  {
    && Times(s, k, m) <= 1
    && (Times(s, k, m) > 0 && m.id > s.subs[k].maxPub ==> SentDirect(s, k, m))
  }

  /** References are acquired for subscribers to which the message is public ... */
  ghost predicate BrokerPublic(s: State)
    requires Shaped(s)
  {
    s.broker.Putting? ==> s.broker.pos < |s.subs| && s.broker.m.id <= s.subs[s.broker.pos].maxPub
  }

  /** ... by a subscriber to which it is public. */
  ghost predicate RelayPublic(s: State, k: nat)
    requires Shaped(s) && k < |s.subs|
  {
    && (s.poll[k].Got? || s.poll[k].Relaying? ==> s.poll[k].m.id <= s.subs[k].maxPub)
    && (s.poll[k].Relaying? ==>
          s.poll[k].next < |s.subs| && s.poll[k].m.id <= s.subs[s.poll[k].next].maxPub)
  }

  ghost predicate MsgTransit(s: State, m: Msg)
    requires Shaped(s)
  {
    && SentInv(s, m) && Unpublished(s, m) && BrokerFront(s, m)
    && (forall i {:trigger SentDirect(s, i, m)} :: DirectOnly(s, i, m))
    && (forall k {:trigger Place(s, k, m)} :: 0 <= k < |s.subs| ==> Place(s, k, m))
    && (forall k {:trigger CarrierFront(s, k, m)} :: 0 <= k < |s.subs| ==> CarrierFront(s, k, m))
  }

  ghost predicate TransitInv(s: State) {
    && Inv(s) && Current(s)
    && BrokerPublic(s)
    && (forall i :: 0 <= i < |s.subs| ==> HandlingInv(s, i) && RelayPublic(s, i))
    && (forall m :: MsgTransit(s, m))
  }

  // ----- what a step does to one message -----

  lemma TimesAfter(s: State, step: Step, k: nat, m: Msg)
    requires Shaped(s) && PcInv(s) && Current(s) && Enabled(s, step) && k < |s.subs|
    ensures Times(Apply(s, step), k, m)
         == Times(s, k, m) + if Arrival(s, step) == Some(At(k, m)) then 1 else 0
  {
    StepLogs(s, step, k);
    CountConcat(Arrived(s, k), Adds(Arrival(s, step), k), m);
    if Arrival(s, step).Some? { CountAppend([], Arrival(s, step).value.m, m); }
    hide Apply, Arrival, Enabled, Arrived, PcInv;
  }

  lemma CarriedIsHere(s: State, i: nat, m: Msg)
    requires Shaped(s) && i < |s.subs| && m in Pre(s.poll[i]) + s.q[i]
    ensures Times(s, i, m) > 0
  {
    CountIn(Arrived(s, i), m);
  }

  lemma BrokersIsSent(s: State, m: Msg)
    requires Shaped(s) && Current(s) && SentInv(s, m) && !s.broker.Idle? && s.broker.m == m
    ensures SentBroker(s, m) && m !in s.pub
  {
    CountIn(s.taken, m);
    CountIn(s.pub, m);
    CountConcat(s.taken, s.pub, m);
  }

  /** A message only arrives where it has not been: it was published to the subscriber just now, or the
      broker holds it, or an earlier fifo subscriber relays it. */
  ghost predicate Source(s: State, step: Step, k: nat, m: Msg)
    requires Shaped(s) && Enabled(s, step) && k < |s.subs|
  {
    match step
    case PublishDirect(_, _) => m !in s.sent && m.id > s.subs[k].maxPub
    case Visit => s.broker == Visiting(m, k) && !s.subs[k].rxType.Fifo? && m.id <= s.subs[k].maxPub
    case Put => s.broker == Putting(m, k)
    case RelayPut(i) => i < k && s.poll[i] == Relaying(m, k) && s.subs[k].rxType.Fifo?
    case _ => false
  }

  lemma ArrivalSource(s: State, step: Step, k: nat, m: Msg)
    requires TransitInv(s) && Enabled(s, step) && Arrival(s, step) == Some(At(k, m))
    ensures k < |s.subs| && Source(s, step, k, m)
  {
    match step
    case PublishDirect(i, x) => IdInMemory(s, x);
    case Visit => BrokerId(s);
    case RelayPut(i) => assert PollInv(s, i);
    case _ =>
  }

  lemma RelayedIsHere(s: State, i: nat, m: Msg)
    requires TransitInv(s) && i < |s.subs| && s.poll[i].Relaying? && s.poll[i].m == m
    ensures Carries(s, i, m) && m.id <= s.subs[i].maxPub && Times(s, i, m) > 0
  {
    assert PollInv(s, i) && RelayPublic(s, i);
    CarriedIsHere(s, i, m);
  }

  lemma ArrivesFresh(s: State, step: Step, k: nat, m: Msg)
    requires TransitInv(s) && Enabled(s, step) && k < |s.subs| && Source(s, step, k, m)
    ensures Times(s, k, m) == 0
  {
    assert MsgTransit(s, m);
    if step.RelayPut? {
      RelayedIsHere(s, step.i, m);
      assert CarrierFront(s, step.i, m);
    }
  }

  // ----- each part is kept -----

  /** Nobody but a first publisher can bring a message to a position while it is unsent. */
  lemma SourceIsSent(s: State, step: Step, k: nat, m: Msg)
    requires TransitInv(s) && Enabled(s, step) && k < |s.subs| && Source(s, step, k, m)
    ensures !step.PublishDirect? ==> SentBroker(s, m) && m !in s.pub && s.broker != Taken(m)
  {
    assert MsgTransit(s, m);
    if step.Visit? || step.Put? {
      BrokersIsSent(s, m);
    } else if step.RelayPut? {
      var j := if m in s.sent && s.sent[m].Direct? then s.sent[m].i else 0;
      assert DirectOnly(s, j, m);
      RelayedIsHere(s, step.i, m);
    }
  }

  lemma BrokerUnpublished(s: State, step: Step, m: Msg)
    requires Shaped(s) && Enabled(s, step) && BrokerStep(step)
    ensures var s' := Apply(s, step);
            m in s'.pub || s'.broker == Taken(m) ==> m in s.pub || s.broker == Taken(m)
  {
    hide Apply;
    match step
    case Take => TakePc(s);
    case Lock => LockPc(s);
    case Visit => VisitPc(s);
    case Put => PutPc(s);
    case Finish => FinishPc(s);
  }

  lemma PublishUnpublished(s: State, step: Step, m: Msg)
    requires Shaped(s) && Enabled(s, step) && (step.Publish? || step.PublishDirect?)
    ensures var s' := Apply(s, step);
            && (m !in s'.sent ==> m !in s.sent)
            && (m in s'.pub ==> m in s.pub || (step.Publish? && m == step.m && m !in s.sent))
            && s'.broker == s.broker
            && (step.PublishDirect? ==> step.m in s'.sent && s'.pub == s.pub)
  {
    if step.Publish? {
      PublishFrame(s, step.m);
      PublishSent(s, step.m);
    } else {
      PublishDirectFrame(s, step.i, step.m);
      PublishDirectSent(s, step.i, step.m);
    }
    hide Apply, Enabled;
  }

  lemma UnpublishedAfter(s: State, step: Step, m: Msg)
    requires Shaped(s) && Enabled(s, step)
    ensures var s' := Apply(s, step);
            m !in s'.sent || m in s'.pub || s'.broker == Taken(m) ==>
              m !in s.sent || m in s.pub || s.broker == Taken(m)
    ensures step.PublishDirect? ==> var s' := Apply(s, step);
            step.m in s'.sent && s'.pub == s.pub && s'.broker == s.broker
  {
    if step.Publish? || step.PublishDirect? {
      PublishUnpublished(s, step, m);
    } else {
      SentSame(s, step);
      if BrokerStep(step) {
        BrokerUnpublished(s, step, m);
      } else if PollerStep(step) {
        PollerFrame(s, step);
      } else {
        AppFrame(s, step);
      }
    }
    hide Apply, Enabled;
  }

  lemma KeepsUnpublished(s: State, step: Step, m: Msg)
    requires TransitInv(s) && Enabled(s, step)
    ensures Unpublished(Apply(s, step), m)
  {
    hide Apply, PcInv, RefInv;
    var s' := Apply(s, step);
    UnpublishedAfter(s, step, m);
    assert MsgTransit(s, m);
    if m !in s'.sent || m in s'.pub || s'.broker == Taken(m) {
      forall k | 0 <= k < |s'.subs| ensures Times(s', k, m) == 0 {
        TimesAfter(s, step, k, m);
        if Arrival(s, step) == Some(At(k, m)) {
          ArrivalSource(s, step, k, m);
          SourceIsSent(s, step, k, m);
          if step.PublishDirect? && !s.broker.Idle? && s.broker.m == m { BrokersIsSent(s, m); }
          if step.PublishDirect? { CountIn(Published(s), m); }
        }
      }
    }
  }

  lemma MaxPubSame(s: State, step: Step, k: nat)
    requires Shaped(s) && Enabled(s, step) && k < |s.subs|
    ensures Apply(s, step).subs[k].maxPub == s.subs[k].maxPub
    ensures Apply(s, step).subs[k].rxType == s.subs[k].rxType
  {
    SubsFrame(s, step);
    hide Apply, Enabled;
  }

  /** What becomes sent directly is what is published directly. */
  lemma SentDirectAfter(s: State, step: Step, i: nat, m: Msg)
    requires Shaped(s) && Enabled(s, step)
    ensures SentDirect(Apply(s, step), i, m) <==>
              SentDirect(s, i, m) || (step.PublishDirect? && step.i == i && step.m == m)
  {
    if step.PublishDirect? {
      PublishDirectSends(s, step.i, step.m);
    } else if step.Publish? {
      PublishSends(s, step.m);
    } else {
      SentSame(s, step);
    }
  }

  lemma KeepsSentInv(s: State, step: Step, m: Msg)
    requires TransitInv(s) && Enabled(s, step)
    ensures SentInv(Apply(s, step), m)
  {
    assert MsgTransit(s, m);
    match step
    case Publish(k) => PublishKeepsSentInv(s, k, m);
    case PublishDirect(i, k) => PublishDirectKeepsSentInv(s, i, k, m);
    case _ => StepKeepsSentInv(s, step, m);
  }

  lemma KeepsDirectOnly(s: State, step: Step, i: nat, m: Msg)
    requires TransitInv(s) && Enabled(s, step)
    ensures DirectOnly(Apply(s, step), i, m)
  {
    hide Apply;
    var s' := Apply(s, step);
    SentDirectAfter(s, step, i, m);
    assert MsgTransit(s, m) && DirectOnly(s, i, m);
    if SentDirect(s', i, m) {
      if !SentDirect(s, i, m) {
        IdInMemory(s, m);
      }
      if i < |s.subs| { MaxPubSame(s, step, i); }
      forall k | 0 <= k < |s'.subs| && k != i ensures Times(s', k, m) == 0 {
        TimesAfter(s, step, k, m);
        if Arrival(s, step) == Some(At(k, m)) {
          ArrivalSource(s, step, k, m);
          SourceIsSent(s, step, k, m);
        }
      }
    }
  }

  lemma KeepsPlace(s: State, step: Step, k: nat, m: Msg)
    requires TransitInv(s) && Enabled(s, step) && k < |s.subs|
    ensures Place(Apply(s, step), k, m)
  {
    hide Apply;
    MaxPubSame(s, step, k);
    TimesAfter(s, step, k, m);
    SentDirectAfter(s, step, k, m);
    assert MsgTransit(s, m) && Place(s, k, m);
    if Arrival(s, step) == Some(At(k, m)) {
      ArrivalSource(s, step, k, m);
      ArrivesFresh(s, step, k, m);
      PrivateArrival(s, step, k, m);
    }
  }

  /** Only direct publishing brings a private message. */
  lemma PrivateArrival(s: State, step: Step, k: nat, m: Msg)
    requires TransitInv(s) && Enabled(s, step) && Arrival(s, step) == Some(At(k, m)) && k < |s.subs|
    ensures m.id > s.subs[k].maxPub ==> step.PublishDirect? && step.i == k && step.m == m
  {
    match step
    case Visit => BrokerId(s);
    case RelayPut(i) => assert RelayPublic(s, i);
    case _ =>
  }

  lemma KeepsBrokerPublic(s: State, step: Step)
    requires TransitInv(s) && Enabled(s, step)
    ensures BrokerPublic(Apply(s, step))
  {
    hide Apply, MsgTransit;
    SubsFrame(s, step);
    if BrokerStep(step) {
      match step
      case Take => TakePc(s);
      case Lock => LockPc(s);
      case Visit => BrokerId(s); VisitPc(s);
      case Put => PutPc(s);
      case Finish => FinishPc(s);
    } else {
      OthersLeaveBroker(s, step);
    }
    hide Enabled, Inv;
  }

  lemma RelayPublicAt(s: State, k: nat)
    requires TransitInv(s) && k < |s.subs|
    ensures Shaped(s) && RelayPublic(s, k)
  {
    hide MsgTransit, PcInv, RefInv;
  }

  lemma RelayPublicSame(s: State, s': State, k: nat)
    requires Shaped(s) && Shaped(s') && SubsKept(s, s') && k < |s.subs| && s'.poll[k] == s.poll[k]
    requires RelayPublic(s, k)
    ensures RelayPublic(s', k)
  {
  }

  lemma KeepsRelayPublic(s: State, step: Step, k: nat)
    requires TransitInv(s) && Enabled(s, step) && k < |s.subs|
    ensures RelayPublic(Apply(s, step), k)
  {
    RelayPublicAt(s, k);
    hide Apply, TransitInv, NextWanting;
    if PollerStep(step) && step.i == k {
      PollerKeepsRelayPublic(s, step, k);
    } else {
      SubsFrame(s, step);
      PollAfter(s, step, k);
      hide Enabled, SubsKept, RelayPublic;
      RelayPublicSame(s, Apply(s, step), k);
    }
  }

  lemma PollerKeepsRelayPublic(s: State, step: Step, k: nat)
    requires TransitInv(s) && k < |s.subs| && RelayPublic(s, k)
    requires Enabled(s, step) && PollerStep(step) && step.i == k
    ensures RelayPublic(Apply(s, step), k)
  {
    hide Apply, MsgTransit, NextWanting;
    PollerFrame(s, step);
    match step {
      case PollGet(_) => QueuedId(s, k); PollGetPc(s, k);
      case RelayLock(_) => PollerId(s, k); RelayLockPc(s, k);
      case RelayPut(_) => RelayPutPc(s, k);
      case Return(_) => ReturnPc(s, k);
    }
    hide Enabled, Inv;
  }

  /** Before: was m untouched at position k, seen from the broker's place in the list? */
  lemma FrontAfter(s: State, step: Step, m: Msg, k: nat)
    requires Shaped(s) && PcInv(s) && Enabled(s, step) && k < |s.subs|
    ensures var b, b' := s.broker, Apply(s, step).broker;
            (b'.Visiting? || b'.Putting?) && b'.m == m && (k >= b'.pos || s.subs[k].rxType.Fifo?) ==>
              || b == Taken(m)
              || ((b.Visiting? || b.Putting?) && b.m == m && (k >= b.pos || s.subs[k].rxType.Fifo?)
                  && (k == b.pos ==> !(step.Visit? && s.subs[k].rxType.Callback? && b' == Visiting(m, k))
                                     && !step.Put?))
  {
    hide Apply;
    if BrokerStep(step) {
      match step
      case Take => TakePc(s);
      case Lock => LockPc(s);
      case Visit => VisitPc(s);
      case Put => PutPc(s);
      case Finish => FinishPc(s);
    } else {
      OthersLeaveBroker(s, step);
    }
    hide PcInv;
  }

  lemma KeepsBrokerFront(s: State, step: Step, m: Msg)
    requires TransitInv(s) && Enabled(s, step)
    ensures BrokerFront(Apply(s, step), m)
  {
    hide Apply, Enabled;
    var s' := Apply(s, step);
    assert MsgTransit(s, m);
    if (s'.broker.Visiting? || s'.broker.Putting?) && s'.broker.m == m {
      forall k | 0 <= k < |s'.subs| && (k >= s'.broker.pos || s'.subs[k].rxType.Fifo?)
        ensures Times(s', k, m) == 0
      {
        MaxPubSame(s, step, k);
        FrontAfter(s, step, m, k);
        TimesAfter(s, step, k, m);
        if Arrival(s, step) == Some(At(k, m)) { NoArrivalAhead(s, step, m, k); }
      }
    }
  }

  /** While the broker stays in the loop with m, m arrives nowhere ahead of it, nor at any fifo. */
  lemma NoArrivalAhead(s: State, step: Step, m: Msg, k: nat)
    requires TransitInv(s) && Enabled(s, step) && Arrival(s, step) == Some(At(k, m)) && k < |s.subs|
    ensures var b' := Apply(s, step).broker;
            (b'.Visiting? || b'.Putting?) && b'.m == m ==> k < b'.pos && !s.subs[k].rxType.Fifo?
  {
    ArrivalSource(s, step, k, m);
    SourceIsSent(s, step, k, m);
    assert MsgTransit(s, m);
    if step.Visit? {
      VisitPc(s);
    } else if step.Put? {
      PutPc(s);
    } else {
      OthersLeaveBroker(s, step);
      if step.PublishDirect? {
        if !s.broker.Idle? && s.broker.m == m { BrokersIsSent(s, m); }
      } else if step.RelayPut? {
        RelayedIsHere(s, step.i, m);
      }
    }
    hide Apply, Inv, Arrival;
  }

  lemma PollGetCarries(s: State, k: nat, i: nat, m: Msg)
    requires Shaped(s) && Enabled(s, PollGet(k)) && i < |s.subs|
    ensures Carries(Apply(s, PollGet(k)), i, m) ==> Carries(s, i, m)
  {
    assert s.q[k] != [] && s.poll[k].Ready?;
    PollGetFrame(s, k);
    PollGetQueue(s, k);
    PollGetPc(s, k);
    hide Apply, Enabled;
    if i == k { assert s.q[i] == [s.q[i][0]] + s.q[i][1..]; }
  }

  lemma RelayLockCarries(s: State, k: nat, i: nat, m: Msg)
    requires Shaped(s) && Enabled(s, RelayLock(k)) && i < |s.subs|
    ensures Carries(Apply(s, RelayLock(k)), i, m) ==> Carries(s, i, m)
  {
    RelayLockFrame(s, k);
    RelayLockPc(s, k);
    hide Apply, NextWanting;
  }

  lemma ReturnCarries(s: State, k: nat, i: nat, m: Msg)
    requires Shaped(s) && Enabled(s, Return(k)) && i < |s.subs|
    ensures Carries(Apply(s, Return(k)), i, m) ==> Carries(s, i, m)
  {
    ReturnFrame(s, k);
    ReturnPc(s, k);
    hide Apply;
  }

  lemma RelayPutCarries(s: State, k: nat, i: nat, m: Msg)
    requires Shaped(s) && Enabled(s, RelayPut(k)) && i < |s.subs|
    ensures Carries(Apply(s, RelayPut(k)), i, m) ==>
              Carries(s, i, m) || Arrival(s, RelayPut(k)) == Some(At(i, m))
  {
    RelayPutFrame(s, k);
    RelayPutQueue(s, k);
    RelayPutPc(s, k);
    hide Apply;
  }

  lemma BrokerCarries(s: State, step: Step, i: nat, m: Msg)
    requires Shaped(s) && Enabled(s, step) && i < |s.subs| && BrokerStep(step)
    ensures Carries(Apply(s, step), i, m) ==> Carries(s, i, m) || Arrival(s, step) == Some(At(i, m))
  {
    hide Apply;
    BrokerFrame(s, step);
    match step
    case Put => PutQueue(s);
    case Take => TakeFrame(s);
    case Lock => LockFrame(s);
    case Visit => VisitFrame(s);
    case Finish => FinishFrame(s);
  }

  lemma AppCarries(s: State, step: Step, i: nat, m: Msg)
    requires Shaped(s) && Enabled(s, step) && i < |s.subs| && !BrokerStep(step) && !PollerStep(step)
    ensures Carries(Apply(s, step), i, m) ==> Carries(s, i, m) || Arrival(s, step) == Some(At(i, m))
  {
    AppFrame(s, step);
    if step.Publish? {
      PublishFrame(s, step.m);
    } else if step.PublishDirect? {
      PublishDirectQueue(s, step.i, step.m);
    }
    hide Apply;
  }

  /** What a fifo subscriber carries it carried before, or has just got. */
  lemma CarriesAfter(s: State, step: Step, i: nat, m: Msg)
    requires Shaped(s) && PcInv(s) && Enabled(s, step) && i < |s.subs|
    ensures Carries(Apply(s, step), i, m) ==> Carries(s, i, m) || Arrival(s, step) == Some(At(i, m))
  {
    hide Apply, Carries;
    if BrokerStep(step) {
      BrokerCarries(s, step, i, m);
    } else if PollerStep(step) {
      match step
      case PollGet(k) => PollGetCarries(s, k, i, m);
      case RelayLock(k) => RelayLockCarries(s, k, i, m);
      case RelayPut(k) => RelayPutCarries(s, k, i, m);
      case Return(k) => ReturnCarries(s, k, i, m);
    } else {
      AppCarries(s, step, i, m);
    }
  }

  /** After its relay the message is no longer here, as it was here only once. */
  lemma RelayedIsGone(s: State, i: nat, m: Msg)
    requires TransitInv(s) && Enabled(s, RelayPut(i)) && s.poll[i].m == m
    ensures !Carries(Apply(s, RelayPut(i)), i, m)
  {
    assert PollInv(s, i) && MsgTransit(s, m) && Place(s, i, m);
    ArrivedParts(s, i, m);
    CountIn(Pre(s.poll[i]), m);
    CountIn(s.q[i], m);
    RelayPutQueue(s, i);
    RelayPutPc(s, i);
    hide Apply, Inv;
  }

  /** Nothing a fifo subscriber goes on carrying arrives behind it. */
  lemma NoArrivalBehind(s: State, step: Step, i: nat, k: nat, m: Msg)
    requires TransitInv(s) && Enabled(s, step) && i < k < |s.subs| && m.id <= s.subs[i].maxPub
    requires Carries(Apply(s, step), i, m)
    ensures Arrival(s, step) != Some(At(k, m))
  {
    hide Apply, Arrival, PcInv, RefInv;
    if Arrival(s, step) == Some(At(k, m)) {
      ArrivalSource(s, step, k, m);
      SourceIsSent(s, step, k, m);
      CarriesAfter(s, step, i, m);
      CarriedIsHere(s, i, m);
      assert MsgTransit(s, m) && Place(s, i, m) && CarrierFront(s, i, m);
      if step.RelayPut? {
        RelayedIsHere(s, step.i, m);
        assert CarrierFront(s, step.i, m);
        if step.i == i { RelayedIsGone(s, i, m); }
      }
    }
  }

  lemma KeepsCarrierFront(s: State, step: Step, i: nat, m: Msg)
    requires TransitInv(s) && Enabled(s, step) && i < |s.subs|
    ensures CarrierFront(Apply(s, step), i, m)
  {
    hide Apply, Enabled;
    var s' := Apply(s, step);
    MaxPubSame(s, step, i);
    if Carries(s', i, m) && m.id <= s.subs[i].maxPub {
      CarriesAfter(s, step, i, m);
      assert MsgTransit(s, m) && CarrierFront(s, i, m);
      if Arrival(s, step) == Some(At(i, m)) { NewCarrier(s, step, i, m); }
      forall k | i < k < |s'.subs| ensures Times(s', k, m) == 0 {
        TimesAfter(s, step, k, m);
        NoArrivalBehind(s, step, i, k, m);
      }
    }
  }

  /** A public message that arrives at a fifo subscriber is at no later position. */
  lemma NewCarrier(s: State, step: Step, i: nat, m: Msg)
    requires TransitInv(s) && Enabled(s, step) && Arrival(s, step) == Some(At(i, m))
    requires i < |s.subs| && s.subs[i].rxType.Fifo? && m.id <= s.subs[i].maxPub
    ensures forall k {:trigger Times(s, k, m)} :: i < k < |s.subs| ==> Times(s, k, m) == 0
  {
    ArrivalSource(s, step, i, m);
    assert MsgTransit(s, m);
    if step.RelayPut? {
      RelayedIsHere(s, step.i, m);
      assert CarrierFront(s, step.i, m);
    }
  }

  // ----- every run keeps it -----

  lemma KeepsMsgTransit(s: State, step: Step, m: Msg)
    requires TransitInv(s) && Enabled(s, step)
    ensures MsgTransit(Apply(s, step), m)
  {
    hide Apply, Enabled, Unpublished, BrokerFront, DirectOnly, Place, CarrierFront, SentInv;
    var s' := Apply(s, step);
    KeepsSentInv(s, step, m);
    KeepsUnpublished(s, step, m);
    KeepsBrokerFront(s, step, m);
    forall i ensures DirectOnly(s', i, m) { KeepsDirectOnly(s, step, i, m); }
    forall k | 0 <= k < |s'.subs| ensures Place(s', k, m) && CarrierFront(s', k, m) {
      KeepsPlace(s, step, k, m);
      KeepsCarrierFront(s, step, k, m);
    }
  }

  lemma StepKeepsTransitInv(s: State, step: Step)
    requires TransitInv(s) && Enabled(s, step)
    ensures TransitInv(Apply(s, step))
  {
    hide Apply, Enabled, MsgTransit, HandlingInv, RelayPublic, BrokerPublic, PcInv, RefInv, Current;
    StepKeepsInv(s, step);
    CurrentKept(s, step);
    KeepsBrokerPublic(s, step);
    forall i | 0 <= i < |s.subs| ensures HandlingInv(Apply(s, step), i) && RelayPublic(Apply(s, step), i) {
      StepKeepsHandlingInv(s, step, i);
      KeepsRelayPublic(s, step, i);
    }
    forall m ensures MsgTransit(Apply(s, step), m) { KeepsMsgTransit(s, step, m); }
  }

  lemma InitTransitInv(subs: seq<Sub>, pool: set<Block>)
    requires ValidSubs(subs)
    ensures TransitInv(Init(subs, pool))
  {
    InitInv(subs, pool);
    var s := Init(subs, pool);
    assert Published(s) == [];
    forall m ensures MsgTransit(s, m) {
      forall i: nat ensures DirectOnly(s, i, m) { assert !SentDirect(s, i, m); }
      forall k | 0 <= k < |s.subs| ensures Times(s, k, m) == 0 && Place(s, k, m) && CarrierFront(s, k, m) {
        assert Arrived(s, k) == [] && Pre(s.poll[k]) + s.q[k] == [];
      }
    }
  }

  /** In every state of every run, with subscriptions changing as they may, messages only move forward. */
  lemma {:induction false} RunKeepsTransitInv(s: State, steps: seq<Step>)
    requires TransitInv(s) && IsRun(s, steps)
    ensures TransitInv(Exec(s, steps))
    decreases |steps|
  {
    hide Apply, Enabled, MsgTransit;
    if steps != [] {
      StepKeepsTransitInv(s, steps[0]);
      RunKeepsTransitInv(Apply(s, steps[0]), steps[1..]);
    }
  }

  // ----- what follows -----

  /** Even while subscriptions change, a message reaches a subscriber at most once, and its handler is
      called with it at most once; if the message is private to it, only by direct publishing. */
  lemma AtMostOnce(s: State, k: nat, m: Msg)
    requires TransitInv(s) && k < |s.subs|
    ensures Count(s.handled[k], m) <= Count(Arrived(s, k), m) <= 1
    ensures m in s.handled[k] ==> m in s.sent
    ensures m in s.handled[k] && m.id > s.subs[k].maxPub ==> SentDirect(s, k, m)
  {
    assert MsgTransit(s, m) && Place(s, k, m);
    CountPrefix(s.handled[k], Arrived(s, k), m);
    CountIn(s.handled[k], m);
    assert Times(s, k, m) == Count(Arrived(s, k), m);
  }

  /** In how many fifos m is linked: the broker's, and those of fifo subscribers. */
  ghost function FifoLinks(s: State, m: Msg): (r: seq<nat>)
    requires Shaped(s)
    ensures |r| == |s.subs|
  {
    seq(|s.subs|, i requires 0 <= i < |s.subs| => if s.subs[i].rxType == Fifo then Count(s.q[i], m) else 0)
  }

  ghost function Links(s: State, m: Msg): nat
    requires Shaped(s)
  {
    Count(s.pub, m) + Sum(FifoLinks(s, m))
  }

  lemma {:induction false} SumAtMostOne(parts: seq<nat>)
    requires forall i :: 0 <= i < |parts| ==> parts[i] <= 1
    requires forall i, j :: 0 <= i < j < |parts| ==> parts[i] + parts[j] <= 1
    ensures Sum(parts) <= 1
  {
    if parts != [] {
      var last := |parts| - 1;
      if parts[last] == 1 {
        forall i | 0 <= i < last ensures parts[..last][i] == 0 {
          assert parts[i] + parts[last] <= 1;
        }
        SumZero(parts[..last]);
      } else {
        SumAtMostOne(parts[..last]);
      }
    }
  }

  lemma QueuedIsOnce(s: State, i: nat, m: Msg)
    requires TransitInv(s) && i < |s.subs|
    ensures Count(s.q[i], m) <= Times(s, i, m) <= 1
  {
    assert MsgTransit(s, m) && Place(s, i, m);
    ArrivedParts(s, i, m);
  }

  lemma NotInTwoFifos(s: State, i: nat, j: nat, m: Msg)
    requires TransitInv(s) && i < j < |s.subs| && s.subs[i].rxType.Fifo?
    ensures Count(s.q[i], m) + Count(s.q[j], m) <= 1
  {
    QueuedIsOnce(s, i, m);
    QueuedIsOnce(s, j, m);
    CountIn(s.q[i], m);
    assert MsgTransit(s, m) && Place(s, i, m) && CarrierFront(s, i, m);
    assert DirectOnly(s, i, m);
    assert Times(s, j, m) >= 0;
  }

  /** The one link word in the header is enough: a message is in at most one fifo at any time. */
  lemma OneLink(s: State, m: Msg)
    requires TransitInv(s)
    ensures Links(s, m) <= 1
  {
    var parts := FifoLinks(s, m);
    assert MsgTransit(s, m);
    CountConcat(s.taken, s.pub, m);
    CountIn(s.pub, m);
    forall i | 0 <= i < |parts|
      ensures parts[i] <= 1 && (Count(s.pub, m) > 0 ==> parts[i] == 0)
    {
      QueuedIsOnce(s, i, m);
    }
    if Count(s.pub, m) > 0 {
      SumZero(parts);
    } else {
      forall i, j | 0 <= i < j < |parts| ensures parts[i] + parts[j] <= 1 {
        if s.subs[i].rxType.Fifo? && s.subs[j].rxType.Fifo? { NotInTwoFifos(s, i, j, m); }
      }
      SumAtMostOne(parts);
    }
  }
}
