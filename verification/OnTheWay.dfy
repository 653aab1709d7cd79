/** Who will get a message: in any reachable state, whatever has been subscribed, added or removed before,
    a message has reached a subscriber or is on its way to it, or it never will. */
module OnTheWay {
  import opened Types
  import opened Protocol
  import opened Frames
  import opened RefCount
  import opened RefSafety
  import opened Logs
  import opened Order
  import opened Delivery
  import opened Transit

  /** A reference has been acquired for putting m into the queue of subscriber k. */
  ghost predicate Addressed(s: State, k: nat, m: Msg)
    requires Shaped(s)
  {
    || s.broker == Putting(m, k)
    || (s.mutex.ByPoller? && s.mutex.i < |s.subs| && s.poll[s.mutex.i] == Relaying(m, k))
  }

  /** The fifo subscriber at i will relay m, and not past position k. */
  ghost predicate Feeds(s: State, i: nat, k: nat, m: Msg)
    requires Shaped(s) && i < |s.subs|
  {
    && Carries(s, i, m) && m.id <= s.subs[i].maxPub
    && (s.poll[i].Relaying? && s.poll[i].m == m ==> s.poll[i].next <= k)
  }

  ghost predicate Upstream(s: State, k: nat, m: Msg)
    requires Shaped(s) && k < |s.subs|
  {
    exists i {:trigger Feeds(s, i, k, m)} :: 0 <= i < k && Feeds(s, i, k, m)
  }

  /** The broker has m, and position k still before it. */
  ghost predicate AtBroker(s: State, k: nat, m: Msg) {
    || m in s.pub || s.broker == Taken(m)
    || ((s.broker.Visiting? || s.broker.Putting?) && s.broker.m == m && s.broker.pos <= k)
  }

  /** Whether subscriber k gets m is still open: it depends on its subscription. */
  ghost predicate Open(s: State, k: nat, m: Msg)
    requires Shaped(s) && k < |s.subs|
  {
    AtBroker(s, k, m) || Upstream(s, k, m)
  }

  /** m has reached subscriber k, or is on its way to it. */
  ghost predicate Owed(s: State, k: nat, m: Msg)
    requires Shaped(s) && k < |s.subs|
  {
    || Times(s, k, m) > 0 || Addressed(s, k, m)
    || (Open(s, k, m) && s.subs[k].Wants(m.id))
  }

  /** A change of k's own subscription to an id. */
  predicate Retakes(step: Step, k: nat, id: nat) {
    step == Subscribe(k, id) || step == Unsubscribe(k, id)
  }

  // ----- nothing new is owed -----

  lemma AtBrokerAfter(s: State, step: Step, k: nat, m: Msg)
    requires Shaped(s) && PcInv(s) && Enabled(s, step) && step != Publish(m)
    ensures AtBroker(Apply(s, step), k, m) ==> AtBroker(s, k, m)
  {
    hide Apply, PcInv;
    if BrokerStep(step) {
      match step
      case Take => TakePc(s);
      case Lock => LockPc(s);
      case Visit => VisitPc(s);
      case Put => PutPc(s);
      case Finish => FinishPc(s);
    } else {
      OthersLeaveBroker(s, step);
      OthersPub(s, step);
    }
  }

  lemma OthersPub(s: State, step: Step)
    requires Shaped(s) && Enabled(s, step) && !BrokerStep(step)
    ensures Apply(s, step).pub == if step.Publish? then s.pub + [step.m] else s.pub
  {
    hide Apply, Enabled;
    if PollerStep(step) {
      PollerFrame(s, step);
    } else if step.Publish? {
      PublishSent(s, step.m);
    } else if step.PublishDirect? {
      PublishDirectFrame(s, step.i, step.m);
    } else {
      AppFrame(s, step);
    }
  }

  /** A new carrier got m from the broker's loop or from the relay of an earlier carrier. */
  lemma FeederSource(s: State, step: Step, i: nat, k: nat, m: Msg)
    requires TransitInv(s) && Enabled(s, step) && i < k < |s.subs|
    requires Arrival(s, step) == Some(At(i, m)) && s.subs[i].rxType.Fifo? && m.id <= s.subs[i].maxPub
    ensures Open(s, k, m)
  {
    ArrivalSource(s, step, i, m);
    if step.RelayPut? {
      RelayedIsHere(s, step.i, m);
      assert Feeds(s, step.i, k, m);
    }
    hide Apply, TransitInv, Arrival;
  }

  lemma FeedsAfter(s: State, step: Step, i: nat, k: nat, m: Msg)
    requires TransitInv(s) && Enabled(s, step) && i < k < |s.subs| && Feeds(Apply(s, step), i, k, m)
    ensures Open(s, k, m)
  {
    hide Apply, TransitInv, Arrival, Enabled;
    TransitParts(s);
    MaxPubSame(s, step, i);
    CarriesAfter(s, step, i, m);
    if Arrival(s, step) == Some(At(i, m)) {
      FeederSource(s, step, i, k, m);
    } else {
      PollAfter(s, step, i);
      if PollerStep(step) && step.i == i { OwnFeed(s, step, m); }
      assert Feeds(s, i, k, m);
    }
  }

  lemma TransitParts(s: State)
    requires TransitInv(s)
    ensures Inv(s) && Shaped(s) && PcInv(s) && Current(s)
  {
    hide MsgTransit;
  }

  lemma RelayerPuts(s: State, step: Step)
    requires Shaped(s) && Enabled(s, step) && PollerStep(step) && s.poll[step.i].Relaying?
    ensures step == RelayPut(step.i)
  {
  }

  /** A subscriber that goes on carrying m was not just relaying it. */
  lemma OwnFeed(s: State, step: Step, m: Msg)
    requires TransitInv(s) && Enabled(s, step) && PollerStep(step) && Carries(Apply(s, step), step.i, m)
    ensures !(s.poll[step.i].Relaying? && s.poll[step.i].m == m)
  {
    TransitParts(s);
    hide Apply, TransitInv, Carries, Inv, PcInv, Current, Enabled;
    if s.poll[step.i].Relaying? && s.poll[step.i].m == m {
      RelayerPuts(s, step);
      RelayedIsGone(s, step.i, m);
    }
  }

  lemma OpenAfter(s: State, step: Step, k: nat, m: Msg)
    requires TransitInv(s) && Enabled(s, step) && k < |s.subs| && step != Publish(m)
    ensures Open(Apply(s, step), k, m) ==> Open(s, k, m)
  {
    hide Apply, TransitInv, Enabled, Feeds, AtBroker;
    TransitParts(s);
    var s' := Apply(s, step);
    AtBrokerAfter(s, step, k, m);
    if Upstream(s', k, m) {
      var i :| 0 <= i < k && Feeds(s', i, k, m);
      FeedsAfter(s, step, i, k, m);
    }
  }

  /** A reference is only acquired for a subscriber that takes the message. */
  lemma AddressedAfter(s: State, step: Step, k: nat, m: Msg)
    requires TransitInv(s) && Enabled(s, step) && k < |s.subs|
    ensures Addressed(Apply(s, step), k, m) ==> Addressed(s, k, m) || (Open(s, k, m) && s.subs[k].Wants(m.id))
  {
    hide Apply, TransitInv;
    TransitParts(s);
    if BrokerStep(step) {
      BrokerAddresses(s, step, k, m);
    } else if PollerStep(step) {
      PollerAddresses(s, step, k, m);
    } else {
      AppFrame(s, step);
    }
    hide Enabled, Open;
  }

  lemma BrokerAddresses(s: State, step: Step, k: nat, m: Msg)
    requires TransitInv(s) && Enabled(s, step) && k < |s.subs| && BrokerStep(step)
    ensures Addressed(Apply(s, step), k, m) ==> Addressed(s, k, m) || (AtBroker(s, k, m) && s.subs[k].Wants(m.id))
  {
    hide Apply, MsgTransit, RefInv;
    BrokerFrame(s, step);
    match step {
      case Take => TakePc(s);
      case Lock => LockPc(s);
      case Visit => BrokerId(s); VisitPc(s);
      case Put => PutPc(s);
      case Finish => FinishPc(s);
    }
    hide TransitInv;
  }

  lemma PollerAddresses(s: State, step: Step, k: nat, m: Msg)
    requires TransitInv(s) && Enabled(s, step) && k < |s.subs| && PollerStep(step)
    ensures Addressed(Apply(s, step), k, m) ==> Addressed(s, k, m) || (Open(s, k, m) && s.subs[k].Wants(m.id))
  {
    hide Apply, MsgTransit, RefInv;
    PollerFrame(s, step);
    assert PollInv(s, step.i);
    match step {
      case PollGet(i) => PollGetPc(s, i);
      case RelayLock(i) => RelayLockAddresses(s, i, k, m);
      case RelayPut(i) => RelayPutPc(s, i);
      case Return(i) => ReturnPc(s, i);
    }
    hide TransitInv, Open;
  }

  lemma RelayLockAddresses(s: State, i: nat, k: nat, m: Msg)
    requires TransitInv(s) && Enabled(s, RelayLock(i)) && k < |s.subs|
    ensures Addressed(Apply(s, RelayLock(i)), k, m) ==>
              Addressed(s, k, m) || (Open(s, k, m) && s.subs[k].Wants(m.id))
  {
    PollerId(s, i);
    assert PollInv(s, i) && RelayPublic(s, i);
    hide Apply, TransitInv, Inv;
    RelayLockPc(s, i);
    RelayLockFrame(s, i);
    if s.poll[i] == Got(m) && NextWanting(s.subs, i + 1, m.id) == k { assert Feeds(s, i, k, m); }
    hide AtBroker;
  }

  /** m arrives only where it is owed, or where it is published just now. */
  lemma ArrivalOwed(s: State, step: Step, k: nat, m: Msg)
    requires TransitInv(s) && Enabled(s, step) && k < |s.subs| && Arrival(s, step) == Some(At(k, m))
    ensures step == PublishDirect(k, m) || Addressed(s, k, m) || (Open(s, k, m) && s.subs[k].Wants(m.id))
  {
    ArrivalSource(s, step, k, m);
    match step
    case Visit => BrokerId(s);
    case RelayPut(i) => assert PollInv(s, i);
    case _ =>
  }

  lemma NothingNew(s: State, step: Step, k: nat, m: Msg)
    requires TransitInv(s) && Enabled(s, step) && k < |s.subs|
    requires step != Publish(m) && step != PublishDirect(k, m) && !Retakes(step, k, m.id)
    ensures Owed(Apply(s, step), k, m) ==> Owed(s, k, m)
  {
    hide Apply, TransitInv, Enabled, Open, Addressed, Arrival;
    TransitParts(s);
    WantsSame(s, step, k, m.id);
    TimesAfter(s, step, k, m);
    OpenAfter(s, step, k, m);
    AddressedAfter(s, step, k, m);
    if Arrival(s, step) == Some(At(k, m)) { ArrivalOwed(s, step, k, m); }
  }

  lemma WantsSame(s: State, step: Step, k: nat, id: nat)
    requires Shaped(s) && Enabled(s, step) && k < |s.subs| && !Retakes(step, k, id)
    ensures Apply(s, step).subs[k].Wants(id) == s.subs[k].Wants(id)
  {
    if !step.Subscribe? && !step.Unsubscribe? {
      SubsFrame(s, step);
      hide Apply, Enabled;
    }
  }

  // ----- nothing owed is lost -----

  /** The broker's step takes what is before k to k, or to a fifo subscriber in front of it. */
  lemma BrokerPasses(s: State, step: Step, k: nat, m: Msg)
    requires TransitInv(s) && Enabled(s, step) && BrokerStep(step) && k < |s.subs|
    requires AtBroker(s, k, m) && s.subs[k].Wants(m.id)
    ensures Owed(Apply(s, step), k, m)
  {
    hide Apply, MsgTransit, RefInv;
    BrokerFrame(s, step);
    match step {
      case Take => TakePc(s);
      case Lock => LockPc(s);
      case Visit => VisitPasses(s, k, m);
      case Put => PutPasses(s, k, m);
      case Finish => FinishPc(s);
    }
    hide TransitInv, Upstream;
  }

  lemma VisitPasses(s: State, k: nat, m: Msg)
    requires TransitInv(s) && Enabled(s, Visit) && k < |s.subs|
    requires AtBroker(s, k, m) && s.subs[k].Wants(m.id)
    ensures var s' := Apply(s, Visit); Times(s', k, m) > 0 || Addressed(s', k, m) || AtBroker(s', k, m)
  {
    hide Apply, MsgTransit, RefInv;
    BrokerId(s);
    VisitPc(s);
    TimesAfter(s, Visit, k, m);
    hide TransitInv, Times;
  }

  lemma PutPasses(s: State, k: nat, m: Msg)
    requires TransitInv(s) && Enabled(s, Put) && k < |s.subs| && AtBroker(s, k, m)
    ensures var s' := Apply(s, Put); Times(s', k, m) > 0 || AtBroker(s', k, m) || Upstream(s', k, m)
  {
    hide Apply, MsgTransit, RefInv;
    var s', pos := Apply(s, Put), s.broker.pos;
    assert PollInv(s, pos);
    PutPc(s);
    PutQueue(s);
    BrokerFrame(s, Put);
    TimesAfter(s, Put, k, m);
    hide TransitInv, Times;
    if pos < k && s.broker.m == m && s.subs[pos].rxType == Fifo { assert Feeds(s', pos, k, m); }
  }

  lemma FeedGrows(s: State, s': State, i: nat, k: nat, m: Msg)
    requires Shaped(s) && Shaped(s') && SubsKept(s, s') && i < k < |s.subs| && Feeds(s, i, k, m)
    requires s'.poll[i] == s.poll[i] && s.q[i] <= s'.q[i]
    ensures Upstream(s', k, m)
  {
    assert Carries(s', i, m);
    assert Feeds(s', i, k, m);
  }

  /** Steps of others leave what i carries in place. */
  lemma QueueGrows(s: State, step: Step, i: nat)
    requires Shaped(s) && Enabled(s, step) && i < |s.subs| && !(PollerStep(step) && step.i == i)
    ensures s.q[i] <= Apply(s, step).q[i]
  {
    hide Apply;
    match step {
      case Take => TakeFrame(s);
      case Lock => LockFrame(s);
      case Visit => VisitFrame(s);
      case Put => PutQueue(s);
      case Finish => FinishFrame(s);
      case PollGet(j) => PollGetQueue(s, j);
      case RelayLock(j) => RelayLockFrame(s, j);
      case RelayPut(j) => RelayPutQueue(s, j);
      case Return(j) => ReturnFrame(s, j);
      case Publish(x) => PublishFrame(s, x);
      case PublishDirect(j, x) => PublishDirectQueue(s, j, x);
      case _ => AppFrame(s, step);
    }
    hide Enabled;
  }

  lemma PollGetFeeds(s: State, i: nat, k: nat, m: Msg)
    requires TransitInv(s) && Enabled(s, PollGet(i)) && i < k < |s.subs| && Feeds(s, i, k, m)
    ensures Upstream(Apply(s, PollGet(i)), k, m)
  {
    QueuedId(s, i);
    assert s.poll[i].Ready?;
    hide Apply, TransitInv;
    var s' := Apply(s, PollGet(i));
    PollGetFrame(s, i);
    PollGetQueue(s, i);
    PollGetPc(s, i);
    assert s.q[i] == [s.q[i][0]] + s.q[i][1..];
    assert Feeds(s', i, k, m);
  }

  lemma RelayLockFeeds(s: State, i: nat, k: nat, m: Msg)
    requires TransitInv(s) && Enabled(s, RelayLock(i)) && i < k < |s.subs| && Feeds(s, i, k, m)
    requires s.subs[k].Wants(m.id)
    ensures Upstream(Apply(s, RelayLock(i)), k, m)
  {
    PollerId(s, i);
    assert s.poll[i].Got?;
    hide Apply, TransitInv;
    var s' := Apply(s, RelayLock(i));
    RelayLockFrame(s, i);
    RelayLockPc(s, i);
    assert Feeds(s', i, k, m);
  }

  lemma RelayPutFeeds(s: State, i: nat, k: nat, m: Msg)
    requires TransitInv(s) && Enabled(s, RelayPut(i)) && i < k < |s.subs| && Feeds(s, i, k, m)
    ensures var s' := Apply(s, RelayPut(i)); Times(s', k, m) > 0 || Upstream(s', k, m)
  {
    assert PollInv(s, i) && RelayPublic(s, i);
    var next := s.poll[i].next;
    assert PollInv(s, next);
    TimesAfter(s, RelayPut(i), k, m);
    hide Apply, TransitInv, Times;
    var s' := Apply(s, RelayPut(i));
    RelayPutFrame(s, i);
    RelayPutQueue(s, i);
    RelayPutPc(s, i);
    if s.poll[i].m != m {
      assert Feeds(s', i, k, m);
    } else if next < k {
      assert Feeds(s', next, k, m);
    }
  }

  lemma ReturnFeeds(s: State, i: nat, k: nat, m: Msg)
    requires Shaped(s) && Enabled(s, Return(i)) && i < k < |s.subs| && Feeds(s, i, k, m)
    ensures Upstream(Apply(s, Return(i)), k, m)
  {
    assert s.poll[i].Handling?;
    hide Apply;
    ReturnFrame(s, i);
    ReturnPc(s, i);
    assert Feeds(Apply(s, Return(i)), i, k, m);
  }

  lemma FeedPasses(s: State, step: Step, i: nat, k: nat, m: Msg)
    requires TransitInv(s) && Enabled(s, step) && i < k < |s.subs| && Feeds(s, i, k, m) && s.subs[k].Wants(m.id)
    ensures var s' := Apply(s, step); Times(s', k, m) > 0 || Upstream(s', k, m)
  {
    hide Apply, TransitInv, Feeds, Upstream, Enabled;
    TransitParts(s);
    if PollerStep(step) && step.i == i {
      match step
      case PollGet(_) => PollGetFeeds(s, i, k, m);
      case RelayLock(_) => RelayLockFeeds(s, i, k, m);
      case RelayPut(_) => RelayPutFeeds(s, i, k, m);
      case Return(_) => ReturnFeeds(s, i, k, m);
    } else {
      SubsFrame(s, step);
      PollAfter(s, step, i);
      QueueGrows(s, step, i);
      FeedGrows(s, Apply(s, step), i, k, m);
    }
  }

  lemma OpenPasses(s: State, step: Step, k: nat, m: Msg)
    requires TransitInv(s) && Enabled(s, step) && k < |s.subs| && !Retakes(step, k, m.id)
    requires Open(s, k, m) && s.subs[k].Wants(m.id)
    ensures Owed(Apply(s, step), k, m)
  {
    hide Apply, TransitInv, Enabled, Feeds, Addressed, AtBroker;
    TransitParts(s);
    WantsSame(s, step, k, m.id);
    if AtBroker(s, k, m) {
      if BrokerStep(step) {
        BrokerPasses(s, step, k, m);
      } else {
        BrokerStays(s, step, k, m);
      }
    } else {
      var i :| 0 <= i < k && Feeds(s, i, k, m);
      FeedPasses(s, step, i, k, m);
    }
  }

  lemma BrokerStays(s: State, step: Step, k: nat, m: Msg)
    requires Shaped(s) && Enabled(s, step) && !BrokerStep(step) && AtBroker(s, k, m)
    ensures AtBroker(Apply(s, step), k, m)
  {
    OthersLeaveBroker(s, step);
    OthersPub(s, step);
    hide Apply, Enabled;
  }

  /** The put that a reference was acquired for is made. */
  lemma AddressedPasses(s: State, step: Step, k: nat, m: Msg)
    requires TransitInv(s) && Enabled(s, step) && k < |s.subs| && Addressed(s, k, m)
    ensures var s' := Apply(s, step); Times(s', k, m) > 0 || Addressed(s', k, m)
  {
    hide Apply, MsgTransit, RefInv;
    TimesAfter(s, step, k, m);
    if BrokerStep(step) {
      BrokerFrame(s, step);
      match step {
        case Take => TakePc(s);
        case Lock => LockPc(s);
        case Visit => VisitPc(s);
        case Put =>
        case Finish => FinishPc(s);
      }
    } else {
      OthersKeepAddress(s, step, k, m);
    }
    hide TransitInv, Times;
  }

  lemma OthersKeepAddress(s: State, step: Step, k: nat, m: Msg)
    requires Shaped(s) && PcInv(s) && Enabled(s, step) && k < |s.subs| && Addressed(s, k, m) && !BrokerStep(step)
    ensures Addressed(Apply(s, step), k, m) || Arrival(s, step) == Some(At(k, m))
  {
    hide Apply;
    OthersLeaveBroker(s, step);
    if PollerStep(step) {
      assert PollInv(s, step.i);
      PollerFrame(s, step);
      match step {
        case PollGet(i) => PollGetPc(s, i);
        case RelayLock(i) => RelayLockPc(s, i);
        case RelayPut(i) => RelayPutPc(s, i);
        case Return(i) => ReturnPc(s, i);
      }
    } else {
      AppFrame(s, step);
    }
    hide Enabled, PcInv;
  }

  lemma NothingLost(s: State, step: Step, k: nat, m: Msg)
    requires TransitInv(s) && Enabled(s, step) && k < |s.subs| && !Retakes(step, k, m.id)
    ensures Owed(s, k, m) ==> Owed(Apply(s, step), k, m)
  {
    hide Apply, TransitInv, Enabled, Open, Addressed, Arrival;
    TransitParts(s);
    TimesAfter(s, step, k, m);
    if Addressed(s, k, m) { AddressedPasses(s, step, k, m); }
    if Open(s, k, m) && s.subs[k].Wants(m.id) { OpenPasses(s, step, k, m); }
  }

  /** No step changes what subscriber k is owed of m, except the publication of m and a change of k's own
      subscription to its id. */
  lemma StepKeepsOwed(s: State, step: Step, k: nat, m: Msg)
    requires TransitInv(s) && Enabled(s, step) && k < |s.subs|
    requires step != Publish(m) && step != PublishDirect(k, m) && !Retakes(step, k, m.id)
    ensures Owed(Apply(s, step), k, m) <==> Owed(s, k, m)
  {
    hide Apply, TransitInv, Enabled, Owed;
    TransitParts(s);
    NothingNew(s, step, k, m);
    NothingLost(s, step, k, m);
  }

  // ----- when m has come to rest -----

  /** m is in no queue and in nobody's hand, a running handler excepted. */
  ghost predicate AtRest(s: State, m: Msg)
    requires Shaped(s)
  {
    && m !in s.pub && (!s.broker.Idle? && s.broker.m == m ==> s.broker.Unlocked?)
    && (forall i :: 0 <= i < |s.subs| ==> m !in Pre(s.poll[i]) + s.q[i])
  }

  /** Then whoever was owed it has handled it, exactly once, and nobody else has. */
  lemma OwedIsHandled(s: State, k: nat, m: Msg)
    requires TransitInv(s) && k < |s.subs| && AtRest(s, m)
    ensures Count(s.handled[k], m) == if Owed(s, k, m) then 1 else 0
  {
    AtMostOnce(s, k, m);
    ArrivedParts(s, k, m);
    CountIn(Pre(s.poll[k]), m);
    CountIn(s.q[k], m);
    assert !Upstream(s, k, m);
    if s.mutex.ByPoller? { assert PollInv(s, s.mutex.i); }
    hide TransitInv;
  }
}
