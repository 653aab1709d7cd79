/** Delivery order over every interleaving with a fixed subscriber list and fixed subscriptions: how
    the log of arrivals of each subscriber follows from the publish order. */
module Order {
  import opened Types
  import opened Protocol
  import opened Frames
  import opened RefCount
  import opened RefSafety
  import opened Logs

  // ----- positions in the list -----

  ghost predicate TakesAll(sub: Sub, ids: set<nat>) {
    forall x :: x in ids ==> sub.Wants(x)
  }

  ghost predicate TakesNone(sub: Sub, ids: set<nat>) {
    forall x :: x in ids ==> !sub.Wants(x)
  }

  /** Fifo subscriber i takes all of `ids`, and no earlier fifo subscriber takes any of them. */
  ghost predicate First(subs: seq<Sub>, i: nat, ids: set<nat>) {
    && i < |subs| && subs[i].rxType == Fifo && TakesAll(subs[i], ids)
    && (forall k :: 0 <= k < i && subs[k].rxType == Fifo ==> TakesNone(subs[k], ids))
  }

  /** Fifo subscriber i and the later j take all of `ids`, and nobody in between takes any. */
  ghost predicate Adjacent(subs: seq<Sub>, i: nat, j: nat, ids: set<nat>) {
    && i < j < |subs| && subs[i].rxType == Fifo && TakesAll(subs[i], ids) && TakesAll(subs[j], ids)
    && (forall k :: i < k < j ==> TakesNone(subs[k], ids))
  }

  ghost predicate IsPrivate(sub: Sub, id: nat) {
    id > sub.maxPub
  }

  ghost function PrivateIds(sub: Sub): set<nat> {
    set id: nat | id <= MAX_MSG_ID && IsPrivate(sub, id)
  }

  // ----- the invariant -----

  /** Everything at subscriber i is either subscribed to or a private message of i. */
  ghost predicate Expected(s: State, i: nat)
    requires Shaped(s) && i < |s.subs|
  {
    forall m :: m in Arrived(s, i) ==>
      m.id <= MAX_MSG_ID && (s.subs[i].Wants(m.id) || m.id > s.subs[i].maxPub)
  }

  /** A callback or msgq subscriber has got what the broker has passed by it, all ids together. */
  ghost predicate FedByBroker(s: State, i: nat)
    requires Shaped(s) && i < |s.subs|
  {
    s.subs[i].rxType != Fifo ==>
      Sel(s.subs[i].Wanted(), Arrived(s, i)) == Sel(s.subs[i].Wanted(), Passed(s, i))
  }

  /** The first fifo subscriber for `ids` has got those of their messages the broker has passed by it. */
  ghost predicate FirstFed(s: State, i: nat, ids: set<nat>)
    requires Shaped(s) && i < |s.subs|
  {
    First(s.subs, i, ids) ==> Sel(ids, Arrived(s, i)) == Sel(ids, Passed(s, i))
  }

  /** A later fifo subscriber for `ids` has got those of their messages its predecessor has relayed. */
  ghost predicate ChainFed(s: State, i: nat, j: nat, ids: set<nat>)
    requires Shaped(s) && i < |s.subs| && j < |s.subs|
  {
    Adjacent(s.subs, i, j, ids) ==> Sel(ids, Arrived(s, j)) == Sel(ids, s.handled[i])
  }

  ghost predicate DirectFed(s: State, i: nat)
    requires Shaped(s) && i < |s.subs|
  {
    Sel(PrivateIds(s.subs[i]), Arrived(s, i)) == s.direct[i]
  }

  /** The broker stops at the first fifo subscriber for its message, and only puts where wanted. */
  ghost predicate BrokerOrd(s: State) {
    && Current(s)
    && (s.broker.Visiting? || s.broker.Putting? ==>
          && s.broker.pos <= |s.subs|
          && (forall k :: 0 <= k < s.broker.pos && s.subs[k].rxType == Fifo ==>
                !s.subs[k].Wants(s.broker.m.id)))
    && (s.broker.Putting? ==>
          s.broker.pos < |s.subs| && s.subs[s.broker.pos].Wants(s.broker.m.id))
  }

  /** Only public messages are relayed, and to the next subscriber that takes them. */
  ghost predicate RelayOrd(s: State, i: nat)
    requires Shaped(s) && i < |s.subs|
  {
    && (s.poll[i].Got? || s.poll[i].Relaying? ==> s.poll[i].m.id <= s.subs[i].maxPub)
    && (s.poll[i].Relaying? ==> s.poll[i].next == NextWanting(s.subs, i + 1, s.poll[i].m.id))
  }

  ghost predicate SubOrd(s: State, i: nat)
    requires Shaped(s) && i < |s.subs|
  {
    RelayOrd(s, i) && Expected(s, i) && FedByBroker(s, i) && DirectFed(s, i)
  }

  ghost predicate OrderInv(s: State) {
    && Inv(s)
    && BrokerOrd(s)
    && (forall i :: 0 <= i < |s.subs| ==> SubOrd(s, i))
    && (forall i, ids :: 0 <= i < |s.subs| ==> FirstFed(s, i, ids))
    && (forall i, j, ids :: 0 <= i < |s.subs| && 0 <= j < |s.subs| ==> ChainFed(s, i, j, ids))
  }

  ghost predicate Resubscribes(step: Step) {
    step.Subscribe? || step.Unsubscribe?
  }

  // ----- the id read from memory is the id the message was allocated with -----

  lemma IdInMemory(s: State, m: Msg)
    requires Inv(s) && Owners(s, m) > 0
    ensures HdrOf(s, m).id == m.id <= MAX_MSG_ID
  {
    assert MsgInv(s, m);
  }

  lemma BrokerId(s: State)
    requires Inv(s) && !s.broker.Idle?
    ensures HdrOf(s, s.broker.m).id == s.broker.m.id <= MAX_MSG_ID
  {
    IdInMemory(s, s.broker.m);
  }

  lemma PollerId(s: State, i: nat)
    requires Inv(s) && i < |s.subs| && !s.poll[i].Ready?
    ensures HdrOf(s, s.poll[i].m).id == s.poll[i].m.id <= MAX_MSG_ID
  {
    ShareOwned(s, i, s.poll[i].m);
    IdInMemory(s, s.poll[i].m);
  }

  lemma QueuedId(s: State, i: nat)
    requires Inv(s) && i < |s.subs| && s.q[i] != []
    ensures HdrOf(s, s.q[i][0]).id == s.q[i][0].id <= MAX_MSG_ID
  {
    CountTail(s.q[i], s.q[i][0]);
    ShareOwned(s, i, s.q[i][0]);
    IdInMemory(s, s.q[i][0]);
  }

  // ----- arrivals match what feeds them -----

  lemma InHand(s: State, i: nat)
    requires OrderInv(s) && i < |s.subs| && (s.poll[i].Got? || s.poll[i].Relaying?)
    ensures s.subs[i].rxType == Fifo && s.subs[i].Wants(s.poll[i].m.id)
  {
    assert PollInv(s, i) && SubOrd(s, i);
    assert s.poll[i].m in Arrived(s, i);
  }

  /** The subject of a step that makes an arrival, with the id read from memory. */
  lemma ArrivalExpected(s: State, step: Step)
    requires OrderInv(s) && Enabled(s, step) && Arrival(s, step).Some?
    ensures var e := Arrival(s, step).value;
            && e.i < |s.subs| && e.m.id <= MAX_MSG_ID
            && (if step.PublishDirect? then e.m.id > s.subs[e.i].maxPub else s.subs[e.i].Wants(e.m.id))
  {
    match step
    case PublishDirect(i, m) => IdInMemory(s, m);
    case Visit => BrokerId(s);
    case Put => BrokerId(s);
    case RelayPut(i) => PollerId(s, i); assert PollInv(s, i) && SubOrd(s, i);
    case _ =>
  }

  ghost function BrokerAdds(s: State, step: Step, k: nat): seq<Msg>
    requires Shaped(s) && Enabled(s, step)
  {
    if Passes(s, step, k) then [s.broker.m] else []
  }

  lemma BrokerMatch(s: State, step: Step, i: nat)
    requires OrderInv(s) && Enabled(s, step) && i < |s.subs| && s.subs[i].rxType != Fifo
    ensures Sel(s.subs[i].Wanted(), Adds(Arrival(s, step), i))
         == Sel(s.subs[i].Wanted(), BrokerAdds(s, step, i))
  {
    if step.Put? {
      PutMatch(s, i);
    } else {
      match step
      case PublishDirect(k, m) => IdInMemory(s, m);
      case Visit => BrokerId(s);
      case RelayPut(k) => assert PollInv(s, k);
      case _ =>
    }
    hide OrderInv, Enabled;
  }

  lemma PutMatch(s: State, i: nat)
    requires OrderInv(s) && Enabled(s, Put) && i < |s.subs| && s.subs[i].rxType != Fifo
    ensures Adds(Arrival(s, Put), i) == BrokerAdds(s, Put, i)
  {
    if s.subs[s.broker.pos].rxType == Fifo && s.broker.pos <= i { AfterFifo(s.subs, s.broker.pos, i); }
    hide OrderInv, Enabled;
  }

  lemma FirstMatch(s: State, step: Step, i: nat, ids: set<nat>)
    requires OrderInv(s) && Enabled(s, step) && First(s.subs, i, ids)
    ensures Sel(ids, Adds(Arrival(s, step), i)) == Sel(ids, BrokerAdds(s, step, i))
  {
    match step
    case PublishDirect(k, m) => IdInMemory(s, m);
    case Visit => BrokerId(s);
    case Put => BrokerId(s);
    case RelayPut(k) => assert PollInv(s, k); InHand(s, k);
    case _ =>
  }

  /** The relay of a message is its arrival at the next subscriber for its id. */
  lemma RelayPutMatch(s: State, k: nat, i: nat, j: nat, ids: set<nat>)
    requires OrderInv(s) && Enabled(s, RelayPut(k)) && Adjacent(s.subs, i, j, ids)
    ensures Sel(ids, Adds(Arrival(s, RelayPut(k)), j)) == Sel(ids, Adds(HandlerCall(s, RelayPut(k)), i))
  {
    AfterFifo(s.subs, i, j);
    assert s.poll[k].Relaying? && PollInv(s, k) && SubOrd(s, k);
    InHand(s, k);
    hide OrderInv, Enabled;
  }

  /** A handler call without a relay is for an id that nobody further down takes. */
  lemma NoRelayMatch(s: State, step: Step, i: nat, j: nat, ids: set<nat>)
    requires OrderInv(s) && Enabled(s, step) && Adjacent(s.subs, i, j, ids)
    requires step.PollGet? || step.RelayLock?
    ensures Sel(ids, Adds(Arrival(s, step), j)) == Sel(ids, Adds(HandlerCall(s, step), i))
  {
    match step
    case PollGet(k) => QueuedId(s, k);
    case RelayLock(k) => PollerId(s, k);
    hide OrderInv, Enabled;
  }

  lemma BrokerChainMatch(s: State, step: Step, i: nat, j: nat, ids: set<nat>)
    requires OrderInv(s) && Enabled(s, step) && Adjacent(s.subs, i, j, ids)
    requires step.Visit? || step.Put? || step.PublishDirect?
    ensures Sel(ids, Adds(Arrival(s, step), j)) == [] == Sel(ids, Adds(HandlerCall(s, step), i))
  {
    AfterFifo(s.subs, i, j);
    match step
    case PublishDirect(k, m) => IdInMemory(s, m);
    case Put => BrokerId(s);
    case Visit =>
    hide Enabled;
  }

  lemma ChainMatch(s: State, step: Step, i: nat, j: nat, ids: set<nat>)
    requires OrderInv(s) && Enabled(s, step) && Adjacent(s.subs, i, j, ids)
    ensures Sel(ids, Adds(Arrival(s, step), j)) == Sel(ids, Adds(HandlerCall(s, step), i))
  {
    hide OrderInv;
    match step
    case PublishDirect(_, _) => BrokerChainMatch(s, step, i, j, ids);
    case Visit => BrokerChainMatch(s, step, i, j, ids);
    case Put => BrokerChainMatch(s, step, i, j, ids);
    case PollGet(_) => NoRelayMatch(s, step, i, j, ids);
    case RelayLock(_) => NoRelayMatch(s, step, i, j, ids);
    case RelayPut(k) => RelayPutMatch(s, k, i, j, ids);
    case _ =>
  }

  lemma PublishDirectMatch(s: State, k: nat, m: Msg, i: nat)
    requires OrderInv(s) && Enabled(s, PublishDirect(k, m)) && i < |s.subs|
    ensures s.direct[i] + Sel(PrivateIds(s.subs[i]), Adds(Arrival(s, PublishDirect(k, m)), i))
         == Apply(s, PublishDirect(k, m)).direct[i]
  {
    IdInMemory(s, m);
    PublishDirectSent(s, k, m);
    assert IsPrivate(s.subs[k], m.id);
    hide Apply, OrderInv;
  }

  lemma DirectKept(s: State, step: Step)
    requires Shaped(s) && Enabled(s, step) && !step.PublishDirect?
    ensures Apply(s, step).direct == s.direct
  {
    hide Apply, Enabled;
    if BrokerStep(step) {
      BrokerFrame(s, step);
    } else if PollerStep(step) {
      PollerFrame(s, step);
    } else {
      AppFrame(s, step);
      if step.Publish? { PublishFrame(s, step.m); }
    }
  }

  lemma DirectMatch(s: State, step: Step, i: nat)
    requires OrderInv(s) && Enabled(s, step) && i < |s.subs| && !step.PublishDirect?
    ensures Sel(PrivateIds(s.subs[i]), Adds(Arrival(s, step), i)) == []
    ensures Apply(s, step).direct == s.direct
  {
    DirectKept(s, step);
    if Arrival(s, step).Some? { ArrivalExpected(s, step); }
    hide Apply, Enabled, Arrival, OrderInv;
  }

  // ----- every step keeps the invariant -----

  lemma StepLogs(s: State, step: Step, k: nat)
    requires Shaped(s) && PcInv(s) && Current(s) && Enabled(s, step) && k < |s.subs|
    ensures LogsExtend(s, step, k)
  {
    match step
    case Visit => if s.broker.pos < |s.subs| { assert PollInv(s, s.broker.pos); } VisitLogs(s, k);
    case Put => PutLogs(s, k);
    case Take => TakeLogs(s, k);
    case Lock => LockLogs(s, k);
    case Finish => FinishLogs(s, k);
    case PollGet(i) => PollGetLogs(s, i, k);
    case RelayLock(i) => RelayLockLogs(s, i, k);
    case RelayPut(i) => assert PollInv(s, i); RelayPutLogs(s, i, k);
    case Return(i) => ReturnLogs(s, i, k);
    case PublishDirect(i, m) => assert PollInv(s, i); PublishDirectLogs(s, i, m, k);
    case _ => OtherLogs(s, step, k);
  }

  lemma BrokerStepKeepsBrokerOrd(s: State, step: Step)
    requires OrderInv(s) && Enabled(s, step) && BrokerStep(step)
    ensures BrokerOrd(Apply(s, step))
  {
    hide Apply, FirstFed, ChainFed, SubOrd;
    CurrentKept(s, step);
    BrokerFrame(s, step);
    if !s.broker.Idle? { BrokerId(s); }
    match step
    case Take => TakePc(s);
    case Lock => LockPc(s);
    case Visit => VisitPc(s);
    case Put => PutPc(s);
    case Finish => FinishPc(s);
  }

  lemma OtherStepKeepsBrokerOrd(s: State, step: Step)
    requires Shaped(s) && BrokerOrd(s) && Enabled(s, step) && !Resubscribes(step) && !BrokerStep(step)
    ensures BrokerOrd(Apply(s, step))
  {
    hide Apply, Enabled;
    CurrentKept(s, step);
    if PollerStep(step) { PollerFrame(s, step); } else { AppFrame(s, step); }
  }

  lemma PollStepKeepsRelayOrd(s: State, step: Step, i: nat)
    requires OrderInv(s) && Enabled(s, step) && i < |s.subs|
    requires step.PollGet? || step.RelayLock?
    ensures RelayOrd(Apply(s, step), i)
  {
    hide Apply, NextWanting, FirstFed, ChainFed;
    assert SubOrd(s, i);
    PollerFrame(s, step);
    match step {
      case PollGet(k) => QueuedId(s, k); PollGetPc(s, k);
      case RelayLock(k) => PollerId(s, k); RelayLockPc(s, k);
    }
    hide OrderInv, Enabled;
  }

  lemma OtherStepKeepsRelayOrd(s: State, step: Step, i: nat)
    requires Shaped(s) && i < |s.subs| && RelayOrd(s, i) && Enabled(s, step) && !Resubscribes(step)
    requires !step.PollGet? && !step.RelayLock?
    ensures RelayOrd(Apply(s, step), i)
  {
    hide Apply, NextWanting;
    if BrokerStep(step) {
      BrokerFrame(s, step);
    } else if PollerStep(step) {
      PollerFrame(s, step);
      match step {
        case RelayPut(k) => RelayPutPc(s, k);
        case Return(k) => ReturnPc(s, k);
        case _ =>
      }
    } else {
      AppFrame(s, step);
    }
    hide Enabled;
  }

  lemma StepKeepsSubs(s: State, step: Step)
    requires Shaped(s) && Enabled(s, step) && !Resubscribes(step)
    ensures Apply(s, step).subs == s.subs
  {
    SubsFrame(s, step);
    hide Apply, Enabled;
  }

  lemma StepKeepsExpected(s: State, step: Step, i: nat)
    requires OrderInv(s) && Enabled(s, step) && !Resubscribes(step) && i < |s.subs|
    ensures Expected(Apply(s, step), i)
  {
    hide Apply;
    StepKeepsSubs(s, step);
    StepLogs(s, step, i);
    assert SubOrd(s, i);
    if Arrival(s, step).Some? { ArrivalExpected(s, step); }
  }

  lemma StepKeepsDirectFed(s: State, step: Step, i: nat)
    requires OrderInv(s) && Enabled(s, step) && !Resubscribes(step) && i < |s.subs|
    ensures DirectFed(Apply(s, step), i)
  {
    hide Apply;
    StepKeepsSubs(s, step);
    StepLogs(s, step, i);
    assert SubOrd(s, i);
    if step.PublishDirect? { PublishDirectMatch(s, step.i, step.m, i); } else { DirectMatch(s, step, i); }
    SelConcat(PrivateIds(s.subs[i]), Arrived(s, i), Adds(Arrival(s, step), i));
  }

  lemma StepKeepsFedByBroker(s: State, step: Step, i: nat)
    requires OrderInv(s) && Enabled(s, step) && !Resubscribes(step) && i < |s.subs|
    ensures FedByBroker(Apply(s, step), i)
  {
    hide Apply;
    StepKeepsSubs(s, step);
    if s.subs[i].rxType != Fifo {
      StepLogs(s, step, i);
      assert SubOrd(s, i);
      BrokerMatch(s, step, i);
      SelConcat(s.subs[i].Wanted(), Arrived(s, i), Adds(Arrival(s, step), i));
      if Passes(s, step, i) { SelConcat(s.subs[i].Wanted(), Passed(s, i), [s.broker.m]); }
    }
  }

  lemma StepKeepsSubOrd(s: State, step: Step, i: nat)
    requires OrderInv(s) && Enabled(s, step) && !Resubscribes(step) && i < |s.subs|
    ensures SubOrd(Apply(s, step), i)
  {
    hide Apply;
    assert SubOrd(s, i);
    if step.PollGet? || step.RelayLock? {
      PollStepKeepsRelayOrd(s, step, i);
    } else {
      OtherStepKeepsRelayOrd(s, step, i);
    }
    StepKeepsExpected(s, step, i);
    StepKeepsFedByBroker(s, step, i);
    StepKeepsDirectFed(s, step, i);
  }

  lemma StepKeepsFirstFed(s: State, step: Step, i: nat, ids: set<nat>)
    requires OrderInv(s) && Enabled(s, step) && !Resubscribes(step) && i < |s.subs|
    ensures FirstFed(Apply(s, step), i, ids)
  {
    hide Apply;
    StepKeepsSubs(s, step);
    if First(s.subs, i, ids) {
      StepLogs(s, step, i);
      assert FirstFed(s, i, ids);
      FirstMatch(s, step, i, ids);
      SelConcat(ids, Arrived(s, i), Adds(Arrival(s, step), i));
      if Passes(s, step, i) { SelConcat(ids, Passed(s, i), [s.broker.m]); }
    }
  }

  lemma StepKeepsChainFed(s: State, step: Step, i: nat, j: nat, ids: set<nat>)
    requires OrderInv(s) && Enabled(s, step) && !Resubscribes(step) && i < |s.subs| && j < |s.subs|
    ensures ChainFed(Apply(s, step), i, j, ids)
  {
    hide Apply;
    StepKeepsSubs(s, step);
    if Adjacent(s.subs, i, j, ids) {
      StepLogs(s, step, i);
      StepLogs(s, step, j);
      assert ChainFed(s, i, j, ids);
      ChainMatch(s, step, i, j, ids);
      SelConcat(ids, Arrived(s, j), Adds(Arrival(s, step), j));
      SelConcat(ids, s.handled[i], Adds(HandlerCall(s, step), i));
    }
  }

  lemma StepKeepsOrderInv(s: State, step: Step)
    requires OrderInv(s) && Enabled(s, step) && !Resubscribes(step)
    ensures OrderInv(Apply(s, step))
  {
    hide Apply;
    var s' := Apply(s, step);
    StepKeepsInv(s, step);
    if BrokerStep(step) {
      BrokerStepKeepsBrokerOrd(s, step);
    } else {
      OtherStepKeepsBrokerOrd(s, step);
    }
    forall i | 0 <= i < |s'.subs| ensures SubOrd(s', i) {
      StepKeepsSubOrd(s, step, i);
    }
    forall i, ids | 0 <= i < |s'.subs| ensures FirstFed(s', i, ids) {
      StepKeepsFirstFed(s, step, i, ids);
    }
    forall i, j, ids | 0 <= i < |s'.subs| && 0 <= j < |s'.subs| ensures ChainFed(s', i, j, ids) {
      StepKeepsChainFed(s, step, i, j, ids);
    }
  }
}
