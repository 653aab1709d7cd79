/** The bound on the reference count is reached: a run in which every queueing subscriber handles one
    message while the broker still holds it. So the hypothesis of 254 cannot be relaxed. */
module BoundReached {
  import opened Types
  import opened Protocol
  import opened Frames
  import opened RefCount
  import opened RefSafety
  import opened Logs
  import opened Order
  import opened Delivery
  import opened Transit
  import opened CountBound
  import opened Drain

  // ----- everybody subscribes -----

  ghost predicate AllTake(subs: seq<Sub>, id: nat) {
    forall i :: 0 <= i < |subs| && !subs[i].rxType.Callback? ==> subs[i].Wants(id)
  }

  /** The first k subscribers have subscribed to id 0. */
  function SubscribedTo(subs: seq<Sub>, k: nat): (r: seq<Sub>)
    requires k <= |subs|
    ensures |r| == |subs|
    ensures forall i :: 0 <= i < |subs| ==>
              r[i] == if i < k then subs[i].(subscribed := subs[i].subscribed + {0}) else subs[i]
  {
    seq(|subs|, i requires 0 <= i < |subs| =>
      if i < k then subs[i].(subscribed := subs[i].subscribed + {0}) else subs[i])
  }

  lemma SubscribedIsValid(subs: seq<Sub>, k: nat)
    requires ValidSubs(subs) && k <= |subs|
    ensures ValidSubs(SubscribedTo(subs, k)) && QueueSubs(SubscribedTo(subs, k)) == QueueSubs(subs)
  {
    assert TypesOf(SubscribedTo(subs, k)) == TypesOf(subs);
    assert Caps(SubscribedTo(subs, k)) == Caps(subs);
  }

  lemma SubscribeOne(subs: seq<Sub>, pool: set<Block>, k: nat)
    requires ValidSubs(subs) && k < |subs|
    requires ValidSubs(SubscribedTo(subs, k)) && ValidSubs(SubscribedTo(subs, k + 1))
    ensures var s := Init(SubscribedTo(subs, k), pool);
            Enabled(s, Subscribe(k, 0)) && Apply(s, Subscribe(k, 0)) == Init(SubscribedTo(subs, k + 1), pool)
  {
    var s, s' := Init(SubscribedTo(subs, k), pool), Init(SubscribedTo(subs, k + 1), pool);
    assert Apply(s, Subscribe(k, 0)).subs == s'.subs;
    assert s.q == s'.q && s.poll == s'.poll && s.direct == s'.direct && s.handled == s'.handled;
  }

  // ----- what the application retains along a run -----

  /** In no state of the run does the application hold more than r references to a message. */
  ghost predicate Retains(s: State, steps: seq<Step>, r: nat)
    requires Shaped(s) && IsRun(s, steps)
    decreases |steps|
  {
    (forall m :: s.user[m] <= r) && (steps != [] ==> Retains(Apply(s, steps[0]), steps[1..], r))
  }

  lemma {:induction false} RetainsConcat(s: State, a: seq<Step>, b: seq<Step>, r: nat)
    requires Shaped(s) && IsRun(s, a) && IsRun(Exec(s, a), b)
    requires Retains(s, a, r) && Retains(Exec(s, a), b, r)
    ensures IsRun(s, a + b) && Exec(s, a + b) == Exec(Exec(s, a), b) && Retains(s, a + b, r)
    decreases |a|
  {
    hide Apply, Enabled;
    RunConcat(s, a, b);
    if a == [] {
      assert a + b == b;
    } else {
      assert (a + b)[1..] == a[1..] + b;
      RetainsConcat(Apply(s, a[0]), a[1..], b, r);
    }
  }

  lemma RetainsOne(s: State, step: Step, r: nat)
    requires Shaped(s) && Enabled(s, step)
    requires forall m :: s.user[m] <= r && Apply(s, step).user[m] <= r
    ensures IsRun(s, [step]) && Exec(s, [step]) == Apply(s, step) && Retains(s, [step], r)
  {
    RunOne(s, step);
    assert [step][1..] == [];
    assert Retains(Apply(s, step), [], r);
  }

  lemma NobodySubscribed(subs: seq<Sub>, pool: set<Block>, r: nat)
    requires ValidSubs(subs)
    ensures Retains(Init(subs, pool), [], r) && SubscribedTo(subs, 0) == subs
    ensures forall m :: Init(subs, pool).user[m] <= r
  {
  }

  lemma {:induction false} SubscribeAll(subs: seq<Sub>, pool: set<Block>, k: nat, r: nat) returns (steps: seq<Step>)
    requires ValidSubs(subs) && k <= |subs|
    ensures ValidSubs(SubscribedTo(subs, k))
    ensures IsRun(Init(subs, pool), steps) && Retains(Init(subs, pool), steps, r)
    ensures Exec(Init(subs, pool), steps) == Init(SubscribedTo(subs, k), pool)
  {
    hide Apply, Enabled, ValidSubs, Init;
    SubscribedIsValid(subs, k);
    if k == 0 {
      NobodySubscribed(subs, pool, r);
      steps := [];
    } else {
      SubscribedIsValid(subs, k - 1);
      var before := SubscribeAll(subs, pool, k - 1, r);
      SubscribeOne(subs, pool, k - 1);
      var s := Init(SubscribedTo(subs, k - 1), pool);
      NobodySubscribed(SubscribedTo(subs, k - 1), pool, r);
      NobodySubscribed(SubscribedTo(subs, k), pool, r);
      RetainsOne(s, Subscribe(k - 1, 0), r);
      RetainsConcat(Init(subs, pool), before, [Subscribe(k - 1, 0)], r);
      steps := before + [Subscribe(k - 1, 0)];
    }
  }

  // ----- one message, handled by all at once -----

  /** A framework step that drops no reference. */
  ghost predicate Advances(step: Step) {
    || step.Take? || step.Lock? || step.Visit? || step.Put?
    || step.PollGet? || step.RelayLock? || step.RelayPut?
  }

  ghost predicate Busy(s: State, i: nat)
    requires Shaped(s) && i < |s.subs|
  {
    !s.subs[i].rxType.Callback? && s.poll[i].Ready? ==> s.handled[i] == []
  }

  /** m is the only message ever published, and no handler has returned. */
  ghost predicate Only(s: State, m: Msg) {
    && Shaped(s) && DeliveryInv(s) && TransitInv(s) && AllTake(s.subs, m.id)
    && Published(s) == [m] && s.sent == map[m := ToBroker] && s.user == multiset{}
    && (s.broker.Idle? ==> s.taken == [])
    && (forall i :: 0 <= i < |s.subs| ==> Busy(s, i))
  }

  lemma AdvanceKeepsBroker(s: State, step: Step)
    requires Shaped(s) && Enabled(s, step) && Advances(step)
    requires s.broker.Idle? ==> s.taken == []
    ensures Apply(s, step).broker.Idle? ==> Apply(s, step).taken == []
    ensures Apply(s, step).user == s.user
  {
    hide Apply;
    if BrokerStep(step) {
      BrokerFrame(s, step);
      match step
      case Take => TakePc(s);
      case Lock => LockPc(s);
      case Visit => VisitPc(s);
      case Put => PutPc(s);
    } else {
      PollerFrame(s, step);
    }
  }

  lemma AdvanceKeepsBusy(s: State, step: Step, i: nat)
    requires Shaped(s) && PcInv(s) && Enabled(s, step) && Advances(step) && i < |s.subs| && Busy(s, i)
    ensures Busy(Apply(s, step), i)
  {
    hide Apply, NextWanting;
    assert PollInv(s, i);
    match step
    case Take => TakeFrame(s);
    case Lock => LockFrame(s);
    case Visit => VisitFrame(s); VisitHandled(s, i);
    case Put => PutFrame(s); PutQueue(s);
    case PollGet(k) => PollGetFrame(s, k); PollGetPc(s, k);
    case RelayLock(k) => RelayLockFrame(s, k); RelayLockPc(s, k);
    case RelayPut(k) => RelayPutFrame(s, k); RelayPutPc(s, k);
  }

  lemma AdvanceKeepsOnly(s: State, step: Step, m: Msg)
    requires Only(s, m) && Enabled(s, step) && Advances(step)
    ensures Only(Apply(s, step), m)
  {
    var s' := Apply(s, step);
    StepKeepsDeliveryInv(s, step);
    StepKeepsTransitInv(s, step);
    StepKeepsSubs(s, step);
    SentSame(s, step);
    PublishedSame(s, step);
    AdvanceKeepsBroker(s, step);
    forall i | 0 <= i < |s'.subs| ensures Busy(s', i) { AdvanceKeepsBusy(s, step, i); }
    hide Apply, Enabled, DeliveryInv, TransitInv, Published, Busy;
  }

  /** All steps that drop no reference have been taken. */
  ghost predicate Halted(s: State)
    requires Shaped(s)
  {
    forall step :: Advances(step) ==> !Enabled(s, step)
  }

  lemma {:induction false} AdvanceAll(s: State, m: Msg, r: nat) returns (steps: seq<Step>)
    requires Only(s, m)
    ensures IsRun(s, steps) && Retains(s, steps, r)
    ensures Only(Exec(s, steps), m) && Halted(Exec(s, steps)) && Exec(s, steps).subs == s.subs
    decreases Work(s)
  {
    hide Apply, Enabled, DeliveryInv, TransitInv, Published, Busy;
    WorkIsNat(s);
    if step :| Advances(step) && Enabled(s, step) {
      assert Drains(step, {});
      AdvanceKeepsOnly(s, step, m);
      AdvanceWorks(s, step);
      StepKeepsSubs(s, step);
      var rest := AdvanceAll(Apply(s, step), m, r);
      steps := [step] + rest;
      assert steps[1..] == rest;
    } else {
      steps := [];
    }
  }

  lemma AdvanceWorks(s: State, step: Step)
    requires TransitInv(s) && Enabled(s, step) && Advances(step)
    ensures Work(Apply(s, step)) < Work(s) && !Resubscribes(step)
  {
    assert Drains(step, {});
    StepWorks(s, step, {});
  }

  lemma OnlyIsSent(s: State, k: nat, m: Msg, x: Msg)
    requires Only(s, m) && k < |s.subs| && x in Arrived(s, k)
    ensures x == m
  {
    assert MsgTransit(s, x);
    CountIn(Arrived(s, k), x);
    assert Times(s, k, x) > 0;
  }

  lemma HaltedAt(s: State, step: Step)
    requires Shaped(s) && Halted(s) && Advances(step)
    ensures !Enabled(s, step)
  {
  }

  lemma HaltedUnlocks(s: State, m: Msg)
    requires Only(s, m) && Halted(s)
    ensures s.mutex.Unowned?
  {
    hide Halted;
    HaltedAt(s, Visit);
    HaltedAt(s, Put);
    if s.mutex.ByPoller? {
      assert PollInv(s, s.mutex.i);
      HaltedAt(s, RelayPut(s.mutex.i));
    }
    if s.broker.Putting? { PutHasRoom(s, m); }
  }

  lemma PutHasRoom(s: State, m: Msg)
    requires Only(s, m) && s.broker.Putting?
    ensures s.broker.pos < |s.subs| && HasRoom(s, s.broker.pos)
  {
    var pos := s.broker.pos;
    PutTargetEmpty(s);
    OnlyBrokers(s, m);
    CountIn(Arrived(s, pos), m);
    if s.q[pos] != [] { OnlyIsSent(s, pos, m, s.q[pos][0]); }
  }

  lemma OnlyBrokers(s: State, m: Msg)
    requires Only(s, m) && !s.broker.Idle?
    ensures s.broker.m == m && s.pub == [] && s.taken == [m]
  {
    assert s.taken[|s.taken| - 1] == Published(s)[|s.taken| - 1];
    assert |s.taken| == 1 && |s.pub| == 0;
  }

  lemma HaltedBroker(s: State, m: Msg)
    requires Only(s, m) && Halted(s)
    ensures s.broker == Unlocked(m) && s.pub == [] && s.taken == [m]
  {
    hide Halted;
    HaltedUnlocks(s, m);
    HaltedAt(s, Take);
    HaltedAt(s, Lock);
    assert s.taken == [] ==> Published(s) == s.pub;
    OnlyBrokers(s, m);
  }

  /** A queueing subscriber that has got m is in its handler with it. */
  lemma HaltedHandles(s: State, i: nat, m: Msg)
    requires Only(s, m) && Halted(s) && i < |s.subs| && !s.subs[i].rxType.Callback? && m in Arrived(s, i)
    ensures s.poll[i] == Handling(m) && m in s.handled[i]
  {
    hide Halted;
    HaltedUnlocks(s, m);
    assert PollInv(s, i) && Busy(s, i) && HandlingInv(s, i);
    assert s.poll[i].Ready? ==> Arrived(s, i) == s.q[i];
    if s.poll[i].Handling? { OnlyIsSent(s, i, m, s.poll[i].m); }
    HaltedAt(s, PollGet(i));
    HaltedAt(s, RelayLock(i));
    HaltedAt(s, RelayPut(i));
  }

  lemma {:induction false} HaltedReaches(s: State, i: nat, m: Msg)
    requires Only(s, m) && Halted(s) && i < |s.subs| && !s.subs[i].rxType.Callback?
    ensures m in Arrived(s, i)
    decreases i
  {
    HaltedBroker(s, m);
    var ids := {m.id};
    if s.subs[i].rxType.Fifo? {
      var p := Feeder(s.subs, i, ids);
      FeederIsAdjacent(s.subs, i, ids);
      if p < 0 {
        assert FirstFed(s, i, ids);
        SelIn(ids, s.taken, m);
      } else {
        HaltedReaches(s, p, m);
        HaltedHandles(s, p, m);
        assert ChainFed(s, p, i, ids);
        SelIn(ids, s.handled[p], m);
      }
      SelIn(ids, Arrived(s, i), m);
    } else {
      assert SubOrd(s, i);
      SelIn(s.subs[i].Wanted(), s.taken, m);
      SelIn(s.subs[i].Wanted(), Arrived(s, i), m);
    }
  }

  /** Then the message has as many owners as the bound allows. */
  lemma HaltedOwners(s: State, m: Msg)
    requires Only(s, m) && Halted(s)
    ensures Owners(s, m) == 1 + QueueSubs(s.subs) && m in s.live
    ensures forall i :: 0 <= i < |s.subs| && !s.subs[i].rxType.Callback? ==> s.poll[i] == Handling(m)
  {
    HaltedBroker(s, m);
    forall i | 0 <= i < |s.subs| && !s.subs[i].rxType.Callback? ensures s.poll[i] == Handling(m) {
      HaltedReaches(s, i, m);
      HaltedHandles(s, i, m);
    }
    SumMono(Caps(s.subs), Shares(s, m));
    OwnersBound(s, m);
    assert MsgInv(s, m);
  }

  // ----- the whole run -----

  /** One message allocated and published to the broker. */
  lemma Publish1(subs: seq<Sub>, pool: set<Block>, b: Block, r: nat) returns (steps: seq<Step>)
    requires ValidSubs(subs) && AllTake(subs, 0) && b in pool && r >= 1
    ensures IsRun(Init(subs, pool), steps) && Retains(Init(subs, pool), steps, r)
    ensures Only(Exec(Init(subs, pool), steps), Msg(0, 0, b)) && Exec(Init(subs, pool), steps).subs == subs
  {
    hide Apply, DeliveryInv, TransitInv, Published, ValidSubs;
    PublishedIsOnly(subs, pool, b);
    var s0, m := Init(subs, pool), Msg(0, 0, b);
    InitDeliveryInv(subs, pool);
    InitTransitInv(subs, pool);
    var s1 := Apply(s0, New(0, b));
    var s2 := Apply(s1, Publish(m));
    RetainsOne(s0, New(0, b), r);
    RetainsOne(s1, Publish(m), r);
    RetainsConcat(s0, [New(0, b)], [Publish(m)], r);
    steps := [New(0, b)] + [Publish(m)];
    StepKeepsDeliveryInv(s0, New(0, b));
    StepKeepsTransitInv(s0, New(0, b));
    StepKeepsDeliveryInv(s1, Publish(m));
    StepKeepsTransitInv(s1, Publish(m));
  }

  lemma PublishedIsOnly(subs: seq<Sub>, pool: set<Block>, b: Block)
    requires ValidSubs(subs) && b in pool
    ensures var s0, m := Init(subs, pool), Msg(0, 0, b);
            && Enabled(s0, New(0, b))
            && var s1 := Apply(s0, New(0, b));
               && Enabled(s1, Publish(m))
               && var s2 := Apply(s1, Publish(m));
                  && Published(s2) == [m] && s2.sent == map[m := ToBroker] && s2.user == multiset{}
                  && s2.broker.Idle? && s2.taken == [] && s2.subs == subs
                  && (forall i :: 0 <= i < |subs| ==> s2.handled[i] == [])
    ensures Init(subs, pool).user == multiset{}
    ensures forall x :: Apply(Init(subs, pool), New(0, b)).user[x] <= 1
  {
  }

  /** A handler, or with no queueing subscriber the application, acquires n references. */
  lemma {:induction false} AcquireMany(s: State, m: Msg, holder: Holder, n: nat, r: nat) returns (steps: seq<Step>)
    requires TransitInv(s) && m in s.live && Enabled(s, Acquire(m, holder))
    requires (forall x :: x != m ==> s.user[x] <= r) && s.user[m] + n <= r
    ensures IsRun(s, steps) && Retains(s, steps, r)
    ensures TransitInv(Exec(s, steps)) && Owners(Exec(s, steps), m) == Owners(s, m) + n
    ensures Exec(s, steps).user[m] == s.user[m] + n && Exec(s, steps).subs == s.subs
    decreases n
  {
    if n == 0 {
      steps := [];
    } else {
      var step := Acquire(m, holder);
      var s' := Apply(s, step);
      AcquireOne(s, m, holder);
      StepKeepsTransitInv(s, step);
      OwnersOfStep(s, step, m);
      hide Apply, TransitInv;
      var rest := AcquireMany(s', m, holder, n - 1, r);
      steps := [step] + rest;
      assert steps[1..] == rest;
    }
  }

  lemma AcquireOne(s: State, m: Msg, holder: Holder)
    requires Shaped(s) && Enabled(s, Acquire(m, holder))
    ensures var s' := Apply(s, Acquire(m, holder));
            && Enabled(s', Acquire(m, holder)) && s'.user == s.user + multiset{m}
            && s'.live == s.live && s'.subs == s.subs
  {
  }

  /** With a queueing subscriber: everybody subscribes and handles one message, and then a handler
      acquires r references. */
  lemma BoundByHandler(subs: seq<Sub>, pool: set<Block>, i: nat, r: nat) returns (steps: seq<Step>, m: Msg)
    requires ValidSubs(subs) && pool != {} && r >= 1
    requires i < |subs| && !subs[i].rxType.Callback?
    ensures IsRun(Init(subs, pool), steps) && Retains(Init(subs, pool), steps, r)
    ensures var e := Exec(Init(subs, pool), steps);
            && TransitInv(e) && e.user[m] == r && Owners(e, m) == r + 1 + QueueSubs(e.subs)
            && QueueSubs(e.subs) == QueueSubs(subs)
  {
    hide Apply, Enabled, Retains, DeliveryInv, TransitInv, ValidSubs, Owners, Init;
    var b :| b in pool;
    m := Msg(0, 0, b);
    var all := SubscribedTo(subs, |subs|);
    SubscribedIsValid(subs, |subs|);
    SubscribedTakes(subs);
    var s0, s1 := Init(subs, pool), Init(all, pool);
    var first := SubscribeAll(subs, pool, |subs|, r);
    var publish := Publish1(all, pool, b, r);
    var s2 := Exec(s1, publish);
    var deliver := AdvanceAll(s2, m, r);
    var s3 := Exec(s2, deliver);
    HaltedOwners(s3, m);
    HandlerMayAcquire(s3, m, i);
    var acquire := AcquireMany(s3, m, InHandler(i), r, r);
    RetainsConcat(s2, deliver, acquire, r);
    RetainsConcat(s1, publish, deliver + acquire, r);
    RetainsConcat(s0, first, publish + (deliver + acquire), r);
    steps := first + (publish + (deliver + acquire));
  }

  lemma SubscribedTakes(subs: seq<Sub>)
    ensures AllTake(SubscribedTo(subs, |subs|), 0)
  {
  }

  lemma HandlerMayAcquire(s: State, m: Msg, i: nat)
    requires Only(s, m) && i < |s.subs| && s.poll[i] == Handling(m)
    ensures Enabled(s, Acquire(m, InHandler(i))) && s.user[m] == 0 && forall x :: s.user[x] == 0
  {
  }

  /** Without one: the application keeps a reference when it publishes ... */
  lemma KeepOne(subs: seq<Sub>, pool: set<Block>, b: Block, r: nat) returns (steps: seq<Step>)
    requires ValidSubs(subs) && b in pool && r >= 2
    ensures IsRun(Init(subs, pool), steps) && Retains(Init(subs, pool), steps, r)
    ensures var e, m := Exec(Init(subs, pool), steps), Msg(0, 0, b);
            && TransitInv(e) && e.user == multiset{m} && m in e.live && e.subs == subs
            && Owners(e, m) == 2
  {
    hide Apply, Enabled, Retains, DeliveryInv, TransitInv, ValidSubs, Owners, Init;
    var s0, m := Init(subs, pool), Msg(0, 0, b);
    PublishedWithRef(subs, pool, b);
    InitTransitInv(subs, pool);
    var s1 := Apply(s0, New(0, b));
    StepKeepsTransitInv(s0, New(0, b));
    var s2 := Apply(s1, Acquire(m, AsUser));
    StepKeepsTransitInv(s1, Acquire(m, AsUser));
    StepKeepsTransitInv(s2, Publish(m));
    OwnersWithRef(subs, pool, b);
    RetainsOne(s0, New(0, b), r);
    RetainsOne(s1, Acquire(m, AsUser), r);
    RetainsOne(s2, Publish(m), r);
    RetainsConcat(s1, [Acquire(m, AsUser)], [Publish(m)], r);
    RetainsConcat(s0, [New(0, b)], [Acquire(m, AsUser)] + [Publish(m)], r);
    steps := [New(0, b)] + ([Acquire(m, AsUser)] + [Publish(m)]);
  }

  lemma OwnersWithRef(subs: seq<Sub>, pool: set<Block>, b: Block)
    requires ValidSubs(subs) && b in pool
    requires var s0, m := Init(subs, pool), Msg(0, 0, b);
             && Enabled(s0, New(0, b))
             && var s1 := Apply(s0, New(0, b));
                && TransitInv(s1) && Enabled(s1, Acquire(m, AsUser))
                && var s2 := Apply(s1, Acquire(m, AsUser)); TransitInv(s2) && Enabled(s2, Publish(m))
    ensures var s0, m := Init(subs, pool), Msg(0, 0, b);
            Owners(Apply(Apply(Apply(s0, New(0, b)), Acquire(m, AsUser)), Publish(m)), m) == 2
  {
    var s0, m := Init(subs, pool), Msg(0, 0, b);
    InitTransitInv(subs, pool);
    NobodyOwns(subs, pool, m);
    assert s0.next == 0;
    var s1 := Apply(s0, New(0, b));
    var s2 := Apply(s1, Acquire(m, AsUser));
    hide Apply, Enabled, Owners, Init;
    OwnersOfStep(s0, New(0, b), m);
    OwnersOfStep(s1, Acquire(m, AsUser), m);
    OwnersOfStep(s2, Publish(m), m);
  }

  /** ... and acquires more. */
  lemma BoundByApplication(subs: seq<Sub>, pool: set<Block>, r: nat) returns (steps: seq<Step>, m: Msg)
    requires ValidSubs(subs) && pool != {} && r >= 2 && QueueSubs(subs) == 0
    ensures IsRun(Init(subs, pool), steps) && Retains(Init(subs, pool), steps, r)
    ensures var e := Exec(Init(subs, pool), steps);
            && TransitInv(e) && e.user[m] == r && Owners(e, m) == r + 1 + QueueSubs(e.subs)
            && QueueSubs(e.subs) == QueueSubs(subs)
  {
    var b :| b in pool;
    m := Msg(0, 0, b);
    var first := KeepOne(subs, pool, b, r);
    var s := Exec(Init(subs, pool), first);
    assert Enabled(s, Acquire(m, AsUser));
    hide Apply, Enabled, Retains, TransitInv, ValidSubs, Owners, Init;
    var rest := AcquireMany(s, m, AsUser, r - 1, r);
    RetainsConcat(Init(subs, pool), first, rest, r);
    steps := first + rest;
  }

  lemma NobodyOwns(subs: seq<Sub>, pool: set<Block>, m: Msg)
    requires ValidSubs(subs)
    ensures Owners(Init(subs, pool), m) == 0
  {
    SumZero(Shares(Init(subs, pool), m));
  }

  lemma NewHeld(s: State, b: Block)
    requires Shaped(s) && Enabled(s, New(0, b))
    ensures var s', m := Apply(s, New(0, b)), Msg(s.next, 0, b);
            s'.user == s.user + multiset{m} && s'.live == s.live + {m} && s'.sent == s.sent
  {
  }

  lemma PublishedWithRef(subs: seq<Sub>, pool: set<Block>, b: Block)
    requires ValidSubs(subs) && b in pool
    ensures var s0, m := Init(subs, pool), Msg(0, 0, b);
            && s0.user == multiset{} && Enabled(s0, New(0, b))
            && var s1 := Apply(s0, New(0, b));
               && s1.user == multiset{m} && Enabled(s1, Acquire(m, AsUser))
               && var s2 := Apply(s1, Acquire(m, AsUser));
                  && s2.user == multiset{m, m} && Enabled(s2, Publish(m))
                  && var s3 := Apply(s2, Publish(m));
                     s3.user == multiset{m} && m in s3.live && s3.subs == subs
  {
    var s0, m := Init(subs, pool), Msg(0, 0, b);
    var s1 := Apply(s0, New(0, b));
    NewHeld(s0, b);
    NewFrame(s0, 0, b);
    var s2 := Apply(s1, Acquire(m, AsUser));
    AcquireOne(s1, m, AsUser);
    AcquireFrame(s1, m, AsUser);
    PublishUser(s2, m);
    PublishFrame(s2, m);
    hide Apply;
  }

  /** The bound of CountBound is reached, for every list and any number of retained references. */
  lemma BoundIsReached(subs: seq<Sub>, pool: set<Block>, r: nat) returns (steps: seq<Step>, m: Msg)
    requires ValidSubs(subs) && pool != {} && r >= 1 && r + QueueSubs(subs) >= 2
    ensures IsRun(Init(subs, pool), steps) && Retains(Init(subs, pool), steps, r)
    ensures var e := Exec(Init(subs, pool), steps);
            && TransitInv(e) && e.user[m] == r && Owners(e, m) == r + 1 + QueueSubs(e.subs)
            && QueueSubs(e.subs) == QueueSubs(subs)
  {
    if i :| 0 <= i < |subs| && !subs[i].rxType.Callback? {
      steps, m := BoundByHandler(subs, pool, i, r);
    } else {
      SumZero(Caps(subs));
      steps, m := BoundByApplication(subs, pool, r);
    }
  }

  // ----- the hypothesis of 254 is exact -----

  /** No assertion on a reference count fails along the run. */
  ghost predicate AllInRange(s: State, steps: seq<Step>)
    requires Shaped(s) && IsRun(s, steps)
    decreases |steps|
  {
    steps != [] ==> CountAssertsHold(s, steps[0]) && AllInRange(Apply(s, steps[0]), steps[1..])
  }

  lemma StepStaysInByte(s: State, step: Step, m: Msg)
    requires TransitInv(s) && Enabled(s, step) && CountAssertsHold(s, step) && Owners(s, m) <= UINT8_MAX
    ensures Owners(Apply(s, step), m) <= UINT8_MAX
  {
    OwnersOfStep(s, step, m);
    DeltaFits(s, step, m);
    hide Apply, Enabled, Owners, Delta;
  }

  lemma DeltaFits(s: State, step: Step, m: Msg)
    requires TransitInv(s) && Enabled(s, step) && CountAssertsHold(s, step) && Owners(s, m) <= UINT8_MAX
    ensures Owners(s, m) + Delta(s, step, m) <= UINT8_MAX
  {
    hide Owners, MsgTransit, PcInv;
    assert MsgInv(s, m);
    if Touched(s, step).Some? {
      if m != Touched(s, step).value { OnlyTouchedMoves(s, step, m); }
    } else if !step.New? && !step.Free? {
      UntouchedKeepsOwners(s, step, m);
    }
  }

  lemma {:induction false} RunStaysInByte(s: State, steps: seq<Step>, m: Msg)
    requires TransitInv(s) && IsRun(s, steps) && AllInRange(s, steps) && Owners(s, m) <= UINT8_MAX
    ensures Owners(Exec(s, steps), m) <= UINT8_MAX
    decreases |steps|
  {
    hide Apply, Enabled, Owners, CountAssertsHold;
    if steps != [] {
      StepStaysInByte(s, steps[0], m);
      StepKeepsTransitInv(s, steps[0]);
      RunStaysInByte(Apply(s, steps[0]), steps[1..], m);
    }
  }

  lemma {:induction false} RetainedStaysInRange(s: State, steps: seq<Step>, r: nat)
    requires TransitInv(s) && IsRun(s, steps) && Retains(s, steps, r) && r + QueueSubs(s.subs) <= UINT8_MAX - 1
    ensures AllInRange(s, steps)
    decreases |steps|
  {
    hide Apply, Enabled, CountAssertsHold, QueueSubs;
    if steps != [] {
      assert Retains(Apply(s, steps[0]), steps[1..], r);
      CountStaysInRange(s, steps[0]);
      StepKeepsTransitInv(s, steps[0]);
      QueueSubsSame(s, steps[0]);
      RetainedStaysInRange(Apply(s, steps[0]), steps[1..], r);
    }
  }

  /** While the application retains at most r references to each message, no assertion on a reference
      count can fail in any run, if and only if r and the queueing subscribers together are at most
      254. */
  lemma CountFitsIff(subs: seq<Sub>, pool: set<Block>, r: nat)
    requires ValidSubs(subs) && pool != {} && r >= 1
    ensures (forall steps {:trigger IsRun(Init(subs, pool), steps)} ::
               IsRun(Init(subs, pool), steps) && Retains(Init(subs, pool), steps, r) ==>
                 AllInRange(Init(subs, pool), steps))
            <==> r + QueueSubs(subs) <= UINT8_MAX - 1
  {
    hide Retains, AllInRange, TransitInv, Owners, QueueSubs, ValidSubs;
    var s0 := Init(subs, pool);
    InitTransitInv(subs, pool);
    if r + QueueSubs(subs) <= UINT8_MAX - 1 {
      forall steps | IsRun(s0, steps) && Retains(s0, steps, r) ensures AllInRange(s0, steps) {
        RetainedStaysInRange(s0, steps, r);
      }
    } else {
      var steps, m := BoundIsReached(subs, pool, r);
      NobodyOwns(subs, pool, m);
      if AllInRange(s0, steps) { RunStaysInByte(s0, steps, m); }
    }
  }
}
