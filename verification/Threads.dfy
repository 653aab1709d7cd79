/** One thread may poll several subscribers. It handles one message at a time, so while it waits to relay a
    message of one subscriber it does not empty the queues of the others; exactly when that can deadlock. */
module Threads {
  import opened Types
  import opened Protocol
  import opened Frames
  import opened RefCount
  import opened RefSafety
  import opened Logs
  import opened Order
  import opened Delivery
  import opened Lifetime
  import opened Transit
  import opened OnTheWay
  import opened Completion
  import opened CountBound
  import opened Drain

  /** threads[i] polls subscriber i. It takes the next message when it has handled the last. */
  ghost predicate MayRun(s: State, threads: seq<nat>, step: Step)
    requires Shaped(s) && |threads| == |s.subs| && Enabled(s, step)
  {
    step.PollGet? ==>
      forall j :: 0 <= j < |s.subs| && threads[j] == threads[step.i] ==> s.poll[j].Ready?
  }

  ghost predicate ThreadRun(s: State, threads: seq<nat>, steps: seq<Step>)
    requires Shaped(s) && |threads| == |s.subs| && IsRun(s, steps)
    decreases |steps|
  {
    steps != [] ==> MayRun(s, threads, steps[0]) && ThreadRun(Apply(s, steps[0]), threads, steps[1..])
  }

  /** No thread of the framework can do anything. */
  ghost predicate Blocked(s: State, threads: seq<nat>)
    requires Shaped(s) && |threads| == |s.subs|
  {
    forall step :: Drains(step, {}) && Enabled(s, step) ==> !MayRun(s, threads, step)
  }

  /** No thread polls a fifo subscriber together with a msgq subscriber whose queue the pool can overfill. */
  predicate Apart(subs: seq<Sub>, threads: seq<nat>, blocks: nat)
    requires |threads| == |subs|
  {
    forall i, j :: 0 <= i < |subs| && 0 <= j < |subs| && threads[i] == threads[j] ==>
      !(subs[i].rxType.Msgq? && subs[j].rxType.Fifo? && subs[i].capacity < blocks)
  }

  // ----- the pool a full queue needs -----

  function Elements(log: seq<Msg>): set<Msg> {
    set m | m in log
  }

  lemma {:induction false} ElementsOnce(log: seq<Msg>)
    requires forall m :: Count(log, m) <= 1
    ensures |Elements(log)| == |log|
    decreases |log|
  {
    if log != [] {
      var last := |log| - 1;
      forall m ensures Count(log[..last], m) <= 1 { assert Count(log, m) <= 1; }
      ElementsOnce(log[..last]);
      CountIn(log[..last], log[last]);
      assert Count(log, log[last]) <= 1;
      assert log == log[..last] + [log[last]];
      assert Elements(log) == Elements(log[..last]) + {log[last]};
    }
  }

  lemma {:induction false} BlocksOnce(s: State, ms: set<Msg>)
    requires Separate(s) && ms <= s.live
    ensures |Blocks(ms)| == |ms|
    decreases |ms|
  {
    if m :| m in ms {
      BlocksOnce(s, ms - {m});
      assert Blocks(ms) == Blocks(ms - {m}) + {m.block};
    } else {
      assert Blocks(ms) == {};
    }
  }

  lemma SubsetSize(a: set<Block>, b: set<Block>)
    requires a <= b
    ensures |a| <= |b|
  {
    assert b == a + (b - a);
  }

  lemma QueuedIsLive(s: State, i: nat, m: Msg)
    requires Inv(s) && i < |s.subs| && m in s.q[i]
    ensures m in s.live
  {
    NoUseAfterFree(s, m);
  }

  /** A msgq that is full while the broker has one more message to put into it. */
  lemma FullNeedsBlocks(s: State, i: nat)
    requires TransitInv(s) && s.broker.Putting? && s.broker.pos == i
    requires i < |s.subs| && s.subs[i].capacity <= |s.q[i]|
    ensures |s.pool| > s.subs[i].capacity
  {
    TransitParts(s);
    var m, queued := s.broker.m, Elements(s.q[i]);
    PutTargetEmpty(s);
    ArrivedParts(s, i, m);
    CountIn(s.q[i], m);
    NoUseAfterFree(s, m);
    forall x ensures Count(s.q[i], x) <= 1 { QueuedIsOnce(s, i, x); }
    ElementsOnce(s.q[i]);
    forall x | x in queued ensures x in s.live { QueuedIsLive(s, i, x); }
    hide TransitInv, Inv, Count;
    LiveFits(s, queued + {m});
  }

  lemma LiveFits(s: State, ms: set<Msg>)
    requires Inv(s) && ms <= s.live
    ensures |ms| <= |s.pool|
  {
    BlocksOnce(s, ms);
    assert Blocks(ms) <= Blocks(s.live) <= s.pool;
    SubsetSize(Blocks(ms), s.pool);
  }

  // ----- no deadlock -----

  /** The broker faces a full msgq: its thread can take a message from it, or has something else to do. */
  lemma FullMoves(s: State, threads: seq<nat>, i: nat) returns (step: Step)
    requires TransitInv(s) && |threads| == |s.subs| && Apart(s.subs, threads, |s.pool|)
    requires s.broker.Putting? && s.broker.pos == i && i < |s.subs| && !HasRoom(s, i)
    ensures Drains(step, {}) && Enabled(s, step) && MayRun(s, threads, step)
  {
    TransitParts(s);
    FullNeedsBlocks(s, i);
    assert s.mutex == ByBroker;
    hide TransitInv, RefInv;
    if j :| 0 <= j < |s.subs| && threads[j] == threads[i] && !s.poll[j].Ready? {
      assert PollInv(s, j);
      step := Return(j);
    } else {
      assert PollInv(s, i);
      step := PollGet(i);
    }
  }

  lemma PollerMoves(s: State, threads: seq<nat>) returns (step: Step)
    requires Inv(s) && |threads| == |s.subs| && s.mutex.Unowned?
    requires exists i :: 0 <= i < |s.subs| && (s.q[i] != [] || !s.poll[i].Ready?)
    ensures Drains(step, {}) && Enabled(s, step) && MayRun(s, threads, step)
  {
    if j :| 0 <= j < |s.subs| && !s.poll[j].Ready? {
      assert PollInv(s, j);
      step := if s.poll[j].Got? then RelayLock(j) else Return(j);
    } else {
      var i :| 0 <= i < |s.subs| && s.q[i] != [];
      assert PollInv(s, i);
      step := PollGet(i);
    }
  }

  /** Apart from that situation, unless everything has been delivered some thread can take a step. */
  lemma SomeThreadRuns(s: State, threads: seq<nat>) returns (step: Step)
    requires TransitInv(s) && |threads| == |s.subs| && Apart(s.subs, threads, |s.pool|) && !Quiet(s, {})
    ensures Drains(step, {}) && Enabled(s, step) && MayRun(s, threads, step)
  {
    TransitParts(s);
    hide TransitInv, RefInv, Apart;
    if s.dying != {} {
      var m :| m in s.dying;
      step := Free(m);
    } else if s.mutex.ByPoller? {
      assert PollInv(s, s.mutex.i);
      step := RelayPut(s.mutex.i);
    } else if s.broker.Visiting? {
      step := Visit;
    } else if s.broker.Putting? {
      if HasRoom(s, s.broker.pos) { step := Put; } else { step := FullMoves(s, threads, s.broker.pos); }
    } else if s.broker.Taken? {
      step := Lock;
    } else if s.broker.Unlocked? {
      step := Finish;
    } else if s.pub != [] {
      step := Take;
    } else {
      step := PollerMoves(s, threads);
    }
  }

  lemma BlockedIsQuiet(s: State, threads: seq<nat>)
    requires TransitInv(s) && |threads| == |s.subs| && Apart(s.subs, threads, |s.pool|) && Blocked(s, threads)
    ensures Quiet(s, {})
  {
    if !Quiet(s, {}) {
      var step := SomeThreadRuns(s, threads);
    }
  }

  // ----- the deadlock -----

  /** Only i and j take id 0, and only messages of that id have been published, all of them to the broker;
      no thread has done anything, except that j's may hold one of them, waiting to relay it. */
  ghost predicate Filling(s: State, i: nat, j: nat) {
    && TransitInv(s) && i < |s.subs| && j < |s.subs|
    && s.subs[i].rxType.Msgq? && s.subs[j].rxType.Fifo? && |s.q[i]| <= s.subs[i].capacity
    && s.user == multiset{} && s.handled[i] == [] && s.handled[j] == []
    && (forall k :: 0 <= k < |s.subs| ==> s.poll[k].Ready? || (k == j && s.poll[k].Got?))
    && (forall m :: m in s.sent ==> m.id == 0 && m.serial < s.next)
    && (forall m :: m in s.live ==> m in s.sent)
    && (forall k :: 0 <= k < |s.subs| ==> (s.subs[k].Wants(0) <==> k == i || k == j))
    && (forall m :: m in s.sent ==> Owed(s, i, m) && Owed(s, j, m))
    && (forall k, m :: 0 <= k < |s.subs| && k != i && k != j ==> !Owed(s, k, m))
  }

  lemma FillingParts(s: State, i: nat, j: nat)
    requires Filling(s, i, j)
    ensures TransitInv(s) && Inv(s) && i < |s.subs| && j < |s.subs| && i != j
  {
    TransitParts(s);
    hide TransitInv, Inv, Owed;
  }

  lemma HereIsSent(s: State, k: nat, m: Msg)
    requires TransitInv(s) && k < |s.subs| && Times(s, k, m) > 0
    ensures m in s.sent
  {
    assert MsgTransit(s, m);
  }

  lemma NobodyRelays(s: State, i: nat, j: nat)
    requires Filling(s, i, j)
    ensures !s.mutex.ByPoller?
  {
    TransitParts(s);
    if s.mutex.ByPoller? { HolderRelays(s); }
    hide TransitInv;
  }

  /** Nothing has been given back. */
  lemma NothingDies(s: State, i: nat, j: nat)
    requires Filling(s, i, j)
    ensures s.dying == {}
  {
    FillingParts(s, i, j);
    if m :| m in s.dying {
      assert MsgInv(s, m);
      UnownedIsAtRest(s, m);
      OwedIsHandled(s, i, m);
    }
  }

  /** A queue with something in it is that of i or j. */
  lemma OnlyTheirs(s: State, i: nat, j: nat, k: nat)
    requires Filling(s, i, j) && k < |s.subs| && s.q[k] != []
    ensures k == i || k == j
  {
    var m := s.q[k][0];
    CountIn(Arrived(s, k), m);
    assert m in Arrived(s, k);
    assert Owed(s, k, m);
    hide TransitInv, Times;
  }

  // ----- the broker's steps keep it -----

  lemma BrokerKeepsQueue(s: State, step: Step, i: nat)
    requires Shaped(s) && Enabled(s, step) && BrokerStep(step) && i < |s.subs| && s.subs[i].rxType.Msgq?
    requires |s.q[i]| <= s.subs[i].capacity
    ensures |Apply(s, step).q[i]| <= s.subs[i].capacity && Apply(s, step).handled[i] == s.handled[i]
  {
    hide Apply;
    match step
    case Take => TakeFrame(s);
    case Lock => LockFrame(s);
    case Visit => VisitFrame(s); VisitHandled(s, i);
    case Put => PutQueue(s);
    case Finish => FinishFrame(s);
  }

  lemma BrokerKeepsHandled(s: State, step: Step, j: nat)
    requires Shaped(s) && Enabled(s, step) && BrokerStep(step) && j < |s.subs| && s.subs[j].rxType.Fifo?
    ensures Apply(s, step).handled[j] == s.handled[j]
  {
    hide Apply;
    match step
    case Take => TakeFrame(s);
    case Lock => LockFrame(s);
    case Visit => VisitHandled(s, j);
    case Put => PutQueue(s);
    case Finish => FinishFrame(s);
  }

  lemma BrokerKeepsFilling(s: State, step: Step, i: nat, j: nat)
    requires Filling(s, i, j) && Enabled(s, step) && BrokerStep(step)
    ensures Filling(Apply(s, step), i, j)
    ensures var s' := Apply(s, step);
            s'.free == s.free && s'.poll == s.poll && s'.subs == s.subs && s'.sent == s.sent
  {
    hide Apply, Enabled, TransitInv, Owed;
    FillingParts(s, i, j);
    var s' := Apply(s, step);
    StepKeepsTransitInv(s, step);
    BrokerFrame(s, step);
    BrokerKeepsQueue(s, step, i);
    BrokerKeepsHandled(s, step, j);
    forall k, m | 0 <= k < |s.subs| ensures Owed(s', k, m) <==> Owed(s, k, m) { StepKeepsOwed(s, step, k, m); }
  }

  lemma BrokerCanStep(s: State, i: nat, j: nat) returns (step: Step)
    requires Filling(s, i, j) && !(s.broker.Idle? && s.pub == [])
    requires !(s.broker.Putting? && s.broker.pos < |s.subs| && !HasRoom(s, s.broker.pos))
    ensures BrokerStep(step) && Enabled(s, step) && Drains(step, {})
  {
    FillingParts(s, i, j);
    NobodyRelays(s, i, j);
    hide Filling, TransitInv, RefInv;
    assert s.broker.Taken? ==> s.mutex.Unowned?;
    assert s.broker.Putting? ==> s.broker.pos < |s.subs| && HasRoom(s, s.broker.pos);
    hide Filling, Inv, HasRoom, TransitInv;
    match s.broker
    case Idle => step := Take;
    case Taken(_) => step := Lock;
    case Visiting(_, _) => step := Visit;
    case Putting(_, _) => step := Put;
    case Unlocked(_) => step := Finish;
  }

  /** The broker goes on until it has nothing to do, or faces the full queue of i. */
  lemma {:induction false} BrokerRuns(s: State, threads: seq<nat>, i: nat, j: nat) returns (steps: seq<Step>)
    requires Filling(s, i, j) && |threads| == |s.subs|
    ensures IsRun(s, steps) && ThreadRun(s, threads, steps)
    ensures var e := Exec(s, steps);
            && Filling(e, i, j) && e.free == s.free && e.poll == s.poll && e.subs == s.subs && e.sent == s.sent
            && ((e.broker.Idle? && e.pub == []) || FacesFull(e, i))
    decreases Work(s)
  {
    FillingParts(s, i, j);
    WorkIsNat(s);
    hide Apply, Enabled, Filling, TransitInv, Inv;
    if s.broker.Idle? && s.pub == [] {
      steps := [];
    } else if s.broker.Putting? && s.broker.pos < |s.subs| && !HasRoom(s, s.broker.pos) {
      FullIsTheirs(s, i, j);
      steps := [];
    } else {
      var step := BrokerCanStep(s, i, j);
      BrokerKeepsFilling(s, step, i, j);
      StepWorks(s, step, {});
      var rest := BrokerRuns(Apply(s, step), threads, i, j);
      steps := [step] + rest;
      assert steps[1..] == rest;
    }
  }

  ghost predicate FacesFull(s: State, i: nat)
    requires Shaped(s)
  {
    s.broker.Putting? && s.broker.pos == i && i < |s.subs| && !HasRoom(s, i)
  }

  lemma FullIsTheirs(s: State, i: nat, j: nat)
    requires Filling(s, i, j) && s.broker.Putting? && s.broker.pos < |s.subs| && !HasRoom(s, s.broker.pos)
    ensures FacesFull(s, i)
  {
    FillingParts(s, i, j);
    assert s.subs[s.broker.pos].capacity >= 1;
    OnlyTheirs(s, i, j, s.broker.pos);
    hide Filling, TransitInv, Inv;
  }

  lemma OneThreadStep(s: State, threads: seq<nat>, step: Step)
    requires Shaped(s) && |threads| == |s.subs| && Enabled(s, step) && MayRun(s, threads, step)
    ensures IsRun(s, [step]) && ThreadRun(s, threads, [step]) && Exec(s, [step]) == Apply(s, step)
    ensures |Apply(s, step).subs| == |s.subs|
  {
    RunOne(s, step);
    assert [step][1..] == [] && ThreadRun(Apply(s, step), threads, []);
    hide Apply, Enabled, MayRun;
  }

  // ----- one more message -----

  lemma IdleQueueHolds(s: State, i: nat, j: nat, m: Msg)
    requires Filling(s, i, j) && s.broker.Idle? && s.pub == [] && m in s.sent
    ensures m in s.q[i]
  {
    FillingParts(s, i, j);
    NobodyRelays(s, i, j);
    var types := TypesOf(s.subs);
    forall k | 0 <= k < i ensures !s.subs[k].rxType.Fifo? { assert Rank(types[k]) <= Rank(types[i]); }
    assert !Upstream(s, i, m);
    CountIn(Arrived(s, i), m);
    hide TransitInv, Upstream, Inv;
  }

  lemma FreeBlock(s: State, i: nat, j: nat) returns (b: Block)
    requires Filling(s, i, j) && s.broker.Idle? && s.pub == [] && |s.pool| > s.subs[i].capacity
    ensures b in s.free
  {
    FillingParts(s, i, j);
    forall m | m in s.live ensures m in s.q[i] { IdleQueueHolds(s, i, j, m); }
    forall x ensures Count(s.q[i], x) <= 1 { QueuedIsOnce(s, i, x); }
    ElementsOnce(s.q[i]);
    hide TransitInv, Count, Owed, PcInv;
    MsgsFit(s.live, Elements(s.q[i]));
    BlocksOnce(s, s.live);
    UnionSize(s.free, Blocks(s.live));
    b :| b in s.free;
  }

  lemma UnionSize(a: set<Block>, b: set<Block>)
    ensures |a + b| <= |a| + |b|
  {
    assert a + b == a + (b - a);
    SubsetSize(b - a, b);
  }

  lemma MsgsFit(a: set<Msg>, b: set<Msg>)
    requires a <= b
    ensures |a| <= |b|
  {
    assert b == a + (b - a);
  }

  lemma NewAndPublish(s: State, b: Block)
    requires Shaped(s) && b in s.free && s.user == multiset{} && Msg(s.next, 0, b) !in s.sent
    ensures Enabled(s, New(0, b))
    ensures var m, s1 := Msg(s.next, 0, b), Apply(s, New(0, b));
            && Enabled(s1, Publish(m))
            && var s2 := Apply(s1, Publish(m));
               && s1.subs == s.subs && s2.subs == s.subs && s2.user == multiset{} && s2.pub == s.pub + [m]
               && s2.q == s.q && s2.poll == s.poll && s2.handled == s.handled && s2.broker == s.broker
               && s2.sent == s.sent[m := ToBroker] && s2.live == s.live + {m} && s2.next == s.next + 1
               && s2.free == s.free - {b} && s2.pool == s.pool
  {
  }

  lemma RoundKeepsOwed(s: State, b: Block, k: nat, x: Msg)
    requires TransitInv(s) && b in s.free && s.user == multiset{} && Msg(s.next, 0, b) !in s.sent && k < |s.subs|
    requires Enabled(s, New(0, b)) && Enabled(Apply(s, New(0, b)), Publish(Msg(s.next, 0, b)))
    ensures var m, s1 := Msg(s.next, 0, b), Apply(s, New(0, b));
            var s2 := Apply(s1, Publish(m));
            && TransitInv(s2) && |s2.subs| == |s.subs|
            && (x != m ==> (Owed(s2, k, x) <==> Owed(s, k, x)))
            && (Owed(s2, k, m) <==> s2.subs[k].Wants(0))
  {
    TransitParts(s);
    hide Apply, Enabled, TransitInv, Owed, Inv;
    var m, s1 := Msg(s.next, 0, b), Apply(s, New(0, b));
    StepKeepsTransitInv(s, New(0, b));
    TransitParts(s1);
    SubsFrame(s, New(0, b));
    StepKeepsOwed(s, New(0, b), k, x);
    if x != m { StepKeepsOwed(s1, Publish(m), k, x); }
    PublishOwes(s1, m, k);
  }

  lemma PublishOwes(s: State, m: Msg, k: nat)
    requires TransitInv(s) && Enabled(s, Publish(m)) && k < |s.subs|
    ensures var s' := Apply(s, Publish(m));
            TransitInv(s') && |s'.subs| == |s.subs| && (Owed(s', k, m) <==> s'.subs[k].Wants(m.id))
  {
    StepKeepsTransitInv(s, Publish(m));
    PublishSends(s, m);
    PublishFrame(s, m);
    PublishedWaits(s, m);
    hide Apply, Enabled, TransitInv, Owed;
    WaitingIsOwed(Apply(s, Publish(m)), k, m);
  }

  /** One more message of id 0 is with the broker. */
  ghost predicate OneMoreSent(s: State, s': State, m: Msg) {
    && s'.subs == s.subs && s'.user == multiset{} && s'.q == s.q && s'.poll == s.poll && s'.handled == s.handled
    && s'.sent == s.sent[m := ToBroker] && s'.live == s.live + {m} && s'.next == s.next + 1
  }

  lemma FillingGrows(s: State, s': State, m: Msg, i: nat, j: nat)
    requires Filling(s, i, j) && TransitInv(s') && OneMoreSent(s, s', m) && m.id == 0 && m.serial == s.next
    requires forall k :: 0 <= k < |s.subs| ==> (Owed(s', k, m) <==> k == i || k == j)
    requires forall k, x :: 0 <= k < |s.subs| && x != m ==> (Owed(s', k, x) <==> Owed(s, k, x))
    ensures Filling(s', i, j)
  {
    hide TransitInv, Owed;
  }

  lemma RoundKeepsFilling(s: State, b: Block, i: nat, j: nat)
    requires Filling(s, i, j) && b in s.free
    ensures var m, s1 := Msg(s.next, 0, b), Apply(s, New(0, b));
            && Enabled(s, New(0, b)) && Enabled(s1, Publish(m)) && s1.subs == s.subs
            && var s2 := Apply(s1, Publish(m));
               && Filling(s2, i, j) && s2.free == s.free - {b} && s2.poll == s.poll && s2.subs == s.subs
               && s2.pool == s.pool && s2.sent == s.sent[m := ToBroker]
  {
    FillingParts(s, i, j);
    var m := Msg(s.next, 0, b);
    assert m !in s.sent && s.user == multiset{};
    assert forall k :: 0 <= k < |s.subs| ==> (s.subs[k].Wants(0) <==> k == i || k == j);
    hide Filling, TransitInv, Owed, Inv;
    NewAndPublish(s, b);
    var s2 := Apply(Apply(s, New(0, b)), Publish(m));
    hide Apply, Enabled;
    assert OneMoreSent(s, s2, m);
    hide OneMoreSent;
    RoundKeepsOwed(s, b, i, m);
    forall k | 0 <= k < |s.subs| ensures Owed(s2, k, m) <==> k == i || k == j { RoundKeepsOwed(s, b, k, m); }
    forall k, x | 0 <= k < |s.subs| && x != m ensures Owed(s2, k, x) <==> Owed(s, k, x) {
      RoundKeepsOwed(s, b, k, x);
    }
    FillingGrows(s, s2, m, i, j);
  }

  lemma Round(s: State, threads: seq<nat>, i: nat, j: nat) returns (steps: seq<Step>, m: Msg)
    requires Filling(s, i, j) && |threads| == |s.subs|
    requires s.broker.Idle? && s.pub == [] && |s.pool| > s.subs[i].capacity
    ensures IsRun(s, steps) && ThreadRun(s, threads, steps)
    ensures var e := Exec(s, steps);
            && Filling(e, i, j) && e.free < s.free && e.poll == s.poll && e.subs == s.subs && e.pool == s.pool
            && e.sent == s.sent[m := ToBroker]
  {
    var b := FreeBlock(s, i, j);
    RoundKeepsFilling(s, b, i, j);
    hide Apply, Enabled, Filling;
    m := Msg(s.next, 0, b);
    var s1 := Apply(s, New(0, b));
    OneThreadStep(s, threads, New(0, b));
    OneThreadStep(s1, threads, Publish(m));
    ThreadRunConcat(s, threads, [New(0, b)], [Publish(m)]);
    steps := [New(0, b)] + [Publish(m)];
  }

  /** j's thread takes a message and waits to relay it; further messages fill the queue of i. */
  lemma {:induction false} FillUp(s: State, threads: seq<nat>, i: nat, j: nat) returns (steps: seq<Step>)
    requires Filling(s, i, j) && s.poll[j].Got? && |threads| == |s.subs|
    requires (s.broker.Idle? && s.pub == []) || FacesFull(s, i)
    requires |s.pool| > s.subs[i].capacity
    ensures IsRun(s, steps) && ThreadRun(s, threads, steps)
    ensures var e := Exec(s, steps);
            Filling(e, i, j) && FacesFull(e, i) && e.poll == s.poll && e.subs == s.subs
    decreases |s.free|
  {
    FillingParts(s, i, j);
    hide Apply, Enabled, Filling, TransitInv, PcInv, RefInv;
    if FacesFull(s, i) {
      steps := [];
    } else {
      var first, _ := Round(s, threads, i, j);
      var s1 := Exec(s, first);
      var more := BrokerRuns(s1, threads, i, j);
      var s2 := Exec(s1, more);
      BrokerKeepsPool(s1, more);
      SmallerSet(s1.free, s.free);
      var rest := FillUp(s2, threads, i, j);
      ThreadRunConcat(s1, threads, more, rest);
      ThreadRunConcat(s, threads, first, more + rest);
      steps := first + (more + rest);
    }
  }

  lemma SmallerSet(a: set<Block>, b: set<Block>)
    requires a < b
    ensures |a| < |b|
  {
    assert b == a + (b - a) && b - a != {};
  }

  lemma {:induction false} BrokerKeepsPool(s: State, steps: seq<Step>)
    requires Shaped(s) && IsRun(s, steps)
    ensures Exec(s, steps).pool == s.pool && |Exec(s, steps).subs| == |s.subs|
    decreases |steps|
  {
    hide Apply, Enabled;
    if steps != [] {
      PoolSame(s, steps[0]);
      SubsFrame(s, steps[0]);
      BrokerKeepsPool(Apply(s, steps[0]), steps[1..]);
    }
  }

  lemma {:induction false} ThreadRunConcat(s: State, threads: seq<nat>, a: seq<Step>, b: seq<Step>)
    requires Shaped(s) && |threads| == |s.subs| && IsRun(s, a) && IsRun(Exec(s, a), b)
    requires |Exec(s, a).subs| == |s.subs| && ThreadRun(s, threads, a) && ThreadRun(Exec(s, a), threads, b)
    ensures IsRun(s, a + b) && Exec(s, a + b) == Exec(Exec(s, a), b) && ThreadRun(s, threads, a + b)
    decreases |a|
  {
    hide Apply, Enabled, MayRun;
    RunConcat(s, a, b);
    if a == [] {
      assert a + b == b;
    } else {
      SubsFrame(s, a[0]);
      assert (a + b)[1..] == a[1..] + b;
      ThreadRunConcat(Apply(s, a[0]), threads, a[1..], b);
    }
  }

  /** Then nothing can move: the broker holds the mutex and waits for room, and the thread that should make
      it waits for the mutex. */
  lemma FullIsBlocked(s: State, threads: seq<nat>, i: nat, j: nat)
    requires Filling(s, i, j) && FacesFull(s, i) && s.poll[j].Got? && |threads| == |s.subs| && threads[i] == threads[j]
    ensures Blocked(s, threads) && !Quiet(s, {})
  {
    FillingParts(s, i, j);
    NothingDies(s, i, j);
    assert s.mutex == ByBroker;
    forall step | Drains(step, {}) && Enabled(s, step) ensures !MayRun(s, threads, step) {
      if step.PollGet? { OnlyTheirs(s, i, j, step.i); }
    }
  }

  // ----- the start of that run -----

  /** Of the first k subscribers only i and j are subscribed to id 0. */
  function Chosen(subs: seq<Sub>, i: nat, j: nat, k: nat): (r: seq<Sub>)
    ensures |r| == |subs|
    ensures forall x :: 0 <= x < |subs| ==> r[x] == if x < k then ChosenOne(subs[x], x == i || x == j) else subs[x]
  {
    seq(|subs|, x requires 0 <= x < |subs| => if x < k then ChosenOne(subs[x], x == i || x == j) else subs[x])
  }

  function ChosenOne(sub: Sub, take: bool): Sub {
    sub.(subscribed := if take then sub.subscribed + {0} else sub.subscribed - {0})
  }

  lemma ChosenIsValid(subs: seq<Sub>, i: nat, j: nat, k: nat)
    requires ValidSubs(subs)
    ensures ValidSubs(Chosen(subs, i, j, k))
  {
    assert TypesOf(Chosen(subs, i, j, k)) == TypesOf(subs);
  }

  function Choice(i: nat, j: nat, k: nat): Step {
    if k == i || k == j then Subscribe(k, 0) else Unsubscribe(k, 0)
  }

  lemma ChooseOne(subs: seq<Sub>, pool: set<Block>, i: nat, j: nat, k: nat)
    requires ValidSubs(subs) && k < |subs|
    requires ValidSubs(Chosen(subs, i, j, k)) && ValidSubs(Chosen(subs, i, j, k + 1))
    ensures var s := Init(Chosen(subs, i, j, k), pool);
            && Enabled(s, Choice(i, j, k))
            && Apply(s, Choice(i, j, k)) == Init(Chosen(subs, i, j, k + 1), pool)
  {
    var s, s' := Init(Chosen(subs, i, j, k), pool), Init(Chosen(subs, i, j, k + 1), pool);
    assert Apply(s, Choice(i, j, k)).subs == s'.subs;
    assert s.q == s'.q && s.poll == s'.poll && s.direct == s'.direct && s.handled == s'.handled;
  }

  lemma ChooseNext(subs: seq<Sub>, pool: set<Block>, threads: seq<nat>, i: nat, j: nat, k: nat)
    requires ValidSubs(subs) && k < |subs| && |threads| == |subs|
    requires ValidSubs(Chosen(subs, i, j, k)) && ValidSubs(Chosen(subs, i, j, k + 1))
    ensures var s := Init(Chosen(subs, i, j, k), pool);
            && |s.subs| == |subs| && IsRun(s, [Choice(i, j, k)]) && ThreadRun(s, threads, [Choice(i, j, k)])
            && Exec(s, [Choice(i, j, k)]) == Init(Chosen(subs, i, j, k + 1), pool)
  {
    InitSize(Chosen(subs, i, j, k), pool);
    ChooseOne(subs, pool, i, j, k);
    hide Apply, Enabled, ValidSubs, Init, Chosen;
    OneThreadStep(Init(Chosen(subs, i, j, k), pool), threads, Choice(i, j, k));
  }

  lemma NoneChosen(subs: seq<Sub>, i: nat, j: nat)
    ensures Chosen(subs, i, j, 0) == subs
  {
  }

  /** A run from s0 that ends in the initial state with the first k choices made. */
  ghost predicate ChoiceRun(subs: seq<Sub>, pool: set<Block>, threads: seq<nat>, i: nat, j: nat, k: nat,
                            steps: seq<Step>)
    requires ValidSubs(subs) && |threads| == |subs|
  {
    && |Init(subs, pool).subs| == |subs| && ValidSubs(Chosen(subs, i, j, k))
    && IsRun(Init(subs, pool), steps) && ThreadRun(Init(subs, pool), threads, steps)
    && Exec(Init(subs, pool), steps) == Init(Chosen(subs, i, j, k), pool)
  }

  lemma ChooseMore(subs: seq<Sub>, pool: set<Block>, threads: seq<nat>, i: nat, j: nat, k: nat, before: seq<Step>)
    returns (steps: seq<Step>)
    requires ValidSubs(subs) && k < |subs| && |threads| == |subs| && ChoiceRun(subs, pool, threads, i, j, k, before)
    ensures ChoiceRun(subs, pool, threads, i, j, k + 1, steps)
  {
    ChosenIsValid(subs, i, j, k + 1);
    hide Apply, Enabled, ValidSubs, Init, Chosen, Choice, MayRun, Exec, IsRun, ThreadRun;
    ChooseNext(subs, pool, threads, i, j, k);
    ThreadRunConcat(Init(subs, pool), threads, before, [Choice(i, j, k)]);
    steps := before + [Choice(i, j, k)];
  }

  lemma ChoiceStart(subs: seq<Sub>, pool: set<Block>, threads: seq<nat>, i: nat, j: nat)
    requires ValidSubs(subs) && |threads| == |subs|
    ensures ChoiceRun(subs, pool, threads, i, j, 0, [])
  {
    NoneChosen(subs, i, j);
    InitSize(subs, pool);
    hide Init, ValidSubs, Chosen;
  }

  lemma {:induction false} Choose(subs: seq<Sub>, pool: set<Block>, threads: seq<nat>, i: nat, j: nat, k: nat)
    returns (steps: seq<Step>)
    requires ValidSubs(subs) && k <= |subs| && |threads| == |subs|
    ensures ChoiceRun(subs, pool, threads, i, j, k, steps)
    decreases k
  {
    hide ValidSubs, ChoiceRun;
    if k == 0 {
      ChoiceStart(subs, pool, threads, i, j);
      steps := [];
    } else {
      var before := Choose(subs, pool, threads, i, j, k - 1);
      steps := ChooseMore(subs, pool, threads, i, j, k - 1, before);
    }
  }

  lemma InitSize(subs: seq<Sub>, pool: set<Block>)
    requires ValidSubs(subs)
    ensures Init(subs, pool).subs == subs
  {
  }

  lemma InitIsFilling(subs: seq<Sub>, pool: set<Block>, i: nat, j: nat)
    requires ValidSubs(subs) && i < |subs| && j < |subs| && subs[i].rxType.Msgq? && subs[j].rxType.Fifo?
    requires forall k :: 0 <= k < |subs| ==> (subs[k].Wants(0) <==> k == i || k == j)
    ensures var s := Init(subs, pool);
            && Filling(s, i, j) && s.broker.Idle? && s.pub == [] && s.pool == pool && s.sent == map[]
            && s.subs == subs && s.poll[j].Ready?
  {
    var s := Init(subs, pool);
    InitTransitInv(subs, pool);
    forall k, m | 0 <= k < |s.subs| ensures !Owed(s, k, m) { WaitingIsOwed(s, k, m); }
    hide TransitInv, Owed;
  }

  lemma CarrierIsTheirs(s: State, i: nat, j: nat, k: nat, m: Msg)
    requires Filling(s, i, j) && k < |s.subs| && Carries(s, k, m)
    ensures k == j
  {
    CarriedIsHere(s, k, m);
    assert Owed(s, k, m);
    hide TransitInv, Times;
  }

  lemma IdleFifoHolds(s: State, i: nat, j: nat, m: Msg)
    requires Filling(s, i, j) && s.broker.Idle? && s.pub == [] && m in s.sent && s.poll[j].Ready?
    ensures m in s.q[j]
  {
    FillingParts(s, i, j);
    NobodyRelays(s, i, j);
    forall k | 0 <= k < j ensures !Feeds(s, k, j, m) {
      if Carries(s, k, m) { CarrierIsTheirs(s, i, j, k, m); }
    }
    CountIn(Arrived(s, j), m);
    assert Owed(s, j, m);
    hide TransitInv, Inv;
  }

  lemma FullHasTwo(s: State, i: nat, j: nat) returns (x: Msg)
    requires Filling(s, i, j) && FacesFull(s, i)
    ensures x in s.sent && s.broker.m in s.sent && x != s.broker.m
  {
    FillingParts(s, i, j);
    assert s.subs[i].capacity >= 1;
    x := s.q[i][0];
    assert MsgTransit(s, s.broker.m);
    BrokersIsSent(s, s.broker.m);
    PutTargetEmpty(s);
    CountIn(Arrived(s, i), s.broker.m);
    CountIn(Arrived(s, i), x);
    assert x in Arrived(s, i);
    HereIsSent(s, i, x);
    hide TransitInv, Inv;
  }

  lemma FirstFits(s: State, i: nat, j: nat, m: Msg)
    requires Filling(s, i, j) && s.sent == map[m := ToBroker]
    ensures !FacesFull(s, i)
  {
    if FacesFull(s, i) { var x := FullHasTwo(s, i, j); }
  }

  /** j's thread takes the first message. */
  lemma TakenFromFifo(s: State, threads: seq<nat>, i: nat, j: nat, m: Msg)
    requires Filling(s, i, j) && s.broker.Idle? && s.pub == [] && m in s.sent && |threads| == |s.subs|
    requires forall k :: 0 <= k < |s.subs| ==> s.poll[k].Ready?
    ensures Enabled(s, PollGet(j)) && MayRun(s, threads, PollGet(j))
    ensures var s' := Apply(s, PollGet(j));
            && Filling(s', i, j) && s'.poll[j].Got? && s'.broker.Idle? && s'.pub == []
            && s'.subs == s.subs && s'.pool == s.pool
  {
    FillingParts(s, i, j);
    IdleFifoHolds(s, i, j, m);
    HeadIsPublic(s, i, j);
    hide TransitInv, Inv, Owed;
    var step := PollGet(j);
    var s' := Apply(s, step);
    StepKeepsTransitInv(s, step);
    PollGetFrame(s, j);
    PollGetQueue(s, j);
    PollGetPc(s, j);
    hide Apply, Enabled;
    assert OneTaken(s, s', j);
    forall k, x | 0 <= k < |s.subs| ensures Owed(s', k, x) <==> Owed(s, k, x) { StepKeepsOwed(s, step, k, x); }
    hide OneTaken;
    FillingTaken(s, s', i, j);
  }

  ghost predicate OneTaken(s: State, s': State, j: nat)
    requires Shaped(s) && Shaped(s') && |s'.subs| == |s.subs|
  {
    && PollerKeeps(s, s') && j < |s.subs| && s'.poll[j].Got? && s'.handled[j] == s.handled[j]
    && (forall k :: 0 <= k < |s.subs| && k != j ==> s'.poll[k] == s.poll[k] && s'.q[k] == s.q[k]
                                                    && s'.handled[k] == s.handled[k])
  }

  lemma FillingTaken(s: State, s': State, i: nat, j: nat)
    requires Filling(s, i, j) && TransitInv(s') && Shaped(s') && |s'.subs| == |s.subs| && OneTaken(s, s', j)
    requires forall k, x :: 0 <= k < |s.subs| ==> (Owed(s', k, x) <==> Owed(s, k, x))
    ensures Filling(s', i, j)
  {
    hide TransitInv, Owed;
  }

  lemma HeadIsPublic(s: State, i: nat, j: nat)
    requires Filling(s, i, j) && s.q[j] != []
    ensures HdrOf(s, s.q[j][0]).id == 0
  {
    FillingParts(s, i, j);
    QueuedId(s, j);
    CountIn(Arrived(s, j), s.q[j][0]);
    assert s.q[j][0] in Arrived(s, j);
    HereIsSent(s, j, s.q[j][0]);
    hide TransitInv, Inv;
  }

  lemma BlockedRun(s: State, threads: seq<nat>, i: nat, j: nat) returns (steps: seq<Step>)
    requires Filling(s, i, j) && s.broker.Idle? && s.pub == [] && s.sent == map[] && |threads| == |s.subs|
    requires threads[i] == threads[j] && |s.pool| > s.subs[i].capacity
    requires forall k :: 0 <= k < |s.subs| ==> s.poll[k].Ready?
    ensures IsRun(s, steps) && ThreadRun(s, threads, steps)
    ensures var e := Exec(s, steps); e.subs == s.subs && Blocked(e, threads) && !Quiet(e, {})
  {
    FillingParts(s, i, j);
    hide Apply, Enabled, Filling, TransitInv, Inv, Blocked, Quiet;
    var first, m := Round(s, threads, i, j);
    var s1 := Exec(s, first);
    var more := BrokerRuns(s1, threads, i, j);
    var s2 := Exec(s1, more);
    BrokerKeepsPool(s1, more);
    FirstFits(s2, i, j, m);
    TakenFromFifo(s2, threads, i, j, m);
    var s3 := Apply(s2, PollGet(j));
    OneThreadStep(s2, threads, PollGet(j));
    hide MayRun;
    var rest := FillUp(s3, threads, i, j);
    FullIsBlocked(Exec(s3, rest), threads, i, j);
    ThreadRunConcat(s2, threads, [PollGet(j)], rest);
    ThreadRunConcat(s1, threads, more, [PollGet(j)] + rest);
    ThreadRunConcat(s, threads, first, more + ([PollGet(j)] + rest));
    steps := first + (more + ([PollGet(j)] + rest));
  }

  // ----- exactly when -----

  /** A run of these threads that ends with nothing able to move, though not all has been delivered. */
  ghost predicate Deadlocks(subs: seq<Sub>, pool: set<Block>, threads: seq<nat>, steps: seq<Step>)
    requires ValidSubs(subs) && |threads| == |subs|
  {
    var s := Init(subs, pool);
    && IsRun(s, steps) && ThreadRun(s, threads, steps)
    && var e := Exec(s, steps);
       |e.subs| == |subs| && Blocked(e, threads) && !Quiet(e, {})
  }

  lemma {:induction false} RunKeepsShape(s: State, steps: seq<Step>)
    requires Shaped(s) && IsRun(s, steps)
    ensures SubsKept(s, Exec(s, steps)) && Exec(s, steps).pool == s.pool
    decreases |steps|
  {
    hide Apply, Enabled;
    if steps != [] {
      PoolSame(s, steps[0]);
      SubsFrame(s, steps[0]);
      RunKeepsShape(Apply(s, steps[0]), steps[1..]);
    }
  }

  lemma NeverBlocked(subs: seq<Sub>, pool: set<Block>, threads: seq<nat>, steps: seq<Step>)
    requires ValidSubs(subs) && |threads| == |subs| && Apart(subs, threads, |pool|)
    ensures !Deadlocks(subs, pool, threads, steps)
  {
    var s := Init(subs, pool);
    if Deadlocks(subs, pool, threads, steps) {
      InitTransitInv(subs, pool);
      RunKeepsTransitInv(s, steps);
      RunKeepsShape(s, steps);
      hide TransitInv, Quiet, Blocked, Exec;
      BlockedIsQuiet(Exec(s, steps), threads);
    }
  }

  /** The framework's threads can deadlock, in some run with these subscribers, if and only if some thread
      polls a fifo subscriber together with a msgq subscriber whose queue is shorter than the pool. */
  lemma DeadlockIff(subs: seq<Sub>, pool: set<Block>, threads: seq<nat>)
    requires ValidSubs(subs) && |threads| == |subs|
    ensures (exists steps :: Deadlocks(subs, pool, threads, steps)) <==> !Apart(subs, threads, |pool|)
  {
    if Apart(subs, threads, |pool|) {
      forall steps ensures !Deadlocks(subs, pool, threads, steps) { NeverBlocked(subs, pool, threads, steps); }
    } else {
      var i, j :| 0 <= i < |subs| && 0 <= j < |subs| && threads[i] == threads[j]
                  && subs[i].rxType.Msgq? && subs[j].rxType.Fifo? && subs[i].capacity < |pool|;
      var steps := DeadlockRun(subs, pool, threads, i, j);
    }
    hide Deadlocks, ValidSubs;
  }

  lemma DeadlockRun(subs: seq<Sub>, pool: set<Block>, threads: seq<nat>, i: nat, j: nat) returns (steps: seq<Step>)
    requires ValidSubs(subs) && |threads| == |subs| && i < |subs| && j < |subs| && threads[i] == threads[j]
    requires subs[i].rxType.Msgq? && subs[j].rxType.Fifo? && subs[i].capacity < |pool|
    ensures Deadlocks(subs, pool, threads, steps)
  {
    var chosen := Chosen(subs, i, j, |subs|);
    ChosenIsValid(subs, i, j, |subs|);
    InitIsFilling(chosen, pool, i, j);
    var s := Init(chosen, pool);
    assert forall k :: 0 <= k < |s.subs| ==> s.poll[k].Ready?;
    assert s.subs[i].capacity == subs[i].capacity;
    InitSize(subs, pool);
    hide Filling, ValidSubs, Init, Blocked, Quiet, Chosen;
    var before := Choose(subs, pool, threads, i, j, |subs|);
    var rest := BlockedRun(s, threads, i, j);
    ThreadRunConcat(Init(subs, pool), threads, before, rest);
    steps := before + rest;
  }

  /** And apart from it, any schedule of the threads, run until nothing can move, delivers everything owed. */
  lemma ThreadsDeliver(s: State, threads: seq<nat>, steps: seq<Step>, i: nat, m: Msg)
    requires TransitInv(s) && |threads| == |s.subs| && Apart(s.subs, threads, |s.pool|) && i < |s.subs|
    requires IsRun(s, steps) && DrainRun(steps, {})
    requires |Exec(s, steps).subs| == |s.subs| && Blocked(Exec(s, steps), threads)
    ensures |steps| <= Work(s) && Quiet(Exec(s, steps), {})
    ensures Count(Exec(s, steps).handled[i], m) == if Owed(s, i, m) then 1 else 0
  {
    TransitParts(s);
    EveryScheduleEnds(s, steps, {});
    RunKeepsTransitInv(s, steps);
    RunKeepsShape(s, steps);
    DrainRunKeepsOwed(s, steps, {}, i, m);
    hide TransitInv, Quiet, Blocked, Exec, DrainRun, IsRun, Owed;
    var e := Exec(s, steps);
    BlockedIsQuiet(e, threads);
    QuietIsAtRest(e, m);
    OwedIsHandled(e, i, m);
  }
}
