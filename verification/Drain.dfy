/** Progress: left alone, the framework delivers everything. */
module Drain {
  import opened Types
  import opened Protocol
  import opened Frames
  import opened RefCount
  import opened RefSafety
  import opened Logs
  import opened Order
  import opened Delivery
  import opened Transit
  import opened OnTheWay
  import opened Completion
  import opened Intended

  /** A step of the framework itself, by no polling thread in `paused`. */
  ghost predicate Drains(step: Step, paused: set<nat>) {
    match step
    case Free(_) => true
    case Take => true
    case Lock => true
    case Visit => true
    case Put => true
    case Finish => true
    case PollGet(i) => i !in paused
    case RelayLock(i) => i !in paused
    case RelayPut(i) => i !in paused
    case Return(i) => i !in paused
    case _ => false
  }

  /** Threads in `paused` poll fifo subscribers and are between two messages. */
  ghost predicate Paused(s: State, paused: set<nat>)
    requires Shaped(s)
  {
    forall i :: i in paused ==> i < |s.subs| && s.subs[i].rxType == Fifo && s.poll[i].Ready?
  }

  /** Nothing left to do, except for what is queued at paused subscribers. */
  ghost predicate Quiet(s: State, paused: set<nat>)
    requires Shaped(s)
  {
    && s.pub == [] && s.broker.Idle? && s.dying == {}
    && (forall i :: 0 <= i < |s.subs| && i !in paused ==> s.q[i] == [] && s.poll[i].Ready?)
  }

  // ----- some step is always possible -----

  /** The same in all that the application's steps go by: subscriptions, references, free blocks, queues. */
  ghost predicate AppSeesSame(s: State, s': State) {
    && s'.subs == s.subs && s'.user == s.user && s'.sent == s.sent && s'.free == s.free && s'.hdr == s.hdr
    && s'.q == s.q && s'.dying == s.dying
  }

  /** The application never waits for a thread of the framework, whatever it is doing and whether or not it
      holds the mutex; only a message queue without room keeps a publisher waiting. */
  lemma AppNeverWaits(s: State, s': State, step: Step)
    requires Shaped(s) && Shaped(s') && AppSeesSame(s, s')
    requires !BrokerStep(step) && !PollerStep(step) && (step.Acquire? ==> step.holder.AsUser?)
    ensures Enabled(s, step) <==> Enabled(s', step)
    ensures step.PublishDirect? && step.i < |s.subs| && s.subs[step.i].rxType.Msgq? && Enabled(s, step) ==>
              |s.q[step.i]| < s.subs[step.i].capacity
  {
  }

  /** Whoever holds the list mutex can go on, even when it is the broker facing a full msgq: then the
      polling thread of that msgq can. */
  lemma HolderCanMove(s: State, paused: set<nat>) returns (step: Step)
    requires Inv(s) && Paused(s, paused) && !s.mutex.Unowned?
    ensures Enabled(s, step) && Drains(step, paused)
    ensures || (step.RelayPut? && s.mutex == ByPoller(step.i))
            || ((step.Visit? || step.Put?) && s.mutex == ByBroker)
            || ((step.PollGet? || step.Return?) && s.subs[step.i].rxType.Msgq?)
  {
    if s.mutex.ByPoller? {
      assert PollInv(s, s.mutex.i);
      step := RelayPut(s.mutex.i);
    } else if s.broker.Visiting? {
      step := Visit;
    } else if HasRoom(s, s.broker.pos) {
      step := Put;
    } else {
      var i := s.broker.pos;
      assert PollInv(s, i);
      step := if s.poll[i].Ready? then PollGet(i) else Return(i);
    }
  }

  lemma PollerCanMove(s: State, paused: set<nat>, i: nat) returns (step: Step)
    requires Inv(s) && Paused(s, paused) && i < |s.subs| && i !in paused
    requires s.q[i] != [] || !s.poll[i].Ready?
    ensures Enabled(s, step) && Drains(step, paused)
  {
    assert PollInv(s, i);
    if !s.mutex.Unowned? {
      step := HolderCanMove(s, paused);
    } else {
      step := match s.poll[i]
        case Ready => PollGet(i)
        case Got(_) => RelayLock(i)
        case Relaying(_, _) => RelayPut(i)
        case Handling(_) => Return(i);
    }
  }

  /** No deadlock: unless everything has been delivered, some thread can take a step. */
  lemma SomeThreadCanMove(s: State, paused: set<nat>) returns (step: Step)
    requires Inv(s) && Paused(s, paused) && !Quiet(s, paused)
    ensures Enabled(s, step) && Drains(step, paused)
  {
    if s.dying != {} {
      var m :| m in s.dying;
      step := Free(m);
    } else if !s.mutex.Unowned? {
      step := HolderCanMove(s, paused);
    } else if !s.broker.Idle? {
      step := if s.broker.Taken? then Lock else Finish;
    } else if s.pub != [] {
      step := Take;
    } else {
      var i :| 0 <= i < |s.subs| && i !in paused && (s.q[i] != [] || !s.poll[i].Ready?);
      step := PollerCanMove(s, paused, i);
    }
  }

  // ----- and cannot be taken forever -----

  /** The work a message still queued at list position i stands for. */
  function QueueCost(n: nat, i: nat): nat {
    if i < n then 5 * (n - i) + 3 else 3
  }

  function VisitCost(n: nat, pos: nat): nat
    decreases n - pos
  {
    if pos >= n then 3 else VisitCost(n, pos + 1) + 5 * n + 8
  }

  function BrokerCost(n: nat, pc: BrokerPc): int {
    match pc
    case Idle => 0
    case Taken(_) => VisitCost(n, 0) + 1
    case Visiting(_, pos) => VisitCost(n, pos)
    case Putting(_, pos) => VisitCost(n, pos) - 1
    case Unlocked(_) => 2
  }

  function PollCost(n: nat, i: nat, pc: PollPc): nat {
    match pc
    case Ready => 0
    case Got(_) => QueueCost(n, i) - 1
    case Relaying(_, _) => QueueCost(n, i) - 2
    case Handling(_) => 2
  }

  ghost function Costs(s: State): (r: seq<nat>)
    requires Shaped(s)
    ensures |r| == |s.subs|
  {
    var n := |s.subs|;
    seq(n, i requires 0 <= i < n => |s.q[i]| * QueueCost(n, i) + PollCost(n, i, s.poll[i]))
  }

  ghost function Work(s: State): int
    requires Shaped(s)
  {
    var n := |s.subs|;
    |s.pub| * (VisitCost(n, 0) + 2) + BrokerCost(n, s.broker) + Sum(Costs(s)) + |s.dying|
  }

  lemma VisitCostLow(n: nat, pos: nat)
    ensures VisitCost(n, pos) >= 3
    decreases n - pos
  {
  }

  lemma BrokerCostIsNat(n: nat, pc: BrokerPc)
    ensures BrokerCost(n, pc) >= 0
  {
    match pc
    case Taken(_) => VisitCostLow(n, 0);
    case Visiting(_, pos) => VisitCostLow(n, pos);
    case Putting(_, pos) => VisitCostLow(n, pos);
    case _ =>
  }

  lemma Product(a: nat, b: nat)
    ensures a * b >= 0
  {
  }

  lemma WorkIsNat(s: State)
    requires Shaped(s)
    ensures Work(s) >= 0
  {
    BrokerCostIsNat(|s.subs|, s.broker);
    Product(|s.pub|, VisitCost(|s.subs|, 0) + 2);
    hide VisitCost, BrokerCost, Costs;
  }

  lemma CostsUpdate(s: State, s': State, i: nat)
    requires Shaped(s) && Shaped(s') && |s.subs| == |s'.subs| && i < |s.subs|
    requires forall k :: 0 <= k < |s.subs| && k != i ==> s'.q[k] == s.q[k] && s'.poll[k] == s.poll[k]
    ensures Sum(Costs(s')) + |s.q[i]| * QueueCost(|s.subs|, i) + PollCost(|s.subs|, i, s.poll[i])
         == Sum(Costs(s)) + |s'.q[i]| * QueueCost(|s.subs|, i) + PollCost(|s.subs|, i, s'.poll[i])
  {
    assert Costs(s') == Costs(s)[i := Costs(s')[i]];
    SumUpdate(Costs(s), i, Costs(s')[i]);
  }

  lemma CostsSame(s: State, s': State)
    requires Shaped(s) && Shaped(s') && |s.subs| == |s'.subs| && s'.q == s.q && s'.poll == s.poll
    ensures Sum(Costs(s')) == Sum(Costs(s))
  {
    assert Costs(s') == Costs(s);
  }

  lemma OneMore(len: nat, cost: nat)
    ensures (len + 1) * cost == len * cost + cost
  {
  }

  lemma DyingGrows(d: set<Msg>, m: Msg)
    ensures |d + {m}| <= |d| + 1
  {
    if m in d { assert d + {m} == d; }
  }

  /** The work waiting for the broker, and the work elsewhere. */
  ghost function PubWork(s: State): int {
    |s.pub| * (VisitCost(|s.subs|, 0) + 2)
  }

  lemma WorkParts(s: State)
    requires Shaped(s)
    ensures Work(s) == PubWork(s) + BrokerCost(|s.subs|, s.broker) + Sum(Costs(s)) + |s.dying|
  {
  }

  /** Less work of one kind, and no more of any other. */
  lemma LessWork(s: State, s': State)
    requires Shaped(s) && Shaped(s') && s'.subs == s.subs
    requires s'.pub == s.pub
    requires BrokerCost(|s.subs|, s'.broker) + Sum(Costs(s')) + |s'.dying|
             < BrokerCost(|s.subs|, s.broker) + Sum(Costs(s)) + |s.dying|
    ensures Work(s') < Work(s)
  {
    WorkParts(s);
    WorkParts(s');
    hide Work, Costs, BrokerCost, VisitCost;
  }

  lemma TakeWorks(s: State)
    requires Shaped(s) && Enabled(s, Take)
    ensures Work(Apply(s, Take)) < Work(s)
  {
    var s', c := Apply(s, Take), VisitCost(|s.subs|, 0) + 2;
    assert s.broker.Idle? && s.pub != [];
    TakeFrame(s);
    TakePc(s);
    CostsSame(s, s');
    OneMore(|s.pub| - 1, c);
    WorkParts(s);
    WorkParts(s');
    hide Apply, Enabled, Work, Costs, VisitCost;
    assert PubWork(s) == PubWork(s') + c;
  }

  lemma VisitWorks(s: State)
    requires Shaped(s) && Enabled(s, Visit)
    ensures Work(Apply(s, Visit)) < Work(s)
  {
    var s' := Apply(s, Visit);
    VisitFrame(s);
    VisitPc(s);
    CostsSame(s, s');
    VisitDying(s);
    hide Apply, Enabled, Costs, HdrOf;
    assert BrokerCost(|s.subs|, s'.broker) < BrokerCost(|s.subs|, s.broker);
    LessWork(s, s');
  }

  lemma VisitDying(s: State)
    requires Shaped(s) && Enabled(s, Visit)
    ensures Apply(s, Visit).dying == s.dying
  {
  }

  lemma PutCosts(s: State)
    requires Shaped(s) && Enabled(s, Put)
    ensures Sum(Costs(Apply(s, Put))) == Sum(Costs(s)) + QueueCost(|s.subs|, s.broker.pos)
  {
    PutFrame(s);
    PutQueue(s);
    hide Apply;
    CostsUpdate(s, Apply(s, Put), s.broker.pos);
    OneMore(|s.q[s.broker.pos]|, QueueCost(|s.subs|, s.broker.pos));
    hide Costs, QueueCost;
  }

  lemma PutWorks(s: State)
    requires Shaped(s) && Enabled(s, Put)
    ensures Work(Apply(s, Put)) < Work(s)
  {
    var s' := Apply(s, Put);
    PutCosts(s);
    VisitCostLow(|s.subs|, s.broker.pos + 1);
    PutFrame(s);
    PutPc(s);
    hide Apply, Costs;
    LessWork(s, s');
  }

  lemma PollGetWorks(s: State, i: nat)
    requires Shaped(s) && Enabled(s, PollGet(i))
    ensures Work(Apply(s, PollGet(i))) < Work(s)
  {
    var s' := Apply(s, PollGet(i));
    assert s.q[i] != [] && s.poll[i].Ready?;
    PollGetFrame(s, i);
    PollGetQueue(s, i);
    PollGetPc(s, i);
    hide Apply, Enabled;
    CostsUpdate(s, s', i);
    OneMore(|s.q[i]| - 1, QueueCost(|s.subs|, i));
    hide Costs;
    LessWork(s, s');
  }

  lemma RelayLockWorks(s: State, i: nat)
    requires Shaped(s) && Enabled(s, RelayLock(i))
    ensures Work(Apply(s, RelayLock(i))) < Work(s)
  {
    var s' := Apply(s, RelayLock(i));
    RelayLockFrame(s, i);
    RelayLockPc(s, i);
    RelayLockDying(s, i);
    hide Apply, NextWanting;
    CostsUpdate(s, s', i);
    hide Costs;
    LessWork(s, s');
  }

  lemma RelayLockDying(s: State, i: nat)
    requires Shaped(s) && Enabled(s, RelayLock(i))
    ensures Apply(s, RelayLock(i)).dying == s.dying
  {
  }

  lemma RelayPutCosts(s: State, i: nat)
    requires Shaped(s) && PcInv(s) && Enabled(s, RelayPut(i))
    ensures Sum(Costs(Apply(s, RelayPut(i)))) < Sum(Costs(s))
  {
    var s', j := Apply(s, RelayPut(i)), s.poll[i].next;
    assert s.poll[i].Relaying? && PollInv(s, i);
    RelayPutFrame(s, i);
    RelayPutQueue(s, i);
    RelayPutPc(s, i);
    hide Apply, Enabled, PcInv;
    var mid := s.(q := s'.q);
    CostsUpdate(s, mid, j);
    OneMore(|s.q[j]|, QueueCost(|s.subs|, j));
    CostsUpdate(mid, s', i);
    hide Costs;
  }

  lemma RelayPutWorks(s: State, i: nat)
    requires Shaped(s) && PcInv(s) && Enabled(s, RelayPut(i))
    ensures Work(Apply(s, RelayPut(i))) < Work(s)
  {
    RelayPutFrame(s, i);
    RelayPutCosts(s, i);
    LessWork(s, Apply(s, RelayPut(i)));
    hide Apply, Costs;
  }

  lemma ReturnWorks(s: State, i: nat)
    requires Shaped(s) && Enabled(s, Return(i))
    ensures Work(Apply(s, Return(i))) < Work(s)
  {
    var s' := Apply(s, Return(i));
    assert s.poll[i].Handling?;
    ReturnFrame(s, i);
    ReturnPc(s, i);
    ReturnDying(s, i);
    hide Apply, Enabled;
    CostsUpdate(s, s', i);
    DyingGrows(s.dying, s.poll[i].m);
    hide Costs;
    LessWork(s, s');
  }

  lemma ReturnDying(s: State, i: nat)
    requires Shaped(s) && Enabled(s, Return(i))
    ensures Apply(s, Return(i)).dying == s.dying || Apply(s, Return(i)).dying == s.dying + {s.poll[i].m}
  {
  }

  lemma FreeWorks(s: State, m: Msg)
    requires Shaped(s) && Enabled(s, Free(m))
    ensures Work(Apply(s, Free(m))) < Work(s)
  {
    FreeFrame(s, m);
    CostsSame(s, Apply(s, Free(m)));
    assert Apply(s, Free(m)).dying == s.dying - {m} && m in s.dying;
    hide Apply, Costs;
    LessWork(s, Apply(s, Free(m)));
  }

  lemma LockWorks(s: State)
    requires Shaped(s) && Enabled(s, Lock)
    ensures Work(Apply(s, Lock)) < Work(s)
  {
    LockFrame(s);
    LockPc(s);
    CostsSame(s, Apply(s, Lock));
    hide Apply, Costs;
    LessWork(s, Apply(s, Lock));
  }

  lemma FinishWorks(s: State)
    requires Shaped(s) && Enabled(s, Finish)
    ensures Work(Apply(s, Finish)) < Work(s)
  {
    FinishFrame(s);
    FinishPc(s);
    FinishDying(s);
    CostsSame(s, Apply(s, Finish));
    DyingGrows(s.dying, s.broker.m);
    hide Apply, Costs;
    LessWork(s, Apply(s, Finish));
  }

  lemma FinishDying(s: State)
    requires Shaped(s) && Enabled(s, Finish)
    ensures Apply(s, Finish).dying == s.dying || Apply(s, Finish).dying == s.dying + {s.broker.m}
  {
  }

  lemma StepWorks(s: State, step: Step, paused: set<nat>)
    requires Inv(s) && Enabled(s, step) && Drains(step, paused)
    ensures Work(Apply(s, step)) < Work(s)
  {
    hide Apply, Work;
    match step
    case Take => TakeWorks(s);
    case Visit => VisitWorks(s);
    case Put => PutWorks(s);
    case PollGet(i) => PollGetWorks(s, i);
    case RelayLock(i) => RelayLockWorks(s, i);
    case RelayPut(i) => RelayPutWorks(s, i);
    case Return(i) => ReturnWorks(s, i);
    case Free(m) => FreeWorks(s, m);
    case Lock => LockWorks(s);
    case Finish => FinishWorks(s);
  }

  ghost predicate DrainRun(steps: seq<Step>, paused: set<nat>) {
    forall k :: 0 <= k < |steps| ==> Drains(steps[k], paused)
  }

  /** No schedule of the framework's threads is longer than the work there is. */
  lemma {:induction false} EveryScheduleEnds(s: State, steps: seq<Step>, paused: set<nat>)
    requires Inv(s) && IsRun(s, steps) && DrainRun(steps, paused)
    ensures |steps| <= Work(s)
    decreases |steps|
  {
    WorkIsNat(s);
    if steps != [] {
      StepKeepsInv(s, steps[0]);
      StepWorks(s, steps[0], paused);
      EveryScheduleEnds(Apply(s, steps[0]), steps[1..], paused);
    }
  }

  // ----- where it ends -----

  lemma DrainKeepsUser(s: State, step: Step, paused: set<nat>)
    requires Shaped(s) && Enabled(s, step) && Drains(step, paused)
    ensures Apply(s, step).user == s.user && Apply(s, step).subs == s.subs && Apply(s, step).pool == s.pool
  {
    hide Apply, Enabled;
    if BrokerStep(step) {
      BrokerFrame(s, step);
    } else if PollerStep(step) {
      PollerFrame(s, step);
    } else {
      FreeFrame(s, step.m);
      FreeKeepsUser(s, step.m);
    }
  }

  lemma FreeKeepsUser(s: State, m: Msg)
    requires Shaped(s) && Enabled(s, Free(m))
    ensures Apply(s, Free(m)).user == s.user
  {
  }

  lemma DrainKeepsPaused(s: State, step: Step, paused: set<nat>, k: nat)
    requires Shaped(s) && PcInv(s) && Paused(s, paused) && Enabled(s, step) && Drains(step, paused) && k in paused
    ensures Apply(s, step).poll[k] == s.poll[k] && Apply(s, step).handled[k] == s.handled[k]
  {
    hide Apply, PcInv;
    if PollerStep(step) {
      PollerFrame(s, step);
    } else {
      PollAfter(s, step, k);
      match step
      case Take => TakeFrame(s);
      case Lock => LockFrame(s);
      case Visit => VisitHandled(s, k);
      case Put => PutQueue(s);
      case Finish => FinishFrame(s);
      case Free(m) => FreeFrame(s, m);
    }
    hide Enabled;
  }

  /** What the framework's own steps leave alone. */
  lemma DrainKeeps(s: State, step: Step, paused: set<nat>)
    requires Inv(s) && Paused(s, paused) && Enabled(s, step) && Drains(step, paused)
    ensures var s' := Apply(s, step);
            && Inv(s') && Paused(s', paused) && s'.user == s.user && s'.subs == s.subs
            && Published(s') == Published(s) && s'.pool == s.pool
            && (forall k :: k in paused ==> s'.handled[k] == s.handled[k])
  {
    hide Apply, Published, PcInv, RefInv;
    StepKeepsInv(s, step);
    DrainKeepsUser(s, step, paused);
    forall k | k in paused
      ensures Apply(s, step).poll[k] == s.poll[k] && Apply(s, step).handled[k] == s.handled[k]
    {
      DrainKeepsPaused(s, step, paused, k);
    }
    PublishedSame(s, step);
    hide Enabled;
  }

  /** A schedule that delivers everything not held up by a paused thread. */
  lemma {:induction false} DrainAll(s: State, paused: set<nat>) returns (steps: seq<Step>)
    requires Inv(s) && Paused(s, paused)
    ensures IsRun(s, steps) && DrainRun(steps, paused)
    ensures var s' := Exec(s, steps);
            && Inv(s') && Quiet(s', paused) && s'.user == s.user && s'.subs == s.subs
            && Published(s') == Published(s) && s'.pool == s.pool
            && (forall k :: k in paused ==> s'.handled[k] == s.handled[k])
    decreases Work(s)
  {
    WorkIsNat(s);
    if Quiet(s, paused) {
      steps := [];
    } else {
      var step := SomeThreadCanMove(s, paused);
      DrainKeeps(s, step, paused);
      StepWorks(s, step, paused);
      var rest := DrainAll(Apply(s, step), paused);
      steps := [step] + rest;
      assert steps[1..] == rest;
    }
  }

  /** When all is quiet only the application's references are left, so with none retained every block
      is back in the pool. */
  lemma NoLeak(s: State)
    requires Inv(s) && Quiet(s, {})
    ensures forall m :: m in s.live ==> HdrOf(s, m).refCnt == s.user[m] > 0
    ensures s.user == multiset{} ==> s.free == s.pool
  {
    forall m ensures Owners(s, m) == s.user[m] && MsgInv(s, m) {
      SumZero(Shares(s, m));
    }
    if s.user == multiset{} {
      assert forall m :: m in s.live ==> Owners(s, m) > 0;
      assert Blocks(s.live) == {};
    }
  }

  // ----- everything due has been delivered -----

  /** Up to i, no fifo subscriber that takes x has a message in its queue or in hand. */
  ghost predicate Settled(s: State, i: nat, x: nat)
    requires Shaped(s) && i <= |s.subs|
  {
    forall k :: 0 <= k < i && s.subs[k].rxType == Fifo && s.subs[k].Wants(x) ==>
      s.q[k] == [] && s.poll[k].Ready?
  }

  lemma {:induction false} FifoComplete(s: State, i: nat, x: nat)
    requires OrderInv(s) && i < |s.subs| && s.subs[i].rxType == Fifo && s.subs[i].Wants(x)
    requires s.pub == [] && s.broker.Idle? && Settled(s, i, x)
    ensures Sel({x}, Arrived(s, i)) == Sel({x}, Published(s))
    decreases i
  {
    var p := Feeder(s.subs, i, {x});
    FeederIsAdjacent(s.subs, i, {x});
    assert Published(s) == s.taken;
    if p < 0 {
      assert FirstFed(s, i, {x});
    } else {
      FifoComplete(s, p, x);
      assert ChainFed(s, p, i, {x});
      assert Arrived(s, p) == s.handled[p];
    }
  }

  lemma QuietIsAtRest(s: State, m: Msg)
    requires Shaped(s) && Quiet(s, {})
    ensures AtRest(s, m)
  {
  }

  /** Multicast: when all is quiet each subscriber has handled each message meant for it exactly once,
      and nothing else. */
  lemma AllDelivered(s: State, i: nat, m: Msg)
    requires TransitInv(s) && i < |s.subs| && DueIsOwed(s, i, m) && Quiet(s, {})
    ensures Count(s.handled[i], m) == if Due(s, i, m) then 1 else 0
  {
    TransitParts(s);
    QuietIsAtRest(s, m);
    OwedIsHandled(s, i, m);
    hide TransitInv;
  }

  lemma {:induction false} DrainRunKeeps(s: State, steps: seq<Step>, paused: set<nat>)
    requires Shaped(s) && IsRun(s, steps) && DrainRun(steps, paused)
    ensures Exec(s, steps).user == s.user && Exec(s, steps).subs == s.subs
    decreases |steps|
  {
    hide Apply, Enabled;
    if steps != [] {
      DrainKeepsUser(s, steps[0], paused);
      DrainRunKeeps(Apply(s, steps[0]), steps[1..], paused);
    }
  }

  /** Left alone, the framework changes nothing of what anybody is owed. */
  lemma {:induction false} DrainRunKeepsOwed(s: State, steps: seq<Step>, paused: set<nat>, i: nat, m: Msg)
    requires TransitInv(s) && i < |s.subs| && IsRun(s, steps) && DrainRun(steps, paused)
    ensures var e := Exec(s, steps); TransitInv(e) && |e.subs| == |s.subs| && (Owed(e, i, m) <==> Owed(s, i, m))
    decreases |steps|
  {
    hide Apply, Enabled, MsgTransit, Owed;
    if steps != [] {
      assert Drains(steps[0], paused);
      StepKeepsTransitInv(s, steps[0]);
      StepKeepsOwed(s, steps[0], i, m);
      SubsFrame(s, steps[0]);
      DrainRunKeepsOwed(Apply(s, steps[0]), steps[1..], paused, i, m);
    }
  }

  /** No framework step is possible. */
  ghost predicate Stuck(s: State)
    requires Shaped(s)
  {
    forall step :: Drains(step, {}) ==> !Enabled(s, step)
  }

  lemma StuckIsQuiet(s: State)
    requires Inv(s) && Stuck(s)
    ensures Quiet(s, {})
  {
    if !Quiet(s, {}) {
      var step := SomeThreadCanMove(s, {});
    }
  }

  /** Let the framework run from any reachable state, by any schedule, until it can do nothing more: it
      ends, and then every subscriber has handled exactly what it was owed, once; all counts are what the
      application retains; and if it retains nothing, every block is back in the pool. */
  lemma EveryScheduleDelivers(s: State, steps: seq<Step>)
    requires TransitInv(s) && IsRun(s, steps) && DrainRun(steps, {}) && Stuck(Exec(s, steps))
    ensures |steps| <= Work(s)
    ensures var e := Exec(s, steps);
            && Quiet(e, {}) && e.subs == s.subs && e.user == s.user
            && (forall i, m :: 0 <= i < |e.subs| ==> Count(e.handled[i], m) == if Owed(s, i, m) then 1 else 0)
            && (forall m :: m in e.live ==> HdrOf(e, m).refCnt == s.user[m] > 0)
            && (s.user == multiset{} ==> e.free == e.pool)
  {
    hide TransitInv, Stuck, Quiet, Owed, IsRun, Exec, DrainRun;
    TransitParts(s);
    var e := Exec(s, steps);
    EveryScheduleEnds(s, steps, {});
    DrainRunKeeps(s, steps, {});
    RunKeepsTransitInv(s, steps);
    TransitParts(e);
    StuckIsQuiet(e);
    forall i, m | 0 <= i < |e.subs| ensures Count(e.handled[i], m) == if Owed(s, i, m) then 1 else 0 {
      DrainRunKeepsOwed(s, steps, {}, i, m);
      QuietIsAtRest(e, m);
      OwedIsHandled(e, i, m);
    }
    NoLeak(e);
  }

  /** So in any run, with subscriptions changing as they may, a message is in the end handled exactly once
      by each subscriber that it was meant for before it was handed out and by no other, subscriber by
      subscriber, as long as the one in question did not change its subscription to the id in between. */
  lemma EveryRunDelivers(subs: seq<Sub>, pool: set<Block>, run: seq<Step>, steps: seq<Step>, i: nat, m: Msg)
    requires ValidSubs(subs) && i < |subs| && IsRun(Init(subs, pool), run) && Still(Init(subs, pool), run, i, m)
    requires var s := Exec(Init(subs, pool), run);
             IsRun(s, steps) && DrainRun(steps, {}) && Stuck(Exec(s, steps))
    ensures var s0 := Init(subs, pool);
            var e := Exec(Exec(s0, run), steps);
            && |e.subs| == |subs|
            && Count(e.handled[i], m) == if IntendedFor(s0, UntilHandedOut(s0, run, m), i, m) then 1 else 0
  {
    var s0 := Init(subs, pool);
    InitTransitInv(subs, pool);
    WaitingIsOwed(s0, i, m);
    hide TransitInv, Init, Exec, IsRun, DrainRun, DueIsOwed, Still, Stuck, IntendedFor, UntilHandedOut, Owed;
    OwedIsIntended(s0, run, i, m);
    var s := Exec(s0, run);
    DrainRunKeepsOwed(s, steps, {}, i, m);
    var e := Exec(s, steps);
    TransitParts(e);
    StuckIsQuiet(e);
    QuietIsAtRest(e, m);
    OwedIsHandled(e, i, m);
  }
}
