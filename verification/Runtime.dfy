/** The broker's work item and the subscribers' polling function as code over shared memory, with all
    other threads free to run between any two of its operations. Whatever they do, the code only ever
    takes steps of the protocol, so all that is proved of the protocol's runs holds of it, and it
    never fails an assertion on a reference count. */
module Runtime {
  import opened Types
  import opened Protocol
  import opened Frames
  import opened RefCount
  import opened RefSafety
  import opened Logs
  import opened Order
  import opened Delivery
  import opened CountBound
  import opened Lifetime
  import opened Transit
  import opened Drain
  import H = Header

  const EPERM := -1
  const EAGAIN := -11
  const ENOMSG := -80

  datatype Thread = BrokerThread | PollThread(i: nat) | AppThread

  /** A step of thread t's own code. */
  ghost predicate Mine(step: Step, t: Thread) {
    match step
    case Take => t.BrokerThread?
    case Lock => t.BrokerThread?
    case Visit => t.BrokerThread?
    case Put => t.BrokerThread?
    case Finish => t.BrokerThread?
    case PollGet(i) => t == PollThread(i)
    case RelayLock(i) => t == PollThread(i)
    case RelayPut(i) => t == PollThread(i)
    case Return(i) => t == PollThread(i)
    case _ => false
  }

  /** A step that uses up a reference of the application to m, or frees m. */
  ghost predicate Consumes(step: Step, m: Msg) {
    match step
    case Free(k) => k == m
    case _ => GivesUp(step, m)
  }

  /** What threads other than t may do while t relies on a reference to `claim`. */
  ghost predicate ByOthers(step: Step, t: Thread, claim: Option<Msg>) {
    !Resubscribes(step) && !Mine(step, t) && (claim.Some? ==> !Consumes(step, claim.value))
  }

  ghost predicate AllByOthers(steps: seq<Step>, t: Thread, claim: Option<Msg>) {
    forall k :: 0 <= k < |steps| ==> ByOthers(steps[k], t, claim)
  }

  // ----- what the other threads cannot touch -----

  ghost predicate ThreadKept(s: State, s': State, t: Thread)
    requires Shaped(s) && Shaped(s') && s'.subs == s.subs
  {
    match t
    case BrokerThread => s'.broker == s.broker && s'.taken == s.taken
    case PollThread(i) =>
      i < |s.subs| && s.subs[i].rxType != Callback ==>
        s'.poll[i] == s.poll[i] && s'.handled[i] == s.handled[i] && s.q[i] <= s'.q[i]
    case AppThread => true
  }

  ghost predicate RouteKept(s: State, s': State, m: Msg) {
    m in s.sent ==> m in s'.sent && s'.sent[m] == s.sent[m]
  }

  ghost predicate ClaimKept(s: State, s': State, claim: Option<Msg>) {
    claim.Some? ==>
      && (claim.value in s.user ==> claim.value in s'.user)
      && (claim.value in s.dying ==> claim.value in s'.dying)
      && (claim.value !in s.sent ==> claim.value !in s'.sent)
      && RouteKept(s, s', claim.value)
  }

  ghost predicate Undisturbed(s: State, s': State, t: Thread, claim: Option<Msg>)
    requires Shaped(s) && Shaped(s')
  {
    s'.subs == s.subs && ThreadKept(s, s', t) && ClaimKept(s, s', claim)
  }

  lemma OtherBrokerStep(s: State, step: Step, t: Thread)
    requires Shaped(s) && BrokerPcInv(s) && Enabled(s, step) && !Mine(step, t) && BrokerStep(step)
    ensures Apply(s, step).subs == s.subs && ThreadKept(s, Apply(s, step), t)
  {
    hide Apply;
    BrokerFrame(s, step);
    if t.PollThread? && t.i < |s.subs| {
      match step
      case Take => TakeFrame(s);
      case Lock => LockFrame(s);
      case Visit => VisitFrame(s); VisitHandled(s, t.i);
      case Put => PutQueue(s);
      case Finish => FinishFrame(s);
    }
    hide Enabled;
  }

  lemma OtherPollStep(s: State, step: Step, t: Thread)
    requires Shaped(s) && Enabled(s, step) && !Mine(step, t) && PollerStep(step)
    ensures Apply(s, step).subs == s.subs && ThreadKept(s, Apply(s, step), t)
  {
    hide Apply, NextWanting;
    PollerFrame(s, step);
    match step
    case PollGet(i) => PollGetQueue(s, i);
    case RelayLock(i) => RelayLockFrame(s, i);
    case RelayPut(i) => RelayPutQueue(s, i);
    case Return(i) => ReturnFrame(s, i);
  }

  lemma OtherAppStep(s: State, step: Step, t: Thread)
    requires Shaped(s) && Enabled(s, step) && !BrokerStep(step) && !PollerStep(step) && !Resubscribes(step)
    ensures Apply(s, step).subs == s.subs && ThreadKept(s, Apply(s, step), t)
  {
    hide Apply;
    AppFrame(s, step);
    if step.Publish? {
      PublishFrame(s, step.m);
    } else if step.PublishDirect? {
      PublishDirectQueue(s, step.i, step.m);
      if t.PollThread? && t.i < |s.subs| { PublishDirectHandled(s, step.i, step.m, t.i); }
    }
    hide Enabled;
  }

  lemma StepKeepsClaim(s: State, step: Step, claim: Option<Msg>)
    requires Shaped(s) && Enabled(s, step) && (claim.Some? ==> !Consumes(step, claim.value))
    ensures ClaimKept(s, Apply(s, step), claim)
  {
    hide Apply, Enabled;
    if claim.Some? {
      StepKeepsUserRef(s, step, claim.value);
      StepKeepsDying(s, step, claim.value);
      StepKeepsSent(s, step, claim.value);
    }
  }

  lemma StepKeepsDying(s: State, step: Step, m: Msg)
    requires Shaped(s) && Enabled(s, step) && !Consumes(step, m)
    ensures m in s.dying ==> m in Apply(s, step).dying
  {
    hide Apply, NextWanting;
    match step
    case Take => TakeFrame(s);
    case Lock => LockFrame(s);
    case Visit => VisitDying(s);
    case Put => PutFrame(s);
    case Finish => FinishDying(s);
    case PollGet(i) => PollGetFrame(s, i);
    case RelayLock(i) => RelayLockDying(s, i);
    case RelayPut(i) => RelayPutFrame(s, i);
    case Return(i) => ReturnDying(s, i);
    case _ => AppKeepsDying(s, step, m);
  }

  lemma AppKeepsDying(s: State, step: Step, m: Msg)
    requires Shaped(s) && Enabled(s, step) && !BrokerStep(step) && !PollerStep(step) && !Consumes(step, m)
    ensures m in s.dying ==> m in Apply(s, step).dying
  {
  }

  lemma StepKeepsSent(s: State, step: Step, m: Msg)
    requires Shaped(s) && Enabled(s, step) && !Consumes(step, m)
    ensures m !in s.sent ==> m !in Apply(s, step).sent
    ensures RouteKept(s, Apply(s, step), m)
  {
    if step.Publish? {
      PublishSent(s, step.m);
    } else if step.PublishDirect? {
      PublishDirectSent(s, step.i, step.m);
    } else {
      SentSame(s, step);
    }
    hide Apply, Enabled;
  }

  lemma OtherStepKept(s: State, step: Step, t: Thread, claim: Option<Msg>)
    requires Inv(s) && Enabled(s, step) && ByOthers(step, t, claim)
    ensures Undisturbed(s, Apply(s, step), t, claim)
  {
    hide Apply, Enabled, ThreadKept, ClaimKept;
    StepKeepsClaim(s, step, claim);
    if BrokerStep(step) {
      OtherBrokerStep(s, step, t);
    } else if PollerStep(step) {
      OtherPollStep(s, step, t);
    } else {
      OtherAppStep(s, step, t);
    }
  }

  /** However long the other threads run, they leave alone what thread t is working on. */
  lemma {:induction false} OthersUndisturbing(s: State, steps: seq<Step>, t: Thread, claim: Option<Msg>)
    requires Inv(s) && IsRun(s, steps) && AllByOthers(steps, t, claim)
    ensures Undisturbed(s, Exec(s, steps), t, claim)
    decreases |steps|
  {
    if steps != [] {
      var s' := Apply(s, steps[0]);
      OtherStepKept(s, steps[0], t, claim);
      StepKeepsInv(s, steps[0]);
      OthersUndisturbing(s', steps[1..], t, claim);
    }
  }

  lemma {:induction false} RunSplit(s: State, a: seq<Step>, b: seq<Step>)
    requires Shaped(s) && IsRun(s, a + b)
    ensures IsRun(s, a) && IsRun(Exec(s, a), b) && Exec(s, a + b) == Exec(Exec(s, a), b)
    decreases |a|
  {
    hide Apply, Enabled;
    if a == [] {
      assert a + b == b;
    } else {
      assert (a + b)[1..] == a[1..] + b;
      RunSplit(Apply(s, a[0]), a[1..], b);
    }
  }

  /** The header words in memory decode to the headers of the protocol's state. */
  ghost predicate WordsMatch(words: map<Block, bv32>, hdr: map<Block, Header>) {
    forall b :: b in hdr ==>
      b in words && H.Decode(words[b]).id == hdr[b].id && H.Decode(words[b]).refCnt == hdr[b].refCnt
  }

  lemma WordsMatchUpdate(words: map<Block, bv32>, hdr: map<Block, Header>, b: Block, w: bv32, h: Header)
    requires WordsMatch(words, hdr) && H.Decode(w).id == h.id && H.Decode(w).refCnt == h.refCnt
    ensures WordsMatch(words[b := w], hdr[b := h])
  {
    hide H.Decode;
  }

  lemma UserShrinks(s: State, step: Step, m: Msg)
    requires Shaped(s) && Enabled(s, step) && !step.New? && !step.Acquire?
    ensures Apply(s, step).user[m] <= s.user[m]
  {
    if BrokerStep(step) {
      BrokerFrame(s, step);
    } else if PollerStep(step) {
      PollerFrame(s, step);
    } else {
      AppUserShrinks(s, step, m);
    }
    hide Apply, Enabled;
  }

  lemma AppUserShrinks(s: State, step: Step, m: Msg)
    requires Shaped(s) && Enabled(s, step) && !BrokerStep(step) && !PollerStep(step)
    requires !step.New? && !step.Acquire?
    ensures Apply(s, step).user[m] <= s.user[m]
  {
  }

  /** The application's references and the queueing subscribers together fit the 8-bit count. */
  ghost predicate FitsCount(s: State) {
    forall m :: s.user[m] + QueueSubs(s.subs) <= UINT8_MAX - 1
  }

  lemma StepKeepsFits(s: State, step: Step)
    requires Shaped(s) && FitsCount(s) && Enabled(s, step) && !step.New? && !step.Acquire?
    requires !Resubscribes(step)
    ensures FitsCount(Apply(s, step))
  {
    hide Apply, Enabled, QueueSubs;
    StepKeepsSubs(s, step);
    forall m ensures Apply(s, step).user[m] <= s.user[m] { UserShrinks(s, step, m); }
  }

  /** The step changes the count of m by d. */
  ghost predicate Counting(s: State, step: Step, m: Msg, d: int)
    requires Shaped(s)
  {
    Enabled(s, step) && !Resubscribes(step) && Touched(s, step) == Some(m) && Delta(s, step, m) == d
  }

  /** Where the count of m is when the code is about to change it. */
  lemma CountInMemory(s: State, step: Step, m: Msg, d: int)
    requires TransitInv(s) && FitsCount(s) && Counting(s, step, m, d)
    requires d != 0 && !step.New? && !step.Acquire?
    ensures m.block in s.hdr && s.hdr[m.block] == HdrOf(s, m) && HdrOf(s, m).id == m.id
    ensures if d > 0 then HdrOf(s, m).refCnt < UINT8_MAX else HdrOf(s, m).refCnt > 0
  {
    forall k ensures Apply(s, step).user[k] + QueueSubs(s.subs) <= UINT8_MAX - 1 {
      UserShrinks(s, step, k);
    }
    CountStaysInRange(s, step);
    TouchedIsOwned(s, step);
    assert MsgInv(s, m);
  }

  lemma DropRef(s: State, step: Step, m: Msg)
    requires Shaped(s) && Counting(s, step, m, -1)
    ensures !step.New? && !step.Acquire?
    ensures Apply(s, step).hdr == DecRef(s, m).hdr && Apply(s, step).dying == DecRef(s, m).dying
  {
    hide Apply, DecRef;
    match step
    case Release(_) => ReleaseDrops(s, m);
    case PublishDirect(i, _) => CallbackDrops(s, i, m);
    case Finish => FinishHeader(s, m);
    case Return(i) => ReturnHeader(s, i, m);
    case _ =>
  }

  ghost predicate Dropped(s: State, s': State, m: Msg) {
    s'.hdr == DecRef(s, m).hdr && s'.dying == DecRef(s, m).dying
  }

  lemma ReleaseDrops(s: State, m: Msg)
    requires Shaped(s) && Enabled(s, Release(m))
    ensures Dropped(s, Apply(s, Release(m)), m)
  {
  }

  lemma CallbackDrops(s: State, i: nat, m: Msg)
    requires Shaped(s) && Enabled(s, PublishDirect(i, m)) && s.subs[i].rxType == Callback
    ensures Dropped(s, Apply(s, PublishDirect(i, m)), m)
  {
  }

  lemma FinishHeader(s: State, m: Msg)
    requires Shaped(s) && Enabled(s, Finish) && s.broker.m == m
    ensures Dropped(s, Apply(s, Finish), m)
  {
  }

  lemma ReturnHeader(s: State, i: nat, m: Msg)
    requires Shaped(s) && Enabled(s, Return(i)) && s.poll[i].m == m
    ensures Dropped(s, Apply(s, Return(i)), m)
  {
  }

  /** The queues, the mutex, the free list and the handler calls are the same in both states. */
  ghost predicate SameView(s: State, s': State) {
    s'.pub == s.pub && s'.mutex == s.mutex && s'.q == s.q && s'.free == s.free && s'.handled == s.handled
  }

  lemma FreeGivesBack(s: State, m: Msg)
    requires Shaped(s) && m in s.dying
    ensures Enabled(s, Free(m))
    ensures var s' := Apply(s, Free(m));
            && SameView(s.(free := s.free + {m.block}), s') && s'.hdr == s.hdr && s'.sent == s.sent
            && m !in s'.live
  {
  }

  lemma TakesFirst(s: State)
    requires Shaped(s) && s.broker.Idle? && s.pub != []
    ensures Enabled(s, Take)
    ensures var s' := Apply(s, Take);
            && SameView(s.(pub := s.pub[1..]), s') && s'.hdr == s.hdr
            && s'.broker == Taken(s.pub[0]) && s'.taken == s.taken + [s.pub[0]]
  {
  }

  lemma LockStarts(s: State, m: Msg)
    requires Shaped(s) && s.broker == Taken(m) && s.mutex.Unowned?
    ensures Enabled(s, Lock)
    ensures var s' := Apply(s, Lock);
            && SameView(s.(mutex := ByBroker), s') && s'.hdr == s.hdr
            && s'.broker == Visiting(m, 0) && s'.taken == s.taken
  {
  }

  lemma VisitCalls(s: State, m: Msg, pos: nat)
    requires Shaped(s) && s.broker == Visiting(m, pos) && pos < |s.subs|
    requires s.subs[pos].Wants(HdrOf(s, m).id) && s.subs[pos].rxType.Callback?
    ensures Enabled(s, Visit)
    ensures var s' := Apply(s, Visit);
            && SameView(s.(handled := s.handled[pos := s.handled[pos] + [m]]), s') && s'.hdr == s.hdr
            && s'.broker == Visiting(m, pos + 1) && s'.taken == s.taken
  {
  }

  lemma VisitAcquires(s: State, m: Msg, pos: nat)
    requires Shaped(s) && s.broker == Visiting(m, pos) && pos < |s.subs|
    requires s.subs[pos].Wants(HdrOf(s, m).id) && !s.subs[pos].rxType.Callback?
    ensures Enabled(s, Visit) && Counting(s, Visit, m, 1)
    ensures var s' := Apply(s, Visit);
            && SameView(s, s') && s'.hdr == IncRef(s, m).hdr
            && s'.broker == Putting(m, pos) && s'.taken == s.taken
  {
  }

  lemma VisitSkips(s: State, m: Msg, pos: nat)
    requires Shaped(s) && s.broker == Visiting(m, pos) && pos < |s.subs|
    requires !s.subs[pos].Wants(HdrOf(s, m).id)
    ensures Enabled(s, Visit)
    ensures var s' := Apply(s, Visit);
            && SameView(s, s') && s'.hdr == s.hdr
            && s'.broker == Visiting(m, pos + 1) && s'.taken == s.taken
  {
  }

  lemma VisitEnds(s: State, m: Msg)
    requires Shaped(s) && s.broker == Visiting(m, |s.subs|)
    ensures Enabled(s, Visit)
    ensures var s' := Apply(s, Visit);
            && SameView(s.(mutex := Unowned), s') && s'.hdr == s.hdr
            && s'.broker == Unlocked(m) && s'.taken == s.taken
  {
  }

  lemma FinishDrops(s: State, m: Msg)
    requires Shaped(s) && s.broker == Unlocked(m)
    ensures Enabled(s, Finish) && Counting(s, Finish, m, -1)
    ensures var s' := Apply(s, Finish);
            SameView(s, s') && s'.broker == Idle && s'.taken == s.taken
  {
  }

  lemma PutFills(s: State, m: Msg, pos: nat)
    requires Shaped(s) && s.broker == Putting(m, pos) && pos < |s.subs| && HasRoom(s, pos)
    ensures Enabled(s, Put)
    ensures var s' := Apply(s, Put);
            && s'.pub == s.pub && s'.q == s.q[pos := s.q[pos] + [m]] && s'.free == s.free
            && s'.handled == s.handled && s'.hdr == s.hdr && s'.taken == s.taken
            && (if s.subs[pos].rxType.Fifo? then s'.broker == Unlocked(m) && s'.mutex.Unowned?
                else s'.broker == Visiting(m, pos + 1) && s'.mutex == s.mutex)
  {
  }

  ghost predicate Polls(s: State, i: nat)
    requires Shaped(s)
  {
    i < |s.subs| && !s.subs[i].rxType.Callback?
  }

  /** A message for the handler at once: from a msgq, or a private one from a fifo. */
  lemma PollGetHandles(s: State, i: nat, m: Msg)
    requires Shaped(s) && Polls(s, i) && s.poll[i].Ready? && s.q[i] != [] && m == s.q[i][0]
    requires s.subs[i].rxType.Fifo? ==> HdrOf(s, m).id > s.subs[i].maxPub
    ensures Enabled(s, PollGet(i))
    ensures var s' := Apply(s, PollGet(i));
            && SameView(s.(q := s.q[i := s.q[i][1..]], handled := s.handled[i := s.handled[i] + [m]]), s')
            && s'.hdr == s.hdr && s'.poll[i] == Handling(m)
  {
  }

  /** A public message from a fifo, to be relayed first. */
  lemma PollGetPublic(s: State, i: nat, m: Msg)
    requires Shaped(s) && Polls(s, i) && s.poll[i].Ready? && s.q[i] != [] && m == s.q[i][0]
    requires s.subs[i].rxType.Fifo? && HdrOf(s, m).id <= s.subs[i].maxPub
    ensures Enabled(s, PollGet(i))
    ensures var s' := Apply(s, PollGet(i));
            && SameView(s.(q := s.q[i := s.q[i][1..]]), s')
            && s'.hdr == s.hdr && s'.poll[i] == Got(m)
  {
  }

  lemma RelayFinds(s: State, i: nat, m: Msg, next: nat)
    requires Shaped(s) && Polls(s, i) && s.poll[i] == Got(m) && s.mutex.Unowned?
    requires next == NextWanting(s.subs, i + 1, HdrOf(s, m).id) < |s.subs|
    ensures Enabled(s, RelayLock(i)) && Counting(s, RelayLock(i), m, 1)
    ensures var s' := Apply(s, RelayLock(i));
            && SameView(s.(mutex := ByPoller(i)), s') && s'.hdr == IncRef(s, m).hdr
            && s'.poll[i] == Relaying(m, next)
  {
  }

  lemma RelayFindsNobody(s: State, i: nat, m: Msg)
    requires Shaped(s) && Polls(s, i) && s.poll[i] == Got(m) && s.mutex.Unowned?
    requires NextWanting(s.subs, i + 1, HdrOf(s, m).id) == |s.subs|
    ensures Enabled(s, RelayLock(i))
    ensures var s' := Apply(s, RelayLock(i));
            && SameView(s.(handled := s.handled[i := s.handled[i] + [m]]), s')
            && s'.hdr == s.hdr && s'.poll[i] == Handling(m)
  {
  }

  lemma RelayPutFills(s: State, i: nat, m: Msg, next: nat)
    requires Shaped(s) && Polls(s, i) && s.poll[i] == Relaying(m, next) && next < |s.subs|
    ensures Enabled(s, RelayPut(i))
    ensures var s' := Apply(s, RelayPut(i));
            && SameView(s.(q := s.q[next := s.q[next] + [m]], mutex := Unowned,
                           handled := s.handled[i := s.handled[i] + [m]]), s')
            && s'.hdr == s.hdr && s'.poll[i] == Handling(m)
  {
  }

  lemma ReturnDrops(s: State, i: nat, m: Msg)
    requires Shaped(s) && Polls(s, i) && s.poll[i] == Handling(m)
    ensures Enabled(s, Return(i)) && Counting(s, Return(i), m, -1)
    ensures var s' := Apply(s, Return(i)); SameView(s, s') && s'.poll[i] == Ready
  {
  }

  /** A message the broker has finished with is at every subscriber it goes to from the broker: all
      callback and msgq subscribers, and the first fifo subscriber, that take it. */
  ghost predicate AtTargets(s: State, m: Msg)
    requires Shaped(s)
  {
    forall i :: 0 <= i < |s.subs| && s.subs[i].Wants(m.id)
                && (s.subs[i].rxType.Fifo? ==> First(s.subs, i, {m.id})) ==>
      m in if s.subs[i].rxType.Callback? then s.handled[i] else Arrived(s, i)
  }

  lemma TakenIsAtTargets(s: State, m: Msg)
    requires DeliveryInv(s) && s.broker.Idle? && m in s.taken
    ensures AtTargets(s, m)
  {
    forall i | 0 <= i < |s.subs| && s.subs[i].Wants(m.id)
               && (s.subs[i].rxType.Fifo? ==> First(s.subs, i, {m.id}))
      ensures m in if s.subs[i].rxType.Callback? then s.handled[i] else Arrived(s, i)
    {
      assert SubOrd(s, i) && PollInv(s, i);
      var ids := if s.subs[i].rxType.Fifo? then {m.id} else s.subs[i].Wanted();
      assert s.subs[i].rxType.Fifo? ==> FirstFed(s, i, ids);
      SelIn(ids, s.taken, m);
      SelIn(ids, Arrived(s, i), m);
    }
  }

  /** A public message handled by fifo subscriber i has been relayed to the next one that takes it. */
  ghost predicate Relayed(s: State, i: nat, m: Msg)
    requires Shaped(s) && i < |s.subs|
  {
    var next := NextWanting(s.subs, i + 1, m.id);
    s.subs[i].rxType.Fifo? && m.id <= s.subs[i].maxPub && next < |s.subs| ==> m in Arrived(s, next)
  }

  lemma HandledIsRelayed(s: State, i: nat, m: Msg)
    requires DeliveryInv(s) && i < |s.subs| && m in s.handled[i]
    ensures Relayed(s, i, m)
  {
    var next := NextWanting(s.subs, i + 1, m.id);
    if s.subs[i].rxType.Fifo? && m.id <= s.subs[i].maxPub && next < |s.subs| {
      assert SubOrd(s, i);
      assert m in Arrived(s, i);
      assert Adjacent(s.subs, i, next, {m.id});
      assert ChainFed(s, i, next, {m.id});
      SelIn({m.id}, s.handled[i], m);
      SelIn({m.id}, Arrived(s, next), m);
    }
  }

  lemma DirectToCallback(s: State, i: nat, m: Msg)
    requires Shaped(s) && i < |s.subs| && s.subs[i].rxType.Callback?
    requires m in s.user && m !in s.sent && HdrOf(s, m).id > s.subs[i].maxPub
    ensures Enabled(s, PublishDirect(i, m)) && Counting(s, PublishDirect(i, m), m, -1)
    ensures var s' := Apply(s, PublishDirect(i, m));
            && SameView(s.(handled := s.handled[i := s.handled[i] + [m]]), s')
            && SentDirect(s', i, m)
  {
  }

  lemma DirectIsHandled(s: State, i: nat, m: Msg)
    requires DeliveryInv(s) && i < |s.subs| && s.subs[i].rxType.Callback? && SentDirect(s, i, m)
    ensures m in s.handled[i]
  {
    assert SentInv(s, m) && SubOrd(s, i) && PollInv(s, i);
    CountIn(s.direct[i], m);
    SelIn(PrivateIds(s.subs[i]), Arrived(s, i), m);
  }

  lemma DirectToQueue(s: State, i: nat, m: Msg)
    requires Shaped(s) && i < |s.subs| && !s.subs[i].rxType.Callback? && HasRoom(s, i)
    requires m in s.user && m !in s.sent && HdrOf(s, m).id > s.subs[i].maxPub
    ensures Enabled(s, PublishDirect(i, m))
    ensures var s' := Apply(s, PublishDirect(i, m));
            && SameView(s.(q := s.q[i := s.q[i] + [m]]), s') && s'.hdr == s.hdr
            && s'.direct == s.direct[i := s.direct[i] + [m]]
  {
  }

  /** Some other thread can take a framework step, so a thread that waits need not wait forever: every
      such step uses up work (Drain.StepWorks). */
  ghost predicate OthersCanMove(s: State, t: Thread)
    requires Shaped(s)
  {
    exists step :: Enabled(s, step) && Drains(step, {}) && !Mine(step, t)
  }

  /** Is thread t about to lock the list mutex? */
  ghost predicate AtLock(s: State, t: Thread)
    requires Shaped(s)
  {
    match t
    case BrokerThread => s.broker.Taken?
    case PollThread(i) => i < |s.subs| && !s.subs[i].rxType.Callback? && s.poll[i].Got?
    case AppThread => false
  }

  lemma LockWaitEnds(s: State, t: Thread)
    requires Inv(s) && AtLock(s, t) && !s.mutex.Unowned?
    ensures OthersCanMove(s, t)
  {
    if t.PollThread? { assert PollInv(s, t.i); }
    var step := HolderCanMove(s, {});
    assert !Mine(step, t);
  }

  lemma RoomWaitEnds(s: State, t: Thread, i: nat)
    requires Inv(s) && i < |s.subs| && s.subs[i].rxType.Msgq? && !HasRoom(s, i) && !t.PollThread?
    ensures OthersCanMove(s, t)
  {
    assert PollInv(s, i);
    var step := if s.poll[i].Ready? then PollGet(i) else Return(i);
    assert Enabled(s, step) && Drains(step, {}) && !Mine(step, t);
  }

  class Framework {
    const subs: seq<Sub>                  // the broker's list
    const pool: set<Block>
    var publishFifo: seq<Msg>             // msg_publish_fifo
    var mutex: Mutex                      // sub_list_mutex
    var queue: seq<seq<Msg>>              // the fifo or msgq of each subscriber
    var words: map<Block, bv32>           // the header of each block
    var free: set<Block>                  // the slab's free list
    var calls: seq<seq<Msg>>              // the calls of each subscriber's handler
    ghost var s: State
    ghost var trace: seq<Step>            // what all threads have done so far

    ghost predicate Reached()
      reads this
    {
      && ValidSubs(subs) && Shaped(s) && s.subs == subs
      && IsRun(Init(subs, pool), trace) && FixedSubscriptions(trace) && s == Exec(Init(subs, pool), trace)
      && FitsCount(s)
    }

    /** The queues, the mutex, the free list and the handler calls are those of x. */
    ghost predicate Mirrors(x: State)
      reads this
    {
      && publishFifo == x.pub && mutex == x.mutex && queue == x.q && free == x.free && calls == x.handled
    }

    /** ... but the mutex is still to be unlocked. */
    ghost predicate ValidButMutex()
      reads this
    {
      Reached() && Mirrors(s.(mutex := mutex)) && WordsMatch(words, s.hdr)
    }

    ghost predicate Valid()
      reads this
    {
      ValidButMutex() && mutex == s.mutex
    }

    constructor (subs: seq<Sub>, pool: set<Block>)
      requires ValidSubs(subs) && QueueSubs(subs) <= UINT8_MAX - 1
      ensures Valid() && trace == [] && this.subs == subs && this.pool == pool
    {
      this.subs, this.pool := subs, pool;
      publishFifo, mutex, words, free := [], Unowned, map[], pool;
      queue := seq(|subs|, _ => []);
      calls := seq(|subs|, _ => []);
      s, trace := Init(subs, pool), [];
    }

    lemma ReachedInv()
      requires Reached()
      ensures DeliveryInv(s) && TransitInv(s)
    {
      InitDeliveryInv(subs, pool);
      RunKeepsDeliveryInv(Init(subs, pool), trace);
      InitTransitInv(subs, pool);
      RunKeepsTransitInv(Init(subs, pool), trace);
    }

    /** The state makes a step of the protocol. */
    ghost method TakeStep(step: Step)
      requires Reached() && Enabled(s, step) && !Resubscribes(step) && !step.New? && !step.Acquire?
      modifies this`s, this`trace
      ensures Reached() && s == Apply(old(s), step) && trace == old(trace) + [step]
    {
      hide Apply, Enabled, Init, FitsCount;
      RunOne(s, step);
      RunConcat(Init(subs, pool), trace, [step]);
      StepKeepsSubs(s, step);
      StepKeepsFits(s, step);
      trace := trace + [step];
      s := Apply(s, step);
    }

    // ----- interference -----

    /** Anything the other threads may do. All that callers know of it is that it is some run of
        steps by others; that the body does nothing is just one of these runs. */
    method OthersStep(ghost t: Thread, ghost claim: Option<Msg>) returns (ghost steps: seq<Step>)
      requires Valid()
      modifies this
      ensures Valid() && trace == old(trace) + steps && AllByOthers(steps, t, claim)
    {
      steps := [];
      assert trace == old(trace) + steps;
    }

    method OthersRun(ghost t: Thread, ghost claim: Option<Msg>)
      requires Valid()
      modifies this
      ensures Valid() && Undisturbed(old(s), s, t, claim)
    {
      ghost var steps := OthersStep(t, claim);
      RunSplit(Init(subs, pool), old(trace), steps);
      InitDeliveryInv(subs, pool);
      RunKeepsDeliveryInv(Init(subs, pool), old(trace));
      OthersUndisturbing(old(s), steps, t, claim);
    }

    lemma MutexIsHeld(t: Thread)
      requires Reached() && AtLock(s, t) && !s.mutex.Unowned?
      ensures OthersCanMove(s, t)
    {
      ReachedInv();
      LockWaitEnds(s, t);
    }

    lemma QueueIsFull(t: Thread, i: nat)
      requires Reached() && i < |subs| && subs[i].rxType.Msgq? && !HasRoom(s, i) && !t.PollThread?
      ensures OthersCanMove(s, t)
    {
      ReachedInv();
      RoomWaitEnds(s, t, i);
    }

    /** k_mutex_lock up to the moment the mutex is found free; gives up after `patience` looks. */
    method AwaitMutex(ghost t: Thread, patience: nat) returns (ok: bool)
      requires Valid() && AtLock(s, t)
      modifies this
      ensures Valid() && Undisturbed(old(s), s, t, None)
      ensures if ok then mutex.Unowned? else OthersCanMove(s, t)
    {
      OthersRun(t, None);
      var left := patience;
      while left > 0 && !mutex.Unowned?
        invariant Valid() && Undisturbed(old(s), s, t, None)
      {
        OthersRun(t, None);
        left := left - 1;
      }
      ok := mutex.Unowned?;
      if !ok { MutexIsHeld(t); }
    }

    /** Waiting in k_msgq_put for room in the message queue of subscriber i. */
    method AwaitRoom(ghost t: Thread, ghost claim: Option<Msg>, i: nat, patience: nat) returns (ok: bool)
      requires Valid() && i < |subs| && !t.PollThread?
      modifies this
      ensures Valid() && Undisturbed(old(s), s, t, claim)
      ensures if ok then HasRoom(s, i) else OthersCanMove(s, t)
    {
      OthersRun(t, claim);
      var left := patience;
      while left > 0 && subs[i].rxType.Msgq? && |queue[i]| >= subs[i].capacity
        invariant Valid() && Undisturbed(old(s), s, t, claim)
      {
        OthersRun(t, claim);
        left := left - 1;
      }
      ok := subs[i].rxType.Msgq? ==> |queue[i]| < subs[i].capacity;
      if !ok { QueueIsFull(t, i); }
    }

    // ----- reference counts -----

    /** pub_sub_msg_inc_ref_cnt: the message id and the allocator id in the same word, and all other
        headers, stay as they are. The `requires` is the assertion made by that code. */
    method IncRefCnt(m: Msg)
      requires m.block in words && H.Decode(words[m.block]).refCnt < UINT8_MAX
      modifies this`words
      ensures m.block in words && words == old(words)[m.block := words[m.block]]
      ensures var before := H.Decode(old(words)[m.block]);
              H.Decode(words[m.block]) == before.(refCnt := before.refCnt + 1)
    {
      words := words[m.block := H.Acquired(words[m.block])];
    }

    /** pub_sub_msg_dec_ref_cnt, likewise; the count before is the result. */
    method DecRefCnt(m: Msg) returns (prev: int)
      requires m.block in words && H.Decode(words[m.block]).refCnt > 0
      modifies this`words
      ensures m.block in words && words == old(words)[m.block := words[m.block]]
      ensures var before := H.Decode(old(words)[m.block]);
              H.Decode(words[m.block]) == before.(refCnt := before.refCnt - 1) && prev == before.refCnt
    {
      prev := H.Decode(words[m.block]).refCnt;
      words := words[m.block := H.Released(words[m.block])];
    }

    ghost predicate CountKnown(m: Msg, d: int)
      reads this
    {
      && m.block in s.hdr && s.hdr[m.block] == HdrOf(s, m) && HdrOf(s, m).id == m.id
      && if d > 0 then HdrOf(s, m).refCnt < UINT8_MAX else HdrOf(s, m).refCnt > 0
    }

    /** pub_sub_acquire_msg, as part of step `step`. */
    method AcquireMsg(m: Msg, ghost step: Step)
      requires ValidButMutex() && Counting(s, step, m, 1) && (step.Visit? || step.RelayLock?)
      modifies this`words
      ensures WordsMatch(words, IncRef(s, m).hdr)
    {
      hide H.Decode, Apply, Enabled, Touched, Delta, Init, Exec, IsRun, FitsCount, ApplyVisit, ApplyRelayLock;
      assert CountKnown(m, 1) by { ReachedInv(); CountInMemory(s, step, m, 1); }
      ghost var before := words;
      IncRefCnt(m);
      WordsMatchUpdate(before, s.hdr, m.block, words[m.block], HdrOf(s, m).(refCnt := HdrOf(s, m).refCnt + 1));
    }

    /** The decrement in pub_sub_release_msg, with `step` dropping the reference. */
    method DropMsg(m: Msg, ghost step: Step) returns (prev: int)
      requires Reached() && WordsMatch(words, s.hdr) && Counting(s, step, m, -1)
      requires Mirrors(Apply(s, step))
      modifies this`words, this`s, this`trace
      ensures Valid() && s == Apply(old(s), step)
      ensures prev == HdrOf(old(s), m).refCnt && (prev == 1 ==> m in s.dying)
    {
      hide H.Decode, Apply, Enabled, Touched, Delta, Resubscribes, Init, Exec, IsRun, FitsCount;
      DropRef(s, step, m);
      assert CountKnown(m, -1) by { ReachedInv(); CountInMemory(s, step, m, -1); }
      ghost var before := words;
      prev := DecRefCnt(m);
      WordsMatchUpdate(before, s.hdr, m.block, words[m.block], HdrOf(s, m).(refCnt := HdrOf(s, m).refCnt - 1));
      TakeStep(step);
    }

    /** The call of the allocator's free function. */
    method FreeMsg(m: Msg, ghost t: Thread)
      requires Valid() && m in s.dying
      modifies this
      ensures Valid() && Undisturbed(old(s), s, t, None) && RouteKept(old(s), s, m)
      ensures m !in s.live && m.block in free
    {
      hide Apply, Enabled, Init, Exec, IsRun, FitsCount;
      OthersRun(t, Some(m));
      FreeGivesBack(s, m);
      OtherAppStep(s, Free(m), t);
      free := free + {m.block};
      TakeStep(Free(m));
    }

    /** pub_sub_release_msg: the thread that drops the last reference gives the block back. */
    method ReleaseMsg(m: Msg, ghost step: Step, ghost t: Thread)
      requires Reached() && WordsMatch(words, s.hdr) && Counting(s, step, m, -1)
      requires Mirrors(Apply(s, step))
      modifies this
      ensures Valid() && Undisturbed(Apply(old(s), step), s, t, None) && RouteKept(Apply(old(s), step), s, m)
      ensures if HdrOf(old(s), m).refCnt == 1 then m !in s.live && m.block in free else s == Apply(old(s), step)
    {
      var prev := DropMsg(m, step);
      if prev == 1 {
        FreeMsg(m, t);
      }
    }

    // ----- the broker's work item -----

    lemma BrokerReads(m: Msg)
      requires Reached() && !s.broker.Idle? && s.broker.m == m
      ensures HdrOf(s, m).id == m.id
    {
      ReachedInv();
      BrokerId(s);
    }

    /** The callback of list position pos is called in the loop of process_msg. */
    method CallSub(pos: nat, m: Msg)
      requires Valid() && s.broker == Visiting(m, pos) && pos < |subs|
      requires subs[pos].Wants(m.id) && subs[pos].rxType.Callback?
      modifies this
      ensures Valid() && s.taken == old(s.taken) && s.broker == Visiting(m, pos + 1)
    {
      hide Apply, Enabled, Touched, Delta, Init, Exec, IsRun, FitsCount;
      BrokerReads(m);
      VisitCalls(s, m, pos);
      calls := calls[pos := calls[pos] + [m]];
      TakeStep(Visit);
    }

    /** The acquisition for list position pos in the loop of process_msg. */
    method AcquireForSub(pos: nat, m: Msg)
      requires Valid() && s.broker == Visiting(m, pos) && pos < |subs|
      requires subs[pos].Wants(m.id) && !subs[pos].rxType.Callback?
      modifies this
      ensures Valid() && s.taken == old(s.taken) && s.broker == Putting(m, pos)
    {
      hide Apply, Enabled, Touched, Delta, Resubscribes, Init, Exec, IsRun, FitsCount;
      BrokerReads(m);
      VisitAcquires(s, m, pos);
      AcquireMsg(m, Visit);
      TakeStep(Visit);
    }

    /** k_msgq_put in process_msg, waiting for room. */
    method PutMsgq(pos: nat, m: Msg, patience: nat) returns (ok: bool)
      requires Valid() && s.broker == Putting(m, pos) && pos < |subs| && subs[pos].rxType.Msgq?
      modifies this
      ensures Valid() && s.taken == old(s.taken)
      ensures if ok then s.broker == Visiting(m, pos + 1) else OthersCanMove(s, BrokerThread)
    {
      hide Apply, Enabled, Touched, Delta, Init, Exec, IsRun, FitsCount;
      ok := AwaitRoom(BrokerThread, None, pos, patience);
      if ok {
        PutFills(s, m, pos);
        queue := queue[pos := queue[pos] + [m]];
        TakeStep(Put);
      }
    }

    /** pub_sub_msg_fifo_put in process_msg; leaving the loop and unlocking the mutex come next. */
    method PutFifo(pos: nat, m: Msg)
      requires Valid() && s.broker == Putting(m, pos) && pos < |subs| && subs[pos].rxType.Fifo?
      modifies this
      ensures ValidButMutex() && s.mutex.Unowned? && mutex == ByBroker
      ensures s.taken == old(s.taken) && s.broker == Unlocked(m)
    {
      hide Apply, Enabled, Touched, Delta, Init, Exec, IsRun, FitsCount;
      OthersRun(BrokerThread, None);
      assert s.mutex == ByBroker by { ReachedInv(); }
      PutFills(s, m, pos);
      queue := queue[pos := queue[pos] + [m]];
      TakeStep(Put);
    }

    /** A subscriber that does not take the message is passed over. */
    ghost method SkipSub(pos: nat, m: Msg)
      requires Valid() && s.broker == Visiting(m, pos) && pos < |subs| && !subs[pos].Wants(m.id)
      modifies this`s, this`trace
      ensures Valid() && s.taken == old(s.taken) && s.broker == Visiting(m, pos + 1)
    {
      hide Apply, Enabled, Touched, Delta, Init, Exec, IsRun, FitsCount;
      BrokerReads(m);
      VisitSkips(s, m, pos);
      TakeStep(Visit);
    }

    /** Taking the mutex and starting at the head of the list. */
    method LockList(m: Msg, patience: nat) returns (ok: bool)
      requires Valid() && s.broker == Taken(m)
      modifies this
      ensures Valid() && s.taken == old(s.taken)
      ensures if ok then s.broker == Visiting(m, 0) else OthersCanMove(s, BrokerThread)
    {
      hide Apply, Enabled, Init, Exec, IsRun, FitsCount;
      ok := AwaitMutex(BrokerThread, patience);
      if ok {
        LockStarts(s, m);
        mutex := ByBroker;
        TakeStep(Lock);
      }
    }

    /** Unlocking, after the end of the list or after a fifo put. */
    method UnlockList(m: Msg, ghost fifoSubHandled: bool)
      requires ValidButMutex()
      requires s.broker == if fifoSubHandled then Unlocked(m) else Visiting(m, |subs|)
      requires fifoSubHandled ==> s.mutex.Unowned?
      modifies this
      ensures Valid() && s.taken == old(s.taken) && s.broker == Unlocked(m)
    {
      hide Apply, Enabled, Touched, Delta, Init, Exec, IsRun, FitsCount;
      if !fifoSubHandled {
        VisitEnds(s, m);
        TakeStep(Visit);
      }
      mutex := Unowned;
    }

    /** The release at the end of process_msg. */
    method ReleaseProcessed(m: Msg)
      requires Valid() && s.broker == Unlocked(m)
      modifies this
      ensures Valid() && s.taken == old(s.taken) && s.broker.Idle? && AtTargets(s, m)
    {
      hide Apply, Enabled, Touched, Delta, Resubscribes, Init, Exec, IsRun, FitsCount;
      assert m in s.taken by { ReachedInv(); }
      OthersRun(BrokerThread, None);
      FinishDrops(s, m);
      ReleaseMsg(m, Finish, BrokerThread);
      assert AtTargets(s, m) by { ReachedInv(); TakenIsAtTargets(s, m); }
    }

    /** process_msg, for a message just dequeued: `done` is false when patience ran out while it was
        blocked on the mutex or on a full message queue. */
    method ProcessMsg(id: nat, m: Msg, patience: nat) returns (done: bool)
      requires Valid() && s.broker == Taken(m) && id == m.id
      modifies this
      ensures Valid() && s.taken == old(s.taken)
      ensures if done then s.broker.Idle? && AtTargets(s, m) else OthersCanMove(s, BrokerThread)
    {
      hide ValidButMutex;
      done := LockList(m, patience);
      if !done {
        return;
      }
      var fifoSubHandled := false;
      var pos := 0;
      while pos < |subs|
        invariant Valid() && pos <= |subs| && s.broker == Visiting(m, pos) && s.taken == old(s.taken)
      {
        OthersRun(BrokerThread, None);
        if subs[pos].Wants(id) {
          match subs[pos].rxType {
            case Callback =>
              CallSub(pos, m);
            case Msgq =>
              AcquireForSub(pos, m);
              done := PutMsgq(pos, m, patience);
              if !done {
                return;
              }
            case Fifo =>
              AcquireForSub(pos, m);
              PutFifo(pos, m);
              fifoSubHandled := true;
          }
          if fifoSubHandled {
            break;
          }
        } else {
          SkipSub(pos, m);
        }
        pos := pos + 1;
      }
      UnlockList(m, fifoSubHandled);
      ReleaseProcessed(m);
    }

    /** pub_sub_msg_get_msg_id: reads the word in memory. */
    method GetMsgId(m: Msg) returns (id: nat)
      requires Valid() && Owners(s, m) > 0
      ensures id == m.id && HdrOf(s, m).id == id
    {
      assert m.block in s.hdr && HdrOf(s, m).id == m.id by {
        ReachedInv();
        assert MsgInv(s, m);
      }
      hide H.Decode;
      id := H.Decode(words[m.block]).id;
    }

    /** pub_sub_msg_fifo_get on the publish fifo, without waiting. */
    method NextPublished() returns (msg: Option<Msg>)
      requires Valid() && s.broker.Idle?
      modifies this
      ensures Valid()
      ensures if msg.None? then s == old(s) && publishFifo == []
              else old(publishFifo) == [msg.value] + publishFifo && s.broker == Taken(msg.value)
                   && s.taken == old(s.taken) + [msg.value]
    {
      hide Apply, Enabled, Init, Exec, IsRun, FitsCount;
      msg := None;
      if publishFifo != [] {
        TakesFirst(s);
        msg := Some(publishFifo[0]);
        publishFifo := publishFifo[1..];
        TakeStep(Take);
      }
    }

    /** The broker has nothing left to do. */
    ghost predicate Drained()
      reads this
    {
      Reached() && s.broker.Idle? && publishFifo == [] && forall m :: m in Published(s) ==> AtTargets(s, m)
    }

    /** publish_work_handler: processes messages until the publish fifo is found empty; `done` is
        false when patience ran out, or `budget` with the fifo never found empty. */
    method PublishWorkHandler(budget: nat, patience: nat) returns (done: bool)
      requires Valid() && s.broker.Idle?
      modifies this
      ensures Valid()
      ensures if done then Drained()
              else OthersCanMove(s, BrokerThread) || |s.taken| > old(|s.taken|) + budget
    {
      hide Init, Exec, IsRun, FitsCount, AtTargets, OthersCanMove;
      var left := budget;
      var msg := NextPublished();
      while msg.Some?
        invariant Valid()
        invariant if msg.Some? then s.broker == Taken(msg.value) else s.broker.Idle? && publishFifo == []
        invariant msg.Some? ==> |s.taken| == old(|s.taken|) + 1 + (budget - left)
        decreases left
      {
        if left == 0 {
          return false;
        }
        var id := GetMsgId(msg.value);
        var ok := ProcessMsg(id, msg.value, patience);
        if !ok {
          return false;
        }
        msg := NextPublished();
        left := left - 1;
      }
      AllAtTargets();
      done := true;
    }

    lemma AllAtTargets()
      requires Reached() && s.broker.Idle? && s.pub == []
      ensures forall m :: m in Published(s) ==> AtTargets(s, m)
    {
      ReachedInv();
      forall m | m in Published(s) ensures AtTargets(s, m) { TakenIsAtTargets(s, m); }
      hide DeliveryInv, TransitInv, AtTargets;
    }

    // ----- a polling thread -----

    /** The message i's thread has dequeued, as the code reads it. */
    lemma PollerReads(i: nat, m: Msg)
      requires Reached() && Polls(s, i) && !s.poll[i].Ready? && s.poll[i].m == m
      ensures HdrOf(s, m).id == m.id && Owners(s, m) > 0
    {
      ReachedInv();
      PollerId(s, i);
      ShareOwned(s, i, m);
    }

    lemma HeadReads(i: nat)
      requires Reached() && Polls(s, i) && s.q[i] != []
      ensures HdrOf(s, s.q[i][0]).id == s.q[i][0].id && Owners(s, s.q[i][0]) > 0
    {
      ReachedInv();
      QueuedId(s, i);
      CountTail(s.q[i], s.q[i][0]);
      ShareOwned(s, i, s.q[i][0]);
    }

    /** The handler of subscriber i is about to be called with m: only that call is missing. */
    ghost predicate AboutToHandle(i: nat, m: Msg)
      reads this
    {
      && Reached() && WordsMatch(words, s.hdr) && Polls(s, i) && s.poll[i] == Handling(m)
      && Mirrors(s.(handled := calls)) && |calls| == |subs| && s.handled == calls[i := calls[i] + [m]]
    }

    /** The search in send_to_next_fifo_subscriber: the next position whose subscriber takes `id`. */
    method FindNext(i: nat, id: nat) returns (next: nat)
      requires i < |subs|
      ensures next == NextWanting(subs, i + 1, id)
    {
      next := i + 1;
      while next < |subs| && !subs[next].Wants(id)
        invariant next <= |subs| && NextWanting(subs, i + 1, id) == NextWanting(subs, next, id)
      {
        next := next + 1;
      }
    }

    /** The lock and the acquisition in send_to_next_fifo_subscriber. */
    method AcquireForNext(i: nat, m: Msg, next: nat)
      requires Valid() && Polls(s, i) && s.poll[i] == Got(m) && s.mutex.Unowned?
      requires next == NextWanting(subs, i + 1, HdrOf(s, m).id) < |subs|
      modifies this
      ensures Valid() && s.poll[i] == Relaying(m, next) && s.handled == old(s.handled)
    {
      hide Apply, Enabled, Touched, Delta, Init, Exec, IsRun, FitsCount;
      RelayFinds(s, i, m, next);
      mutex := ByPoller(i);
      AcquireMsg(m, RelayLock(i));
      TakeStep(RelayLock(i));
    }

    /** The put and the unlock in send_to_next_fifo_subscriber. */
    method RelayTo(i: nat, m: Msg, next: nat)
      requires Valid() && Polls(s, i) && s.poll[i] == Relaying(m, next) && next < |subs|
      modifies this
      ensures AboutToHandle(i, m) && s.handled[i] == old(s.handled[i]) + [m]
    {
      hide Apply, Enabled, Touched, Delta, Init, Exec, IsRun, FitsCount;
      OthersRun(PollThread(i), None);
      RelayPutFills(s, i, m, next);
      queue := queue[next := queue[next] + [m]];
      mutex := Unowned;
      TakeStep(RelayPut(i));
    }

    /** send_to_next_fifo_subscriber; `ok` is false when patience ran out waiting for the mutex. */
    method SendToNextFifo(i: nat, id: nat, m: Msg, patience: nat) returns (ok: bool)
      requires Valid() && Polls(s, i) && s.poll[i] == Got(m) && id == m.id
      modifies this
      ensures if ok then AboutToHandle(i, m) && s.handled[i] == old(s.handled[i]) + [m]
              else Valid() && OthersCanMove(s, PollThread(i))
    {
      hide Apply, Enabled, Touched, Delta, Init, Exec, IsRun, FitsCount;
      ok := AwaitMutex(PollThread(i), patience);
      if ok {
        PollerReads(i, m);
        var next := FindNext(i, id);
        if next < |subs| {
          AcquireForNext(i, m, next);
          RelayTo(i, m, next);
        } else {
          RelayFindsNobody(s, i, m);
          TakeStep(RelayLock(i));
        }
      }
    }

    /** Waiting, or not, for a message to be queued at subscriber i. */
    method AwaitMsg(i: nat, wait: bool) returns (msg: Option<Msg>)
      requires Valid() && Polls(s, i) && s.poll[i].Ready?
      modifies this
      ensures Valid() && Undisturbed(old(s), s, PollThread(i), None)
      ensures if queue[i] == [] then msg.None? else msg == Some(queue[i][0])
    {
      if wait {
        OthersRun(PollThread(i), None);
      }
      msg := if queue[i] == [] then None else Some(queue[i][0]);
    }

    /** The handler has been called: it runs, then the message is released. */
    method FinishHandling(i: nat, m: Msg)
      requires Valid() && Polls(s, i) && s.poll[i] == Handling(m) && m in s.handled[i]
      modifies this
      ensures Valid() && s.poll[i].Ready? && s.handled[i] == old(s.handled[i]) && Relayed(s, i, m)
    {
      hide Apply, Enabled, Touched, Delta, Init, Exec, IsRun, FitsCount;
      OthersRun(PollThread(i), None);
      ReturnDrops(s, i, m);
      ReleaseMsg(m, Return(i), PollThread(i));
      assert Relayed(s, i, m) by { ReachedInv(); HandledIsRelayed(s, i, m); }
    }

    /** Dequeues m and calls the handler: a msgq message, or a private message of a fifo subscriber. */
    method HandleNow(i: nat, m: Msg)
      requires Valid() && Polls(s, i) && s.poll[i].Ready? && queue[i] != [] && m == queue[i][0]
      requires subs[i].rxType.Fifo? ==> m.id > subs[i].maxPub
      modifies this
      ensures Valid() && s.poll[i] == Handling(m) && s.handled[i] == old(s.handled[i]) + [m]
    {
      hide Apply, Enabled, Touched, Delta, Init, Exec, IsRun, FitsCount;
      HeadReads(i);
      PollGetHandles(s, i, m);
      queue := queue[i := queue[i][1..]];
      calls := calls[i := calls[i] + [m]];
      TakeStep(PollGet(i));
    }

    /** Dequeues a public message from the fifo of subscriber i. */
    method DequeuePublic(i: nat, m: Msg)
      requires Valid() && Polls(s, i) && s.poll[i].Ready? && queue[i] != [] && m == queue[i][0]
      requires subs[i].rxType.Fifo? && m.id <= subs[i].maxPub
      modifies this
      ensures Valid() && s.poll[i] == Got(m) && s.handled[i] == old(s.handled[i])
    {
      hide Apply, Enabled, Touched, Delta, Init, Exec, IsRun, FitsCount;
      HeadReads(i);
      PollGetPublic(s, i, m);
      queue := queue[i := queue[i][1..]];
      TakeStep(PollGet(i));
    }

    /** Dequeues a public message from a fifo, relays it, then calls the handler. */
    method HandlePublic(i: nat, id: nat, m: Msg, patience: nat) returns (ok: bool)
      requires Valid() && Polls(s, i) && s.poll[i].Ready? && queue[i] != [] && m == queue[i][0]
      requires subs[i].rxType.Fifo? && id == m.id <= subs[i].maxPub
      modifies this
      ensures Valid()
      ensures if ok then s.poll[i] == Handling(m) && s.handled[i] == old(s.handled[i]) + [m]
              else OthersCanMove(s, PollThread(i))
    {
      hide Init, Exec, IsRun, FitsCount, OthersCanMove, WordsMatch;
      DequeuePublic(i, m);
      ok := SendToNextFifo(i, id, m, patience);
      if ok {
        calls := calls[i := calls[i] + [m]];
      }
    }

    /** One call of pub_sub_handle_queued_msg by i's polling thread that got a message: it was the
        first one queued, the handler was called with it, once, and it has been relayed. */
    ghost predicate HandledOne(i: nat, before: seq<Msg>, queued: seq<Msg>)
      reads this
    {
      && Reached() && Polls(s, i) && |calls| == |subs| && s.poll[i].Ready?
      && |calls[i]| == |before| + 1 && before <= calls[i]
      && (queued != [] ==> calls[i][|before|] == queued[0])
      && Relayed(s, i, calls[i][|before|])
    }

    /** pub_sub_handle_queued_msg once there is a message. */
    method HandleMsg(i: nat, m: Msg, patience: nat) returns (done: bool)
      requires Valid() && Polls(s, i) && s.poll[i].Ready? && queue[i] != [] && m == queue[i][0]
      modifies this
      ensures Valid()
      ensures if done then s.poll[i].Ready? && calls[i] == old(calls[i]) + [m] && Relayed(s, i, m)
              else OthersCanMove(s, PollThread(i))
    {
      HeadReads(i);
      done := true;
      var id := GetMsgId(m);
      if subs[i].rxType.Fifo? && id <= subs[i].maxPub {
        done := HandlePublic(i, id, m, patience);
        if !done {
          return;
        }
      } else {
        HandleNow(i, m);
      }
      FinishHandling(i, m);
    }

    /** pub_sub_handle_queued_msg; `done` is false when patience ran out waiting for the mutex. */
    method HandleQueuedMsg(i: nat, wait: bool, patience: nat) returns (ret: int, done: bool)
      requires Valid() && i < |subs| && (Polls(s, i) ==> s.poll[i].Ready?)
      modifies this
      ensures Valid()
      ensures ret in {0, EPERM, EAGAIN, ENOMSG} && (ret == EPERM <==> subs[i].rxType.Callback?)
      ensures ret == EAGAIN ==> wait && subs[i].rxType.Msgq?
      ensures ret == ENOMSG ==> !wait || subs[i].rxType.Fifo?
      ensures ret == EPERM ==> done && s == old(s)
      ensures ret in {EAGAIN, ENOMSG} ==>
                done && old(queue[i]) == queue[i] == [] && calls[i] == old(calls[i]) && s.poll[i].Ready?
      ensures ret == 0 && done ==> HandledOne(i, old(calls[i]), old(queue[i]))
      ensures !done ==> OthersCanMove(s, PollThread(i))
    {
      ret, done := ENOMSG, true;
      if subs[i].rxType.Callback? {
        ret := EPERM;
        return;
      }
      var msg := AwaitMsg(i, wait);
      if msg.None? {
        if wait && subs[i].rxType.Msgq? {
          ret := EAGAIN;
        }
        return;
      }
      ret := 0;
      done := HandleMsg(i, msg.value, patience);
    }

    // ----- publishing -----

    /** pub_sub_publish_to_broker: the caller gives up its reference. */
    method PublishToBroker(m: Msg)
      requires Valid() && m in s.user && m !in s.sent
      modifies this
      ensures Valid() && publishFifo == old(publishFifo) + [m] && s == Apply(old(s), Publish(m))
    {
      publishFifo := publishFifo + [m];
      TakeStep(Publish(m));
    }

    lemma UserReads(m: Msg)
      requires Reached() && m in s.user
      ensures HdrOf(s, m).id == m.id && Owners(s, m) > 0
    {
      ReachedInv();
      IdInMemory(s, m);
    }

    /** pub_sub_publish_to_subscriber for a callback subscriber: the handler is called at once, and
        then the message is released. */
    method PublishToCallback(i: nat, m: Msg)
      requires Valid() && i < |subs| && subs[i].rxType.Callback?
      requires m in s.user && m !in s.sent && HdrOf(s, m).id > subs[i].maxPub
      modifies this
      ensures Valid() && m in calls[i]
      ensures old(HdrOf(s, m).refCnt) == 1 ==> m !in s.live && m.block in free
    {
      hide Apply, Enabled, Touched, Delta, Init, Exec, IsRun, FitsCount;
      DirectToCallback(s, i, m);
      calls := calls[i := calls[i] + [m]];
      ReleaseMsg(m, PublishDirect(i, m), AppThread);
      assert m in s.handled[i] by { ReachedInv(); DirectIsHandled(s, i, m); }
    }

    /** pub_sub_publish_to_subscriber for a queueing subscriber: the private message goes to the end of
        its queue; until there is room the caller keeps its reference. */
    method PublishToQueue(i: nat, m: Msg, patience: nat) returns (ok: bool)
      requires Valid() && i < |subs| && !subs[i].rxType.Callback?
      requires m in s.user && m !in s.sent && HdrOf(s, m).id > subs[i].maxPub
      modifies this
      ensures Valid()
      ensures if ok then s.direct[i] != [] && m == s.direct[i][|s.direct[i]| - 1] && m in queue[i]
              else m in s.user && m !in s.sent && OthersCanMove(s, AppThread)
    {
      hide Apply, Enabled, Touched, Delta, Init, Exec, IsRun, FitsCount;
      UserReads(m);
      ok := AwaitRoom(AppThread, Some(m), i, patience);
      if ok {
        UserReads(m);
        DirectToQueue(s, i, m);
        queue := queue[i := queue[i] + [m]];
        TakeStep(PublishDirect(i, m));
      }
    }

    /** pub_sub_publish_to_subscriber: a private message goes to that subscriber only. */
    method PublishToSubscriber(i: nat, m: Msg, patience: nat) returns (done: bool)
      requires Valid() && i < |subs| && m in s.user && m !in s.sent && HdrOf(s, m).id > subs[i].maxPub
      modifies this
      ensures Valid()
      ensures done ==> m in if subs[i].rxType.Callback? then calls[i] else queue[i]
      ensures !done ==> m in s.user && m !in s.sent && OthersCanMove(s, AppThread)
    {
      done := true;
      if subs[i].rxType.Callback? {
        PublishToCallback(i, m);
      } else {
        done := PublishToQueue(i, m, patience);
      }
    }
  }
}
