/** The reference count invariant: kept by every step of every thread, whatever the interleaving and
    however subscriptions change on the way. */
module RefSafety {
  import opened Types
  import opened Protocol
  import opened RefCount
  import opened Frames

  /** The broker's part of PcInv. */
  ghost predicate BrokerPcInv(s: State)
    requires Shaped(s)
  {
    && ((s.broker.Visiting? || s.broker.Putting?) <==> s.mutex == ByBroker)
    && (s.broker.Visiting? ==> s.broker.pos <= |s.subs|)
    && (s.broker.Putting? ==> s.broker.pos < |s.subs| && s.subs[s.broker.pos].rxType != Callback)
  }

  /** The list mutex is held exactly by the thread that is between its lock and unlock. */
  ghost predicate PcInv(s: State)
    requires Shaped(s)
  {
    && ValidSubs(s.subs) && BrokerPcInv(s)
    && (s.mutex.ByPoller? ==> s.mutex.i < |s.subs|)
    && (forall i :: 0 <= i < |s.subs| ==> PollInv(s, i))
  }

  ghost predicate PollInv(s: State, i: nat)
    requires Shaped(s) && i < |s.subs|
  {
    && (s.poll[i].Relaying? <==> s.mutex == ByPoller(i))
    && (s.poll[i].Relaying? ==>
          i < s.poll[i].next < |s.subs| && s.subs[s.poll[i].next].rxType == Fifo)
    && (s.poll[i].Got? || s.poll[i].Relaying? ==> s.subs[i].rxType == Fifo)
    && (s.subs[i].rxType == Callback ==> s.q[i] == [] && s.poll[i].Ready?)
  }

  ghost function Blocks(ms: set<Msg>): set<Block> {
    set m | m in ms :: m.block
  }

  /** The count in memory is the number of owners, and the block of a live allocation still carries
      that allocation's id. */
  ghost predicate MsgInv(s: State, m: Msg)
    requires Shaped(s)
  {
    && (Owners(s, m) > 0 ==> m in s.live && m !in s.dying)
    && (m in s.dying ==> m in s.live)
    && (m in s.live ==>
          && m.serial < s.next && m.id <= MAX_MSG_ID && m.block !in s.free
          && HdrOf(s, m) == Header(m.id, Owners(s, m))
          && (Owners(s, m) > 0 || m in s.dying))
  }

  /** Live allocations occupy distinct blocks. */
  ghost predicate Separate(s: State) {
    forall m, k :: m in s.live && k in s.live && m.block == k.block ==> m == k
  }

  ghost predicate RefInv(s: State)
    requires Shaped(s)
  {
    && (forall m :: MsgInv(s, m))
    && Separate(s)
    && s.pool == s.free + Blocks(s.live)
  }

  ghost predicate Inv(s: State) {
    Shaped(s) && PcInv(s) && RefInv(s)
  }

  lemma HolderRelays(s: State)
    requires Shaped(s) && PcInv(s) && s.mutex.ByPoller?
    ensures s.mutex.i < |s.subs| && s.poll[s.mutex.i].Relaying?
  {
    assert PollInv(s, s.mutex.i);
  }

  lemma InitInv(subs: seq<Sub>, pool: set<Block>)
    requires ValidSubs(subs)
    ensures Inv(Init(subs, pool))
  {
    var s := Init(subs, pool);
    forall m ensures Owners(s, m) == 0 {
      SumZero(Shares(s, m));
    }
  }

  // ----- RefInv is kept by each kind of change -----

  /** `s'` differs from `s` in the store only by what happened to the header and dying flag of `t`. */
  ghost predicate OnlyTouches(s: State, s': State, t: Msg) {
    && s'.free == s.free && s'.pool == s.pool && s'.live == s.live && s'.next == s.next
    && (forall m: Msg :: m.block != t.block ==> HdrOf(s', m) == HdrOf(s, m))
    && (forall m: Msg :: m != t ==> (m in s'.dying <==> m in s.dying))
  }

  /** The count of `t` moves by d, and reaching zero is what makes `t` dying. */
  ghost predicate CountMoves(s: State, s': State, t: Msg, d: int) {
    && d in {-1, 1}
    && HdrOf(s', t) == HdrOf(s, t).(refCnt := HdrOf(s, t).refCnt + d)
    && (t in s'.dying <==> t in s.dying || (d == -1 && HdrOf(s', t).refCnt == 0))
  }

  lemma KeptByChange(s: State, s': State, t: Msg, d: int)
    requires Shaped(s) && Shaped(s') && RefInv(s) && OnlyTouches(s, s', t)
    requires Owners(s, t) > 0
    requires forall m :: Owners(s', m) == Owners(s, m) + if m == t then d else 0
    requires CountMoves(s, s', t, d)
    ensures RefInv(s')
  {
    assert MsgInv(s, t);
    forall m ensures MsgInv(s', m) {
      assert MsgInv(s, m);
      if m != t && m in s.live { assert m.block != t.block; }
    }
  }

  lemma KeptByMove(s: State, s': State)
    requires Shaped(s) && Shaped(s') && RefInv(s)
    requires SameStore(s, s')
    requires forall m :: Owners(s', m) == Owners(s, m)
    ensures RefInv(s')
  {
    forall m ensures MsgInv(s', m) {
      assert MsgInv(s, m);
    }
  }

  /** The message whose count a step changes. */
  ghost function Touched(s: State, step: Step): Option<Msg>
    requires Shaped(s) && Enabled(s, step)
  {
    match step
    case Acquire(m, _) => Some(m)
    case Release(m) => Some(m)
    case PublishDirect(i, m) => if s.subs[i].rxType == Callback then Some(m) else None
    case Visit => if ApplyVisit(s).broker.Putting? then Some(s.broker.m) else None
    case Finish => Some(s.broker.m)
    case RelayLock(i) => if ApplyRelayLock(s, i).poll[i].Relaying? then Some(s.poll[i].m) else None
    case Return(i) => Some(s.poll[i].m)
    case _ => None
  }

  lemma ShareOwned(s: State, i: nat, m: Msg)
    requires Shaped(s) && i < |s.subs| && (Count(s.q[i], m) > 0 || PollRefs(s.poll[i], m) > 0)
    ensures Owners(s, m) > 0
  {
    SumAtLeast(Shares(s, m), i);
  }

  /** A count is only changed by somebody who owns a reference, or is lent one for a handler call. */
  lemma TouchedIsOwned(s: State, step: Step)
    requires Shaped(s) && Enabled(s, step) && Touched(s, step).Some?
    ensures Owners(s, Touched(s, step).value) > 0
  {
    match step
    case Acquire(m, holder) => if holder.InHandler? { ShareOwned(s, holder.i, m); }
    case RelayLock(i) => ShareOwned(s, i, s.poll[i].m);
    case Return(i) => ShareOwned(s, i, s.poll[i].m);
    case _ =>
  }

  lemma IncEffect(s: State, s': State, t: Msg)
    requires s'.hdr == IncRef(s, t).hdr
    requires s'.free == s.free && s'.pool == s.pool && s'.live == s.live && s'.next == s.next
    requires s'.dying == s.dying
    ensures OnlyTouches(s, s', t) && CountMoves(s, s', t, 1)
  {
  }

  lemma DecEffect(s: State, s': State, t: Msg)
    requires s'.hdr == DecRef(s, t).hdr
    requires s'.free == s.free && s'.pool == s.pool && s'.live == s.live && s'.next == s.next
    requires s'.dying == DecRef(s, t).dying
    ensures OnlyTouches(s, s', t) && CountMoves(s, s', t, -1)
  {
  }

  /** The count of t moves by d and nothing else happens to the store. */
  ghost predicate Touches(s: State, s': State, t: Msg, d: int) {
    OnlyTouches(s, s', t) && CountMoves(s, s', t, d)
  }

  lemma AcquireTouches(s: State, m: Msg, holder: Holder)
    requires Shaped(s) && Enabled(s, Acquire(m, holder))
    ensures Touches(s, Apply(s, Acquire(m, holder)), m, 1)
  {
    IncEffect(s, Apply(s, Acquire(m, holder)), m);
    hide OnlyTouches, CountMoves;
  }

  lemma VisitTouches(s: State)
    requires Shaped(s) && Enabled(s, Visit) && ApplyVisit(s).broker.Putting?
    ensures Touches(s, Apply(s, Visit), s.broker.m, 1)
  {
    VisitFrame(s);
    IncEffect(s, Apply(s, Visit), s.broker.m);
    hide OnlyTouches, CountMoves;
  }

  lemma RelayLockTouches(s: State, i: nat)
    requires Shaped(s) && Enabled(s, RelayLock(i)) && ApplyRelayLock(s, i).poll[i].Relaying?
    ensures Touches(s, Apply(s, RelayLock(i)), s.poll[i].m, 1)
  {
    RelayLockFrame(s, i);
    IncEffect(s, Apply(s, RelayLock(i)), s.poll[i].m);
    hide OnlyTouches, CountMoves;
  }

  lemma ReleaseTouches(s: State, m: Msg)
    requires Shaped(s) && Enabled(s, Release(m))
    ensures Touches(s, Apply(s, Release(m)), m, -1)
  {
    DecEffect(s, Apply(s, Release(m)), m);
    hide OnlyTouches, CountMoves;
  }

  lemma CallbackTouches(s: State, i: nat, m: Msg)
    requires Shaped(s) && Enabled(s, PublishDirect(i, m)) && s.subs[i].rxType == Callback
    ensures Touches(s, Apply(s, PublishDirect(i, m)), m, -1)
  {
    DecEffect(s, Apply(s, PublishDirect(i, m)), m);
    hide OnlyTouches, CountMoves;
  }

  lemma FinishTouches(s: State)
    requires Shaped(s) && Enabled(s, Finish)
    ensures Touches(s, Apply(s, Finish), s.broker.m, -1)
  {
    DecEffect(s, Apply(s, Finish), s.broker.m);
    hide OnlyTouches, CountMoves;
  }

  lemma ReturnTouches(s: State, i: nat)
    requires Shaped(s) && Enabled(s, Return(i))
    ensures Touches(s, Apply(s, Return(i)), s.poll[i].m, -1)
  {
    DecEffect(s, Apply(s, Return(i)), s.poll[i].m);
    hide OnlyTouches, CountMoves;
  }

  lemma TouchEffect(s: State, step: Step)
    requires Shaped(s) && Enabled(s, step) && Touched(s, step).Some?
    ensures var t := Touched(s, step).value; Touches(s, Apply(s, step), t, Delta(s, step, t))
  {
    hide Apply, Touches, ApplyVisit, ApplyRelayLock;
    match step
    case Acquire(m, holder) => AcquireTouches(s, m, holder);
    case Release(m) => ReleaseTouches(s, m);
    case PublishDirect(i, m) => CallbackTouches(s, i, m);
    case Visit => VisitTouches(s);
    case Finish => FinishTouches(s);
    case RelayLock(i) => RelayLockTouches(s, i);
    case Return(i) => ReturnTouches(s, i);
    case _ =>
  }

  lemma OnlyTouchedMoves(s: State, step: Step, m: Msg)
    requires Shaped(s) && Enabled(s, step) && Touched(s, step).Some? && m != Touched(s, step).value
    ensures Delta(s, step, m) == 0
  {
  }

  lemma TouchKeepsRefInv(s: State, step: Step)
    requires Shaped(s) && RefInv(s) && Enabled(s, step) && Touched(s, step).Some?
    ensures RefInv(Apply(s, step))
  {
    var s', t := Apply(s, step), Touched(s, step).value;
    var d := Delta(s, step, t);
    TouchedIsOwned(s, step);
    TouchEffect(s, step);
    forall m ensures Owners(s', m) == Owners(s, m) + if m == t then d else 0 {
      OwnersOfStep(s, step, m);
      if m != t { OnlyTouchedMoves(s, step, m); }
    }
    KeptByChange(s, s', t, d);
    hide Apply, Enabled, RefInv;
  }

  ghost predicate SameStore(s: State, s': State) {
    && s'.free == s.free && s'.pool == s.pool && s'.live == s.live && s'.next == s.next
    && s'.hdr == s.hdr && s'.dying == s.dying
  }

  lemma MoveEffect(s: State, step: Step)
    requires Shaped(s) && Enabled(s, step) && Touched(s, step).None?
    requires !step.New? && !step.Free?
    ensures SameStore(s, Apply(s, step))
  {
    if BrokerStep(step) {
      BrokerFrame(s, step);
    } else if PollerStep(step) {
      PollerFrame(s, step);
    } else {
      AppFrame(s, step);
    }
    MoveKeepsHeaders(s, step);
    hide Apply, Enabled, Touched;
  }

  lemma MoveKeepsHeaders(s: State, step: Step)
    requires Shaped(s) && Enabled(s, step) && Touched(s, step).None?
    requires !step.New? && !step.Free?
    ensures HeadersKept(s, Apply(s, step))
  {
    hide ApplyBroker, ApplyPoller, ApplyApp, HeadersKept, BrokerKeeps, PollerKeeps, AppKeeps, OwnOnly;
    match step
    case Visit => VisitApplied(s); VisitHeaders(s);
    case PollGet(i) => PollGetFrame(s, i);
    case RelayLock(i) => RelayLockFrame(s, i); RelayLockApplied(s, i);
    case RelayPut(i) => RelayPutFrame(s, i);
    case PublishDirect(i, m) => PublishDirectFrame(s, i, m);
    case Put => PutFrame(s);
    case Take => TakeFrame(s);
    case Lock => LockFrame(s);
    case Publish(m) => PublishFrame(s, m);
    case Subscribe(i, id) => SubscribeFrame(s, i, id);
    case Unsubscribe(i, id) => UnsubscribeFrame(s, i, id);
    case _ =>
  }

  lemma VisitApplied(s: State)
    requires Shaped(s) && Enabled(s, Visit)
    ensures Apply(s, Visit) == ApplyVisit(s)
  {
    hide ApplyVisit;
  }

  lemma RelayLockApplied(s: State, i: nat)
    requires Shaped(s) && Enabled(s, RelayLock(i))
    ensures Apply(s, RelayLock(i)) == ApplyRelayLock(s, i)
  {
    hide ApplyRelayLock;
  }

  lemma UntouchedKeepsOwners(s: State, step: Step, m: Msg)
    requires Shaped(s) && Enabled(s, step) && Touched(s, step).None?
    requires !step.New? && !step.Free?
    ensures Delta(s, step, m) == 0
  {
  }

  lemma MoveKeepsRefInv(s: State, step: Step)
    requires Shaped(s) && RefInv(s) && Enabled(s, step) && Touched(s, step).None?
    requires !step.New? && !step.Free?
    ensures RefInv(Apply(s, step))
  {
    MoveEffect(s, step);
    forall m ensures Owners(Apply(s, step), m) == Owners(s, m) {
      OwnersOfStep(s, step, m);
      UntouchedKeepsOwners(s, step, m);
    }
    KeptByMove(s, Apply(s, step));
    hide Apply, Enabled, RefInv;
  }

  lemma NewKeepsMsgInv(s: State, id: nat, block: Block, m: Msg)
    requires Shaped(s) && RefInv(s) && Enabled(s, New(id, block))
    ensures MsgInv(Apply(s, New(id, block)), m)
  {
    OwnersOfStep(s, New(id, block), m);
    assert MsgInv(s, m) && MsgInv(s, Msg(s.next, id, block));
    hide Owners;
  }

  lemma NewTakesBlock(s: State, id: nat, block: Block)
    requires Shaped(s) && Enabled(s, New(id, block))
    ensures var s', t := Apply(s, New(id, block)), Msg(s.next, id, block);
            s'.live == s.live + {t} && s'.free == s.free - {block} && s'.pool == s.pool
  {
  }

  lemma NewKeepsRefInv(s: State, id: nat, block: Block)
    requires Shaped(s) && RefInv(s) && Enabled(s, New(id, block))
    ensures RefInv(Apply(s, New(id, block)))
  {
    hide Apply;
    var s' := Apply(s, New(id, block));
    forall m ensures MsgInv(s', m) { NewKeepsMsgInv(s, id, block, m); }
    NewTakesBlock(s, id, block);
    forall m | m in s.live ensures m.block != block { assert MsgInv(s, m); }
    hide MsgInv;
    assert block in s.pool && Blocks(s'.live) == Blocks(s.live) + {block};
  }

  lemma FreeKeepsMsgInv(s: State, t: Msg, m: Msg)
    requires Shaped(s) && RefInv(s) && Enabled(s, Free(t))
    ensures MsgInv(Apply(s, Free(t)), m)
  {
    OwnersOfStep(s, Free(t), m);
    assert MsgInv(s, m) && MsgInv(s, t);
    hide Owners;
  }

  lemma FreeKeepsRefInv(s: State, t: Msg)
    requires Shaped(s) && RefInv(s) && Enabled(s, Free(t))
    ensures RefInv(Apply(s, Free(t)))
  {
    var s' := Apply(s, Free(t));
    forall m ensures MsgInv(s', m) { FreeKeepsMsgInv(s, t, m); }
    assert MsgInv(s, t);
    hide MsgInv;
    assert Blocks(s.live) == Blocks(s'.live) + {t.block};
  }

  lemma StepKeepsRefInv(s: State, step: Step)
    requires Shaped(s) && RefInv(s) && Enabled(s, step)
    ensures RefInv(Apply(s, step))
  {
    hide Apply, RefInv;
    match step
    case New(id, block) => NewKeepsRefInv(s, id, block);
    case Free(m) => FreeKeepsRefInv(s, m);
    case _ =>
      if Touched(s, step).Some? { TouchKeepsRefInv(s, step); } else { MoveKeepsRefInv(s, step); }
  }

  // ----- PcInv -----

  /** In a list in type order only fifo subscribers follow a fifo subscriber. */
  lemma AfterFifo(subs: seq<Sub>, i: nat, j: nat)
    requires ValidSubs(subs) && i <= j < |subs| && subs[i].rxType == Fifo
    ensures subs[j].rxType == Fifo
  {
    var types := TypesOf(subs);
    assert i < j ==> Rank(types[i]) <= Rank(types[j]);
  }

  lemma RelayLockKeepsPcInv(s: State, i: nat)
    requires Shaped(s) && PcInv(s) && Enabled(s, RelayLock(i))
    ensures PcInv(Apply(s, RelayLock(i)))
  {
    var s' := Apply(s, RelayLock(i));
    assert s.mutex.Unowned? && PollInv(s, i);
    RelayLockFrame(s, i);
    RelayLockPc(s, i);
    hide Apply, Enabled, NextWanting;
    if s'.poll[i].Relaying? { AfterFifo(s.subs, i, s'.poll[i].next); }
    hide ValidSubs;
    forall k | 0 <= k < |s.subs| ensures PollInv(s', k) { assert PollInv(s, k); }
  }

  lemma RelayPutKeepsPcInv(s: State, i: nat)
    requires Shaped(s) && PcInv(s) && Enabled(s, RelayPut(i))
    ensures PcInv(Apply(s, RelayPut(i)))
  {
    assert s.poll[i].Relaying? && PollInv(s, i);
    RelayPutFrame(s, i);
    RelayPutQueue(s, i);
    RelayPutPc(s, i);
    hide Apply, Enabled;
    forall k | 0 <= k < |s.subs| ensures PollInv(Apply(s, RelayPut(i)), k) { assert PollInv(s, k); }
  }

  lemma PollGetKeepsPcInv(s: State, i: nat)
    requires Shaped(s) && PcInv(s) && Enabled(s, PollGet(i))
    ensures PcInv(Apply(s, PollGet(i)))
  {
    assert s.poll[i].Ready? && s.subs[i].rxType != Callback && PollInv(s, i);
    PollGetFrame(s, i);
    PollGetQueue(s, i);
    PollGetPc(s, i);
    hide Apply, Enabled;
    forall k | 0 <= k < |s.subs| ensures PollInv(Apply(s, PollGet(i)), k) { assert PollInv(s, k); }
  }

  lemma ReturnKeepsPcInv(s: State, i: nat)
    requires Shaped(s) && PcInv(s) && Enabled(s, Return(i))
    ensures PcInv(Apply(s, Return(i)))
  {
    assert s.poll[i].Handling? && PollInv(s, i);
    ReturnFrame(s, i);
    ReturnPc(s, i);
    hide Apply, Enabled;
    forall k | 0 <= k < |s.subs| ensures PollInv(Apply(s, Return(i)), k) { assert PollInv(s, k); }
  }

  lemma BrokerPcStep(s: State, step: Step)
    requires Shaped(s) && BrokerPcInv(s) && Enabled(s, step) && BrokerStep(step)
    ensures var s' := Apply(s, step);
            && s'.subs == s.subs && BrokerPcInv(s')
            && (s'.mutex.ByPoller? || s.mutex.ByPoller? ==> s'.mutex == s.mutex)
  {
    hide Apply;
    BrokerFrame(s, step);
    match step
    case Take => TakePc(s);
    case Lock => LockPc(s);
    case Visit => VisitPc(s);
    case Put => PutPc(s);
    case Finish => FinishPc(s);
  }

  lemma BrokerStepQueues(s: State, step: Step, k: nat)
    requires Shaped(s) && BrokerPcInv(s) && Enabled(s, step) && BrokerStep(step) && k < |s.subs|
    ensures s.subs[k].rxType == Callback ==> Apply(s, step).q[k] == s.q[k]
  {
    hide Apply;
    match step
    case Take => TakeFrame(s);
    case Lock => LockFrame(s);
    case Visit => VisitFrame(s);
    case Put => PutQueue(s);
    case Finish => FinishFrame(s);
  }

  lemma BrokerStepKeepsPcInv(s: State, step: Step)
    requires Shaped(s) && PcInv(s) && Enabled(s, step) && BrokerStep(step)
    ensures PcInv(Apply(s, step))
  {
    hide Apply, Enabled;
    BrokerFrame(s, step);
    BrokerPcStep(s, step);
    forall i | 0 <= i < |s.subs| ensures PollInv(Apply(s, step), i) {
      assert PollInv(s, i);
      BrokerStepQueues(s, step, i);
    }
  }

  lemma AppStepQueues(s: State, step: Step, k: nat)
    requires Shaped(s) && Enabled(s, step) && !PollerStep(step) && !BrokerStep(step) && k < |s.subs|
    ensures s.subs[k].rxType == Callback ==> Apply(s, step).q[k] == s.q[k]
  {
    hide Apply, Enabled;
    AppFrame(s, step);
    if step.Publish? {
      PublishFrame(s, step.m);
    } else if step.PublishDirect? {
      PublishDirectQueue(s, step.i, step.m);
    }
  }

  lemma SubsKeptValid(s: State, s': State)
    requires SubsKept(s, s') && ValidSubs(s.subs)
    ensures ValidSubs(s'.subs)
  {
    assert TypesOf(s'.subs) == TypesOf(s.subs);
  }

  lemma AppStepKeepsPcInv(s: State, step: Step)
    requires Shaped(s) && PcInv(s) && Enabled(s, step) && !PollerStep(step) && !BrokerStep(step)
    ensures PcInv(Apply(s, step))
  {
    hide Apply, Enabled;
    AppFrame(s, step);
    SubsKeptValid(s, Apply(s, step));
    forall i | 0 <= i < |s.subs| ensures PollInv(Apply(s, step), i) {
      assert PollInv(s, i);
      AppStepQueues(s, step, i);
    }
  }

  lemma StepKeepsPcInv(s: State, step: Step)
    requires Shaped(s) && PcInv(s) && Enabled(s, step)
    ensures PcInv(Apply(s, step))
  {
    hide Apply, PcInv;
    if BrokerStep(step) {
      BrokerStepKeepsPcInv(s, step);
    } else if PollerStep(step) {
      match step
      case PollGet(i) => PollGetKeepsPcInv(s, i);
      case RelayLock(i) => RelayLockKeepsPcInv(s, i);
      case RelayPut(i) => RelayPutKeepsPcInv(s, i);
      case Return(i) => ReturnKeepsPcInv(s, i);
    } else {
      AppStepKeepsPcInv(s, step);
    }
  }

  // ----- whole runs -----

  lemma StepKeepsInv(s: State, step: Step)
    requires Inv(s) && Enabled(s, step)
    ensures Inv(Apply(s, step))
  {
    StepKeepsPcInv(s, step);
    StepKeepsRefInv(s, step);
  }

  /** The invariant holds after every run, whatever the interleaving. */
  lemma {:induction false} RunKeepsInv(s: State, steps: seq<Step>)
    requires Inv(s) && IsRun(s, steps)
    ensures Inv(Exec(s, steps))
    decreases |steps|
  {
    if steps != [] {
      StepKeepsInv(s, steps[0]);
      RunKeepsInv(Apply(s, steps[0]), steps[1..]);
    }
  }

  // ----- the length of message queues -----

  /** No message queue holds more than it has room for. */
  ghost predicate QueuesFit(s: State)
    requires Shaped(s)
  {
    forall i {:trigger s.q[i]} :: 0 <= i < |s.subs| && s.subs[i].rxType.Msgq? ==> |s.q[i]| <= s.subs[i].capacity
  }

  /** It stays as it is, gets shorter, or grows by one when there is room. */
  ghost predicate LengthFits(s: State, s': State, i: nat)
    requires Shaped(s) && Shaped(s') && |s'.subs| == |s.subs| && i < |s.subs|
  {
    |s'.q[i]| <= |s.q[i]| || (HasRoom(s, i) && |s'.q[i]| == |s.q[i]| + 1)
  }

  lemma BrokerQueueLength(s: State, step: Step, i: nat)
    requires Shaped(s) && Enabled(s, step) && i < |s.subs| && BrokerStep(step)
    ensures LengthFits(s, Apply(s, step), i)
  {
    hide Apply;
    match step
    case Take => TakeFrame(s);
    case Lock => LockFrame(s);
    case Visit => VisitFrame(s);
    case Put => PutQueue(s);
    case Finish => FinishFrame(s);
  }

  lemma PollerQueueLength(s: State, step: Step, i: nat)
    requires Shaped(s) && PcInv(s) && Enabled(s, step) && i < |s.subs| && s.subs[i].rxType.Msgq? && PollerStep(step)
    ensures LengthFits(s, Apply(s, step), i)
  {
    assert PollInv(s, step.i);
    hide Apply, PcInv;
    match step
    case PollGet(j) => PollGetQueue(s, j);
    case RelayLock(j) => RelayLockFrame(s, j);
    case RelayPut(j) => RelayPutQueue(s, j);
    case Return(j) => ReturnFrame(s, j);
  }

  lemma StepQueueLength(s: State, step: Step, i: nat)
    requires Shaped(s) && PcInv(s) && Enabled(s, step) && i < |s.subs| && s.subs[i].rxType.Msgq?
    ensures LengthFits(s, Apply(s, step), i)
  {
    hide Apply, PcInv;
    if BrokerStep(step) {
      BrokerQueueLength(s, step, i);
    } else if PollerStep(step) {
      PollerQueueLength(s, step, i);
    } else if step.PublishDirect? {
      PublishDirectQueue(s, step.i, step.m);
    } else if step.Publish? {
      PublishFrame(s, step.m);
    } else {
      AppFrame(s, step);
    }
  }

  lemma {:induction false} RunKeepsQueuesFit(s: State, steps: seq<Step>)
    requires Inv(s) && QueuesFit(s) && IsRun(s, steps)
    ensures QueuesFit(Exec(s, steps))
    decreases |steps|
  {
    hide Apply, Enabled, PcInv, RefInv;
    if steps != [] {
      var s' := Apply(s, steps[0]);
      StepKeepsInv(s, steps[0]);
      SubsFrame(s, steps[0]);
      forall i | 0 <= i < |s'.subs| && s'.subs[i].rxType.Msgq? ensures |s'.q[i]| <= s'.subs[i].capacity {
        StepQueueLength(s, steps[0], i);
      }
      RunKeepsQueuesFit(s', steps[1..]);
    }
  }
}
