/** The life of an allocation, over every interleaving and however subscriptions change: its block is
    off the free list while anybody owns it, goes back once, and is not touched after that. */
module Lifetime {
  import opened Types
  import opened Protocol
  import opened Frames
  import opened RefCount
  import opened RefSafety
  import opened Logs

  /** A block is on the free list exactly when nobody owns, or is about to free, what is in it. */
  lemma FreeIffUnowned(s: State, b: Block)
    requires Inv(s) && b in s.pool
    ensures b in s.free <==> forall m: Msg :: m.block == b ==> Owners(s, m) == 0 && m !in s.dying
  {
    if b in s.free {
      forall m: Msg | m.block == b ensures Owners(s, m) == 0 && m !in s.dying {
        assert MsgInv(s, m);
      }
    } else {
      var m :| m in s.live && m.block == b;
      assert MsgInv(s, m);
    }
  }

  /** Somebody is using m: its handler runs, or it is on its way to one. */
  ghost predicate InUse(s: State, m: Msg)
    requires Shaped(s)
  {
    || (!s.broker.Idle? && s.broker.m == m)
    || m in s.pub
    || (exists i :: 0 <= i < |s.subs| && (m in s.q[i] || (!s.poll[i].Ready? && s.poll[i].m == m)))
  }

  lemma {:induction false} InCounts(log: seq<Msg>, m: Msg)
    requires m in log
    ensures Count(log, m) > 0
  {
    var last := |log| - 1;
    if log[last] != m { InCounts(log[..last], m); }
  }

  /** Whoever uses a message finds it allocated, with the id it was given, and counted. */
  lemma NoUseAfterFree(s: State, m: Msg)
    requires Inv(s) && (InUse(s, m) || m in s.user)
    ensures m in s.live && m !in s.dying && m.block !in s.free
    ensures HdrOf(s, m).id == m.id && HdrOf(s, m).refCnt == Owners(s, m) > 0
  {
    if m in s.pub { InCounts(s.pub, m); }
    if i :| 0 <= i < |s.subs| && (m in s.q[i] || (!s.poll[i].Ready? && s.poll[i].m == m)) {
      if m in s.q[i] { InCounts(s.q[i], m); }
      ShareOwned(s, i, m);
    }
    assert MsgInv(s, m);
  }

  /** m was allocated, and has been freed. */
  ghost predicate Gone(s: State, m: Msg) {
    m !in s.live && m.serial < s.next
  }

  lemma GoneIsUnowned(s: State, m: Msg)
    requires Inv(s) && Gone(s, m)
    ensures Owners(s, m) == 0 && m !in s.dying && m !in s.user && !InUse(s, m)
  {
    assert MsgInv(s, m);
    if InUse(s, m) { NoUseAfterFree(s, m); }
  }

  lemma StepKeepsGone(s: State, step: Step, m: Msg)
    requires Shaped(s) && Gone(s, m) && Enabled(s, step)
    ensures Gone(Apply(s, step), m)
  {
    if BrokerStep(step) {
      BrokerFrame(s, step);
    } else if PollerStep(step) {
      PollerFrame(s, step);
    } else {
      AppFrame(s, step);
      if step.New? { NewIsLater(s, step.id, step.block, m); }
      if step.Free? { FreeForgets(s, step.m); }
    }
    hide Apply, Enabled;
  }

  lemma NewIsLater(s: State, id: nat, block: Block, m: Msg)
    requires Shaped(s) && Enabled(s, New(id, block)) && Gone(s, m)
    ensures Gone(Apply(s, New(id, block)), m)
  {
  }

  lemma FreeForgets(s: State, m: Msg)
    requires Shaped(s) && Enabled(s, Free(m))
    ensures Apply(s, Free(m)).live == s.live - {m} && Apply(s, Free(m)).next == s.next
  {
  }

  /** Handlers are called with messages that are in use, or that the caller of a direct publish owns. */
  lemma HandlerCallInUse(s: State, step: Step)
    requires Shaped(s) && Enabled(s, step) && HandlerCall(s, step).Some?
    ensures var m := HandlerCall(s, step).value.m; InUse(s, m) || m in s.user
  {
  }

  lemma GoneIsUntouched(s: State, step: Step, m: Msg)
    requires Inv(s) && Gone(s, m) && Enabled(s, step)
    ensures step != Free(m) && Touched(s, step) != Some(m)
    ensures HandlerCall(s, step).Some? ==> HandlerCall(s, step).value.m != m
  {
    GoneIsUnowned(s, m);
    if Touched(s, step) == Some(m) { TouchedIsOwned(s, step); }
    if HandlerCall(s, step).Some? { HandlerCallInUse(s, step); }
  }

  /** The state before step k of a run. */
  ghost function StateBefore(s: State, steps: seq<Step>, k: nat): (r: State)
    requires Shaped(s) && IsRun(s, steps) && k <= |steps|
    ensures Shaped(r)
    decreases k
  {
    if k == 0 then s else StateBefore(Apply(s, steps[0]), steps[1..], k - 1)
  }

  lemma {:induction false} BeforeEnabled(s: State, steps: seq<Step>, k: nat)
    requires Inv(s) && IsRun(s, steps) && k < |steps|
    ensures Inv(StateBefore(s, steps, k)) && Enabled(StateBefore(s, steps, k), steps[k])
    decreases k
  {
    if k > 0 {
      StepKeepsInv(s, steps[0]);
      BeforeEnabled(Apply(s, steps[0]), steps[1..], k - 1);
    }
  }

  lemma {:induction false} GoneStays(s: State, steps: seq<Step>, k: nat, m: Msg)
    requires Shaped(s) && IsRun(s, steps) && k <= |steps| && Gone(s, m)
    ensures Gone(StateBefore(s, steps, k), m)
    decreases k
  {
    if k > 0 {
      StepKeepsGone(s, steps[0], m);
      GoneStays(Apply(s, steps[0]), steps[1..], k - 1, m);
    }
  }

  lemma FreeMakesGone(s: State, m: Msg)
    requires Inv(s) && Enabled(s, Free(m))
    ensures Owners(s, m) == 0 && Gone(Apply(s, Free(m)), m)
  {
    assert MsgInv(s, m);
  }

  lemma {:induction false} GoneAfterFree(s: State, steps: seq<Step>, j: nat, k: nat, m: Msg)
    requires Inv(s) && IsRun(s, steps) && j < k <= |steps| && steps[j] == Free(m)
    ensures Gone(StateBefore(s, steps, k), m)
    decreases j
  {
    hide Apply, Enabled;
    var s' := Apply(s, steps[0]);
    if j == 0 {
      FreeMakesGone(s, m);
      GoneStays(s', steps[1..], k - 1, m);
    } else {
      StepKeepsInv(s, steps[0]);
      GoneAfterFree(s', steps[1..], j - 1, k - 1, m);
    }
  }

  /** An allocation is freed at most once in a run, when nobody owns it any more; no handler is called
      with it, nobody acquires or holds it, and its count is not changed, from then on. */
  lemma FreedOnce(s: State, steps: seq<Step>, j: nat, k: nat, m: Msg)
    requires Inv(s) && IsRun(s, steps) && j < k < |steps| && steps[j] == Free(m)
    ensures Owners(StateBefore(s, steps, j), m) == 0
    ensures var s', step := StateBefore(s, steps, k), steps[k];
            && Enabled(s', step)
            && step != Free(m) && Touched(s', step) != Some(m)
            && (HandlerCall(s', step).Some? ==> HandlerCall(s', step).value.m != m)
            && !InUse(s', m) && m !in s'.user
  {
    BeforeEnabled(s, steps, j);
    FreeMakesGone(StateBefore(s, steps, j), m);
    BeforeEnabled(s, steps, k);
    GoneAfterFree(s, steps, j, k, m);
    GoneIsUnowned(StateBefore(s, steps, k), m);
    GoneIsUntouched(StateBefore(s, steps, k), steps[k], m);
  }

  // ----- what a handler retains -----

  /** A step by which the application gives up a reference to m. */
  predicate GivesUp(step: Step, m: Msg) {
    match step
    case Release(k) => k == m
    case Publish(k) => k == m
    case PublishDirect(_, k) => k == m
    case _ => false
  }

  lemma StepKeepsUserRef(s: State, step: Step, m: Msg)
    requires Shaped(s) && Enabled(s, step) && !GivesUp(step, m)
    ensures m in s.user ==> m in Apply(s, step).user
  {
    if BrokerStep(step) {
      BrokerFrame(s, step);
    } else if PollerStep(step) {
      PollerFrame(s, step);
    } else {
      AppKeepsUserRef(s, step, m);
    }
    hide Apply, Enabled;
  }

  lemma AppKeepsUserRef(s: State, step: Step, m: Msg)
    requires Shaped(s) && Enabled(s, step) && !BrokerStep(step) && !PollerStep(step) && !GivesUp(step, m)
    ensures m in s.user ==> m in Apply(s, step).user
  {
  }

  /** A message the application has a reference to stays allocated, with its id, until it gives one up. */
  lemma {:induction false} RetainedStays(s: State, steps: seq<Step>, m: Msg)
    requires Inv(s) && m in s.user && IsRun(s, steps)
    requires forall k :: 0 <= k < |steps| ==> !GivesUp(steps[k], m)
    ensures var e := Exec(s, steps);
            && m in e.user && m in e.live && m !in e.dying && m.block !in e.free
            && HdrOf(e, m).id == m.id && HdrOf(e, m).refCnt > 0
    decreases |steps|
  {
    hide Apply, Enabled, PcInv, RefInv, Owners;
    if steps == [] {
      NoUseAfterFree(s, m);
    } else {
      StepKeepsInv(s, steps[0]);
      StepKeepsUserRef(s, steps[0], m);
      RetainedStays(Apply(s, steps[0]), steps[1..], m);
    }
  }

  lemma AcquireRetains(s: State, m: Msg, holder: Holder)
    requires Shaped(s) && Enabled(s, Acquire(m, holder))
    ensures m in Apply(s, Acquire(m, holder)).user
  {
  }

  /** A handler, of a queueing subscriber or called by the broker, may acquire a reference to the message it is
      called with at any moment, and then the message stays as long as the application does not give it up,
      whatever the handler's thread and all others do. */
  lemma HandlerMayRetain(s: State, m: Msg, holder: Holder, steps: seq<Step>)
    requires Inv(s)
    requires match holder
             case AsUser => m in s.user
             case InCallback => s.broker.Visiting? && s.broker.m == m
             case InHandler(i) => i < |s.subs| && s.poll[i] == Handling(m)
    requires forall k :: 0 <= k < |steps| ==> !GivesUp(steps[k], m)
    ensures Enabled(s, Acquire(m, holder))
    ensures var s' := Apply(s, Acquire(m, holder));
            IsRun(s', steps) ==> var e := Exec(s', steps); m in e.live && m !in e.dying && HdrOf(e, m).id == m.id
  {
    var s' := Apply(s, Acquire(m, holder));
    AcquireRetains(s, m, holder);
    StepKeepsInv(s, Acquire(m, holder));
    hide Apply, Enabled, Inv;
    if IsRun(s', steps) { RetainedStays(s', steps, m); }
  }
}
