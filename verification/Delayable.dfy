/** A delayable message: a static message with a timer that publishes it to one queueing subscriber. */
module Delayable {
  /** The timer, the reference count, where the message is, and how often what has happened. */
  datatype Delayed = Delayed(timer: bool, refCnt: int, queued: nat, handling: bool,
                             starts: nat, expiries: nat, cancels: nat)

  datatype Step = Start | Abort | Update | Expire | Get | Return

  const EINVAL := -22

  /** pub_sub_delayable_msg_init. */
  function Fresh(): Delayed {
    Delayed(false, 0, 0, false, 0, 0, 0)
  }

  /** The kernel refuses to add a timeout twice; the subscriber has one polling thread. */
  predicate Possible(d: Delayed, step: Step) {
    match step
    case Start => !d.timer
    case Abort => true
    case Update => true
    case Expire => d.timer
    case Get => d.queued > 0 && !d.handling
    case Return => d.handling
  }

  function StartIt(d: Delayed): Delayed {
    d.(timer := true, starts := d.starts + 1)
  }

  function AbortIt(d: Delayed): (Delayed, int) {
    if d.timer then (d.(timer := false, cancels := d.cancels + 1), 0)
    else (d, if d.refCnt == 0 then 0 else EINVAL)
  }

  function After(d: Delayed, step: Step): Delayed
    requires Possible(d, step)
  {
    match step
    case Start => StartIt(d)
    case Abort => AbortIt(d).0
    case Update => StartIt(AbortIt(d).0)
    case Expire => d.(timer := false, refCnt := d.refCnt + 1, queued := d.queued + 1, expiries := d.expiries + 1)
    case Get => d.(queued := d.queued - 1, handling := true)
    case Return => d.(handling := false, refCnt := d.refCnt - 1)
  }

  predicate CanRun(d: Delayed, steps: seq<Step>)
    decreases |steps|
  {
    steps == [] || (Possible(d, steps[0]) && CanRun(After(d, steps[0]), steps[1..]))
  }

  function Run(d: Delayed, steps: seq<Step>): Delayed
    requires CanRun(d, steps)
    decreases |steps|
  {
    if steps == [] then d else Run(After(d, steps[0]), steps[1..])
  }

  // ----- the count -----

  /** The count is what is queued and being handled; every start has expired, been cancelled, or is
      still running. */
  predicate Counted(d: Delayed) {
    && d.refCnt == d.queued + (if d.handling then 1 else 0)
    && d.starts == d.expiries + d.cancels + (if d.timer then 1 else 0)
  }

  /** The message has been handled each time before its timer expires again. */
  predicate InTime(d: Delayed, steps: seq<Step>)
    requires CanRun(d, steps)
    decreases |steps|
  {
    steps == [] ||
    ((steps[0].Expire? ==> d.refCnt == 0) && InTime(After(d, steps[0]), steps[1..]))
  }

  /** The count never leaves 0 and 1 exactly when the message is always handled in time. */
  predicate AtMostOneThroughout(d: Delayed, steps: seq<Step>)
    requires CanRun(d, steps)
    decreases |steps|
  {
    0 <= d.refCnt <= 1 && (steps != [] ==> AtMostOneThroughout(After(d, steps[0]), steps[1..]))
  }

  lemma {:induction false} RunCounts(d: Delayed, steps: seq<Step>)
    requires Counted(d) && d.refCnt <= 1 && CanRun(d, steps)
    ensures Counted(Run(d, steps))
    ensures AtMostOneThroughout(d, steps) <==> InTime(d, steps)
    decreases |steps|
  {
    if steps != [] {
      var d' := After(d, steps[0]);
      if d'.refCnt <= 1 {
        RunCounts(d', steps[1..]);
      } else {
        RunKeepsCounted(d', steps[1..]);
        assert !AtMostOneThroughout(d', steps[1..]);
      }
    }
  }

  lemma {:induction false} RunKeepsCounted(d: Delayed, steps: seq<Step>)
    requires Counted(d) && CanRun(d, steps)
    ensures Counted(Run(d, steps))
    decreases |steps|
  {
    if steps != [] { RunKeepsCounted(After(d, steps[0]), steps[1..]); }
  }

  /** An abort fails exactly when the timer is idle and a published delivery is not finished. */
  lemma AbortFailsIff(d: Delayed)
    requires Counted(d)
    ensures AbortIt(d).1 != 0 <==> !d.timer && (d.queued > 0 || d.handling)
  {
  }

  // ----- what a run has done -----

  /** The timer runs when it was started or updated, and neither aborted nor expired since. */
  lemma {:induction false} LastDecidesTimer(d: Delayed, steps: seq<Step>)
    requires CanRun(d, steps)
    ensures Run(d, steps).timer <==>
              (exists k :: 0 <= k < |steps| && (steps[k].Start? || steps[k].Update?) &&
                           forall j :: k < j < |steps| ==> !steps[j].Abort? && !steps[j].Expire?) ||
              (d.timer && forall j :: 0 <= j < |steps| ==> !steps[j].Abort? && !steps[j].Expire?)
    decreases |steps|
  {
    if steps != [] {
      var d', rest := After(d, steps[0]), steps[1..];
      LastDecidesTimer(d', rest);
      assert forall j :: 0 < j < |steps| ==> steps[j] == rest[j - 1];
      if k :| 0 <= k < |rest| && (rest[k].Start? || rest[k].Update?) &&
              (forall j :: k < j < |rest| ==> !rest[j].Abort? && !rest[j].Expire?) {
        assert steps[k + 1] == rest[k];
      }
      if k :| 0 <= k < |steps| && (steps[k].Start? || steps[k].Update?) &&
              (forall j :: k < j < |steps| ==> !steps[j].Abort? && !steps[j].Expire?) {
        assert forall j :: 0 <= j < |rest| ==> rest[j] == steps[j + 1];
        if k > 0 { assert rest[k - 1] == steps[k]; }
      }
    }
  }

  /** How often a step has been taken. */
  function Occurrences(steps: seq<Step>, step: Step): nat {
    multiset(steps)[step]
  }

  function AsInt(b: bool): int {
    if b then 1 else 0
  }

  lemma OccurrencesFirst(steps: seq<Step>, step: Step)
    requires steps != []
    ensures Occurrences(steps, step) == AsInt(steps[0] == step) + Occurrences(steps[1..], step)
  {
    assert steps == [steps[0]] + steps[1..];
  }

  /** Every expiry queues the message and acquires a reference, every dequeue starts its handler, and every
      return of the handler releases it; nothing else does. */
  lemma {:induction false} RunTallies(d: Delayed, steps: seq<Step>)
    requires CanRun(d, steps)
    ensures var e := Run(d, steps);
            && e.queued == d.queued + Occurrences(steps, Expire) - Occurrences(steps, Get)
            && AsInt(e.handling) == AsInt(d.handling) + Occurrences(steps, Get) - Occurrences(steps, Step.Return)
            && e.refCnt == d.refCnt + Occurrences(steps, Expire) - Occurrences(steps, Step.Return)
            && e.starts == d.starts + Occurrences(steps, Step.Start) + Occurrences(steps, Update)
            && e.expiries == d.expiries + Occurrences(steps, Expire)
    decreases |steps|
  {
    if steps != [] {
      RunTallies(After(d, steps[0]), steps[1..]);
      forall step ensures Occurrences(steps, step) == AsInt(steps[0] == step) + Occurrences(steps[1..], step) {
        OccurrencesFirst(steps, step);
      }
      hide Occurrences;
    }
  }

  // ----- what a start or an update promises -----

  /** Nothing more will be delivered unless the message is started again. */
  predicate Silent(d: Delayed) {
    !d.timer && d.queued == 0
  }

  /** The message is neither started, updated nor aborted. */
  predicate LeftAlone(steps: seq<Step>) {
    forall k :: 0 <= k < |steps| ==> !steps[k].Start? && !steps[k].Update? && !steps[k].Abort?
  }

  /** Everything that was to be delivered has been. */
  predicate Complete(d: Delayed, steps: seq<Step>) {
    CanRun(d, steps) && LeftAlone(steps) && Silent(Run(d, steps)) && !Run(d, steps).handling
  }

  /** Left alone the subscriber takes the message once for each time it is queued, and once more when its
      timer is running. */
  lemma {:induction false} LeftAloneDelivers(d: Delayed, steps: seq<Step>)
    requires Complete(d, steps)
    ensures Occurrences(steps, Get) == d.queued + AsInt(d.timer) && Occurrences(steps, Expire) == AsInt(d.timer)
    decreases |steps|
  {
    if steps != [] {
      assert Complete(After(d, steps[0]), steps[1..]) by {
        assert forall k :: 0 <= k < |steps[1..]| ==> steps[1..][k] == steps[k + 1];
      }
      LeftAloneDelivers(After(d, steps[0]), steps[1..]);
      OccurrencesFirst(steps, Get);
      OccurrencesFirst(steps, Expire);
      hide Occurrences;
    }
  }

  /** One step at a time, each delivery finished before the timer expires. */
  lemma {:induction false} CompletesInTime(d: Delayed) returns (steps: seq<Step>)
    requires Counted(d)
    ensures Complete(d, steps) && InTime(d, steps)
    decreases 2 * d.queued + AsInt(d.handling) + 3 * AsInt(d.timer)
  {
    if Silent(d) && !d.handling {
      steps := [];
    } else {
      var step := if d.handling then Step.Return else if d.queued > 0 then Get else Expire;
      var rest := CompletesInTime(After(d, step));
      steps := [step] + rest;
      assert steps[1..] == rest;
    }
  }

  /** An update is possible at any time. Left alone after it, the subscriber takes the message once more than
      it is queued; so when the update failed it is taken twice exactly if it was not being handled. */
  lemma UpdateDelivers(d: Delayed, steps: seq<Step>)
    requires Counted(d)
    ensures Possible(d, Update)
    ensures exists run :: Complete(After(d, Update), run) && InTime(After(d, Update), run)
    ensures Complete(After(d, Update), steps) ==>
              Occurrences(steps, Get) == d.queued + 1 && Occurrences(steps, Expire) == 1
    ensures Complete(After(d, Update), steps) && d.refCnt <= 1 && AbortIt(d).1 != 0 ==>
              (Occurrences(steps, Get) == 2 <==> !d.handling)
  {
    var u := After(d, Update);
    var run := CompletesInTime(u);
    assert Complete(u, run) && InTime(u, run);
    if Complete(u, steps) { LeftAloneDelivers(u, steps); }
    hide Occurrences, Complete;
  }

  /** Updated by its own handler, it is taken once more although the update failed. */
  lemma UpdatedInHandler()
    ensures var before, d := [Step.Start, Expire, Get], Delayed(false, 1, 0, true, 1, 1, 0);
            && CanRun(Fresh(), before) && Run(Fresh(), before) == d && InTime(Fresh(), before)
            && AbortIt(d).1 == EINVAL
            && forall steps :: Complete(After(d, Update), steps) ==> Occurrences(steps, Get) == 1
  {
    var d1 := After(Fresh(), Step.Start);
    var d2 := After(d1, Expire);
    var d := After(d2, Get);
    var steps := [Step.Start, Expire, Get];
    assert steps[1..] == [Expire, Get] && steps[1..][1..] == [Get] && steps[1..][1..][1..] == [];
    assert CanRun(d, []) && CanRun(d2, [Get]) && CanRun(d1, [Expire, Get]);
    assert Run(d, []) == d && Run(d2, [Get]) == d && Run(d1, [Expire, Get]) == d;
    assert InTime(d, []) && InTime(d2, [Get]) && InTime(d1, [Expire, Get]);
    forall run | Complete(After(d, Update), run) ensures Occurrences(run, Get) == 1 { UpdateDelivers(d, run); }
  }

  // ----- what a successful abort promises -----

  lemma {:induction false} SilentUntilStart(d: Delayed, steps: seq<Step>, k: nat)
    requires Silent(d) && CanRun(d, steps) && k < |steps|
    requires forall j :: 0 <= j < k ==> steps[j] != Start && steps[j] != Update
    ensures steps[k] != Get && steps[k] != Expire
    decreases k
  {
    if k > 0 {
      assert Silent(After(d, steps[0]));
      SilentUntilStart(After(d, steps[0]), steps[1..], k - 1);
    }
  }

  /** The message is started only when it is not in use, or from its own handler. */
  predicate StartsGuarded(d: Delayed, steps: seq<Step>)
    requires CanRun(d, steps)
    decreases |steps|
  {
    steps == [] ||
    ((steps[0].Start? || steps[0].Update? ==> d.refCnt == 0 || (d.handling && d.queued == 0)) &&
     StartsGuarded(After(d, steps[0]), steps[1..]))
  }

  predicate Guarded(d: Delayed) {
    Counted(d) && (d.timer ==> d.queued == 0)
  }

  lemma {:induction false} RunKeepsGuarded(d: Delayed, steps: seq<Step>)
    requires Guarded(d) && CanRun(d, steps) && StartsGuarded(d, steps)
    ensures Guarded(Run(d, steps))
    decreases |steps|
  {
    if steps != [] { RunKeepsGuarded(After(d, steps[0]), steps[1..]); }
  }

  predicate StartFree(steps: seq<Step>) {
    forall k :: 0 <= k < |steps| ==> steps[k] != Start && steps[k] != Update
  }

  /** A run without another start that ends with the subscriber taking the message from its queue. */
  predicate Delivers(d: Delayed, steps: seq<Step>) {
    CanRun(d, steps) && StartFree(steps) && steps != [] && steps[|steps| - 1] == Get
  }

  /** After an abort the message can still be delivered, without being started again, exactly when it was
      queued: if the abort returned 0, when the timer was running while an earlier delivery was still
      queued, and if it failed, unless the message was just being handled. */
  lemma DeliveredAfterAbortIff(d: Delayed)
    requires Counted(d)
    ensures Possible(d, Abort)
    ensures AbortIt(d).1 == 0 ==> ((exists steps :: Delivers(AbortIt(d).0, steps)) <==> d.timer && d.queued > 0)
    ensures AbortIt(d).1 != 0 ==> ((exists steps :: Delivers(d, steps)) <==> d.queued > 0)
  {
    var a := AbortIt(d).0;
    if d.queued > 0 {
      if d.handling {
        assert [Return, Get][1..] == [Get] && [Get][1..] == [];
        assert CanRun(After(After(a, Return), Get), []) && CanRun(After(a, Return), [Get]);
        assert Delivers(a, [Return, Get]);
      } else {
        assert [Get][1..] == [] && CanRun(After(a, Get), []);
        assert Delivers(a, [Get]);
      }
    } else {
      forall steps | Delivers(a, steps) ensures false {
        SilentUntilStart(a, steps, |steps| - 1);
      }
    }
  }

  /** With guarded starts a successful abort means that no delivery begins before the next start. */
  lemma GuardedAbortIsFinal(before: seq<Step>, rest: seq<Step>, k: nat)
    requires CanRun(Fresh(), before) && StartsGuarded(Fresh(), before)
    requires var d := Run(Fresh(), before);
             AbortIt(d).1 == 0 && CanRun(AbortIt(d).0, rest) && k < |rest|
    requires forall j :: 0 <= j < k ==> rest[j] != Start && rest[j] != Update
    ensures rest[k] != Get && rest[k] != Expire
  {
    RunKeepsGuarded(Fresh(), before);
    var d := Run(Fresh(), before);
    assert Silent(AbortIt(d).0);
    SilentUntilStart(AbortIt(d).0, rest, k);
  }

  /** Without the guard a delivery can begin after a successful abort: the message is started again
      while it is queued, and aborted before the timer expires. */
  lemma UnguardedAbortIsNotFinal()
    ensures var before, d := [Start, Expire, Start], Delayed(true, 1, 1, false, 2, 1, 0);
            && CanRun(Fresh(), before) && Run(Fresh(), before) == d && InTime(Fresh(), before)
            && AbortIt(d).1 == 0 && Possible(AbortIt(d).0, Get)
  {
    var d1 := After(Fresh(), Start);
    var d2 := After(d1, Expire);
    var d3 := After(d2, Start);
    var steps := [Start, Expire, Start];
    assert steps[1..] == [Expire, Start] && steps[1..][1..] == [Start] && steps[1..][1..][1..] == [];
    assert CanRun(d3, []) && CanRun(d2, [Start]) && CanRun(d1, [Expire, Start]);
    assert Run(d3, []) == d3 && Run(d2, [Start]) == d3 && Run(d1, [Expire, Start]) == d3;
    assert InTime(d3, []) && InTime(d2, [Start]) && InTime(d1, [Expire, Start]);
  }

  // ----- the message itself -----

  class DelayableMsg {
    var timerActive: bool
    var refCnt: int
    var queued: nat          // how often it is in its subscriber's queue
    var handling: bool
    ghost var d: Delayed

    ghost predicate Valid()
      reads this
    {
      Counted(d) && d.timer == timerActive && d.refCnt == refCnt && d.queued == queued && d.handling == handling
    }

    constructor ()
      ensures Valid() && d == Fresh()
    {
      timerActive, refCnt, queued, handling := false, 0, 0, false;
      d := Fresh();
    }

    /** pub_sub_delayable_msg_start. */
    method Start()
      requires Valid() && !timerActive
      modifies this
      ensures Valid() && d == After(old(d), Step.Start)
      ensures timerActive && refCnt == old(refCnt) && queued == old(queued) && handling == old(handling)
    {
      timerActive := true;
      d := StartIt(d);
    }

    /** pub_sub_delayable_msg_abort: -EINVAL when a delivery has been published and not finished. */
    method Abort() returns (ret: int)
      requires Valid()
      modifies this
      ensures Valid() && (d, ret) == AbortIt(old(d))
      ensures ret == if !old(timerActive) && (old(queued) > 0 || old(handling)) then EINVAL else 0
      ensures !timerActive && refCnt == old(refCnt) && queued == old(queued) && handling == old(handling)
    {
      d := AbortIt(d).0;
      ret := AbortTimeout();
      if ret != 0 && refCnt == 0 {
        ret := 0;
      }
    }

    /** The kernel's z_abort_timeout. */
    method AbortTimeout() returns (ret: int)
      modifies this`timerActive
      ensures !timerActive && ret == if old(timerActive) then 0 else EINVAL
    {
      ret := if timerActive then 0 else EINVAL;
      timerActive := false;
    }

    /** pub_sub_delayable_msg_update_timeout. */
    method UpdateTimeout() returns (ret: int)
      requires Valid()
      modifies this
      ensures Valid() && d == After(old(d), Update)
      ensures ret == if !old(timerActive) && (old(queued) > 0 || old(handling)) then EINVAL else 0
      ensures timerActive && refCnt == old(refCnt) && queued == old(queued) && handling == old(handling)
    {
      ret := Abort();
      Start();
    }

    /** pub_sub_delayable_msg_handler, when the timer expires: acquire and publish. */
    method TimerExpired()
      requires Valid() && timerActive && refCnt == 0
      modifies this
      ensures Valid() && d == After(old(d), Expire)
      ensures !timerActive && refCnt == 1 && queued == old(queued) + 1 && handling == old(handling)
    {
      timerActive := false;
      refCnt := refCnt + 1;
      queued := queued + 1;
      d := After(d, Expire);
    }

    /** The subscriber takes the message from its queue and calls its handler ... */
    method TakeFromQueue()
      requires Valid() && queued > 0 && !handling
      modifies this
      ensures Valid() && d == After(old(d), Get)
      ensures handling && queued == old(queued) - 1 && timerActive == old(timerActive) && refCnt == old(refCnt)
    {
      queued, handling := queued - 1, true;
      d := After(d, Get);
    }

    /** ... and releases it when the handler has returned. */
    method HandlerReturned()
      requires Valid() && handling
      modifies this
      ensures Valid() && d == After(old(d), Step.Return)
      ensures !handling && refCnt == old(refCnt) - 1 && timerActive == old(timerActive) && queued == old(queued)
    {
      refCnt, handling := refCnt - 1, false;
      d := After(d, Step.Return);
    }
  }
}
