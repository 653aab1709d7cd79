/** Reference counting over every interleaving: the 8-bit field of each header counts the owners of
    the message, and a block is on the free list exactly when nobody owns what was allocated in it. */
module RefCount {
  import opened Types
  import opened Protocol
  import opened Frames

  // ----- owners -----

  function Count(log: seq<Msg>, m: Msg): nat {
    if log == [] then 0
    else Count(log[..|log| - 1], m) + if log[|log| - 1] == m then 1 else 0
  }

  function BrokerRefs(pc: BrokerPc, m: Msg): nat {
    if pc.Idle? || pc.m != m then 0 else if pc.Putting? then 2 else 1
  }

  function PollRefs(pc: PollPc, m: Msg): nat {
    if pc.Ready? || pc.m != m then 0 else if pc.Relaying? then 2 else 1
  }

  function Sum(parts: seq<nat>): nat {
    if parts == [] then 0 else Sum(parts[..|parts| - 1]) + parts[|parts| - 1]
  }

  /** What each subscriber owns of m: in its queue and in its polling thread. */
  ghost function Shares(s: State, m: Msg): (r: seq<nat>)
    requires Shaped(s)
    ensures |r| == |s.subs|
  {
    seq(|s.subs|, i requires 0 <= i < |s.subs| => Count(s.q[i], m) + PollRefs(s.poll[i], m))
  }

  /** The number of owned references to m, all owners together. */
  ghost function Owners(s: State, m: Msg): nat
    requires Shaped(s)
  {
    s.user[m] + Count(s.pub, m) + BrokerRefs(s.broker, m) + Sum(Shares(s, m))
  }

  lemma CountAppend(log: seq<Msg>, x: Msg, m: Msg)
    ensures Count(log + [x], m) == Count(log, m) + if x == m then 1 else 0
  {
    assert (log + [x])[..|log|] == log;
  }

  lemma {:induction false} CountTail(log: seq<Msg>, m: Msg)
    requires log != []
    ensures Count(log, m) == Count(log[1..], m) + if log[0] == m then 1 else 0
  {
    var last := |log| - 1;
    if last > 0 {
      assert log[1..][..last - 1] == log[..last][1..];
      CountTail(log[..last], m);
    }
  }

  lemma {:induction false} SumUpdate(parts: seq<nat>, i: nat, x: nat)
    requires i < |parts|
    ensures Sum(parts[i := x]) + parts[i] == Sum(parts) + x
  {
    var last := |parts| - 1;
    if i == last {
      assert parts[i := x][..last] == parts[..last];
    } else {
      assert parts[i := x][..last] == parts[..last][i := x];
      SumUpdate(parts[..last], i, x);
    }
  }

  lemma {:induction false} SumZero(parts: seq<nat>)
    requires forall i :: 0 <= i < |parts| ==> parts[i] == 0
    ensures Sum(parts) == 0
  {
    if parts != [] { SumZero(parts[..|parts| - 1]); }
  }

  lemma {:induction false} SumAtLeast(parts: seq<nat>, i: nat)
    requires i < |parts|
    ensures Sum(parts) >= parts[i]
  {
    var last := |parts| - 1;
    if i < last { SumAtLeast(parts[..last], i); }
  }

  // ----- how each step changes the owners -----

  /** The change a step makes to the number of references to m; only New and Acquire, and the two
      acquisitions made on behalf of a subscriber, add one. */
  ghost function Delta(s: State, step: Step, m: Msg): int
    requires Shaped(s) && Enabled(s, step)
  {
    match step
    case New(id, block) => if m == Msg(s.next, id, block) then 1 else 0
    case Acquire(k, _) => if k == m then 1 else 0
    case Release(k) => if k == m then -1 else 0
    case PublishDirect(i, k) => if s.subs[i].rxType == Callback && k == m then -1 else 0
    case Visit => if ApplyVisit(s).broker.Putting? && s.broker.m == m then 1 else 0
    case Finish => if s.broker.m == m then -1 else 0
    case RelayLock(i) => if ApplyRelayLock(s, i).poll[i].Relaying? && s.poll[i].m == m then 1 else 0
    case Return(i) => if s.poll[i].m == m then -1 else 0
    case _ => 0
  }

  lemma SharesUpdate(s: State, s': State, i: nat, m: Msg)
    requires Shaped(s) && Shaped(s') && |s.subs| == |s'.subs| && i < |s.subs|
    requires forall k :: 0 <= k < |s.subs| && k != i ==> s'.q[k] == s.q[k] && s'.poll[k] == s.poll[k]
    ensures Sum(Shares(s', m)) + Count(s.q[i], m) + PollRefs(s.poll[i], m)
         == Sum(Shares(s, m)) + Count(s'.q[i], m) + PollRefs(s'.poll[i], m)
  {
    assert Shares(s', m) == Shares(s, m)[i := Shares(s', m)[i]];
    SumUpdate(Shares(s, m), i, Shares(s', m)[i]);
  }

  lemma SharesSame(s: State, s': State, m: Msg)
    requires Shaped(s) && Shaped(s') && |s.subs| == |s'.subs|
    requires s'.q == s.q && s'.poll == s.poll
    ensures Sum(Shares(s', m)) == Sum(Shares(s, m))
  {
    assert Shares(s', m) == Shares(s, m);
  }

  lemma OwnersOfPut(s: State, m: Msg)
    requires Shaped(s) && Enabled(s, Put)
    ensures Owners(Apply(s, Put), m) == Owners(s, m)
  {
    PutFrame(s);
    PutQueue(s);
    PutPc(s);
    hide Apply, Enabled;
    SharesUpdate(s, Apply(s, Put), s.broker.pos, m);
    CountAppend(s.q[s.broker.pos], s.broker.m, m);
    hide Shares, Sum, Count;
  }

  lemma OwnersOfPollGet(s: State, i: nat, m: Msg)
    requires Shaped(s) && Enabled(s, PollGet(i))
    ensures Owners(Apply(s, PollGet(i)), m) == Owners(s, m)
  {
    assert s.poll[i].Ready? && s.q[i] != [];
    PollGetFrame(s, i);
    PollGetQueue(s, i);
    PollGetPc(s, i);
    hide Apply, Enabled;
    SharesUpdate(s, Apply(s, PollGet(i)), i, m);
    CountTail(s.q[i], m);
    hide Shares, Sum, Count;
  }

  /** What each subscriber owns when a message has been put into the queue of one and the pc of another
      has moved on. */
  lemma SharesOfRelay(s: State, s': State, i: nat, j: nat, m: Msg)
    requires Shaped(s) && Shaped(s') && |s.subs| == |s'.subs| && i < |s.subs| && j < |s.subs|
    requires OtherQueuesKept(s, s', j) && OwnOnly(s, s', i)
    ensures Sum(Shares(s', m)) + Count(s.q[j], m) + PollRefs(s.poll[i], m)
         == Sum(Shares(s, m)) + Count(s'.q[j], m) + PollRefs(s'.poll[i], m)
  {
    var mid := s.(q := s'.q);
    SharesUpdate(s, mid, j, m);
    SharesUpdate(mid, s', i, m);
  }

  lemma OwnersOfRelayPut(s: State, i: nat, m: Msg)
    requires Shaped(s) && Enabled(s, RelayPut(i))
    ensures Owners(Apply(s, RelayPut(i)), m) == Owners(s, m)
  {
    var j := s.poll[i].next;
    RelayPutFrame(s, i);
    RelayPutQueue(s, i);
    RelayPutPc(s, i);
    SharesOfRelay(s, Apply(s, RelayPut(i)), i, j, m);
    CountAppend(s.q[j], s.poll[i].m, m);
    hide Apply, Shares, Sum, Count;
  }

  lemma OwnersOfPublishDirect(s: State, i: nat, k: Msg, m: Msg)
    requires Shaped(s) && Enabled(s, PublishDirect(i, k))
    ensures Owners(Apply(s, PublishDirect(i, k)), m) == Owners(s, m) + Delta(s, PublishDirect(i, k), m)
  {
    PublishDirectFrame(s, i, k);
    PublishDirectQueue(s, i, k);
    SharesUpdate(s, Apply(s, PublishDirect(i, k)), i, m);
    CountAppend(s.q[i], k, m);
    hide Shares, Sum, Count;
  }

  lemma OwnersOfPublish(s: State, k: Msg, m: Msg)
    requires Shaped(s) && Enabled(s, Publish(k))
    ensures Owners(Apply(s, Publish(k)), m) == Owners(s, m)
  {
    PublishFrame(s, k);
    PublishSent(s, k);
    PublishUser(s, k);
    hide Apply, Enabled;
    SharesSame(s, Apply(s, Publish(k)), m);
    CountAppend(s.pub, k, m);
    hide Shares, Sum, Count, HeadersKept, BlocksKept;
  }

  lemma OwnersOfTake(s: State, m: Msg)
    requires Shaped(s) && Enabled(s, Take)
    ensures Owners(Apply(s, Take), m) == Owners(s, m)
  {
    TakeFrame(s);
    SharesSame(s, Apply(s, Take), m);
    CountTail(s.pub, m);
    hide Shares, Sum, Count;
  }

  lemma OwnersOfRelayLock(s: State, i: nat, m: Msg)
    requires Shaped(s) && Enabled(s, RelayLock(i))
    ensures Owners(Apply(s, RelayLock(i)), m) == Owners(s, m) + Delta(s, RelayLock(i), m)
  {
    RelayLockFrame(s, i);
    RelayLockPc(s, i);
    SharesUpdate(s, Apply(s, RelayLock(i)), i, m);
    hide Apply, Shares, Sum, Count;
  }

  lemma OwnersOfReturn(s: State, i: nat, m: Msg)
    requires Shaped(s) && Enabled(s, Return(i))
    ensures Owners(Apply(s, Return(i)), m) == Owners(s, m) + Delta(s, Return(i), m)
  {
    assert s.poll[i].Handling?;
    ReturnFrame(s, i);
    ReturnPc(s, i);
    hide Apply, Enabled;
    SharesUpdate(s, Apply(s, Return(i)), i, m);
    hide Shares, Sum, Count;
  }

  lemma OwnersOfVisit(s: State, m: Msg)
    requires Shaped(s) && Enabled(s, Visit)
    ensures Owners(Apply(s, Visit), m) == Owners(s, m) + Delta(s, Visit, m)
  {
    VisitFrame(s);
    VisitPc(s);
    SharesSame(s, Apply(s, Visit), m);
    hide Apply, Shares, Sum, Count;
  }

  /** A step of the application that leaves all queues alone. */
  lemma OwnersOfApp(s: State, step: Step, m: Msg)
    requires Shaped(s) && Enabled(s, step) && !BrokerStep(step) && !PollerStep(step)
    requires !step.Publish? && !step.PublishDirect?
    ensures Owners(Apply(s, step), m) == Owners(s, m) + Delta(s, step, m)
  {
    AppFrame(s, step);
    SharesSame(s, Apply(s, step), m);
    AppUserRefs(s, step, m);
    hide Apply, Enabled, Shares, Sum, Count;
  }

  lemma AppUserRefs(s: State, step: Step, m: Msg)
    requires Shaped(s) && Enabled(s, step) && !BrokerStep(step) && !PollerStep(step)
    requires !step.Publish? && !step.PublishDirect?
    ensures Apply(s, step).user[m] == s.user[m] + Delta(s, step, m)
  {
  }

  lemma OwnersOfLock(s: State, m: Msg)
    requires Shaped(s) && Enabled(s, Lock)
    ensures Owners(Apply(s, Lock), m) == Owners(s, m)
  {
    SharesSame(s, Apply(s, Lock), m);
    hide Shares, Sum, Count;
  }

  lemma OwnersOfFinish(s: State, m: Msg)
    requires Shaped(s) && Enabled(s, Finish)
    ensures Owners(Apply(s, Finish), m) == Owners(s, m) + Delta(s, Finish, m)
  {
    SharesSame(s, Apply(s, Finish), m);
    hide Shares, Sum, Count;
  }

  lemma OwnersOfStep(s: State, step: Step, m: Msg)
    requires Shaped(s) && Enabled(s, step)
    ensures Owners(Apply(s, step), m) == Owners(s, m) + Delta(s, step, m)
  {
    hide Apply, Owners, Enabled;
    match step
    case Put => OwnersOfPut(s, m);
    case PollGet(i) => OwnersOfPollGet(s, i, m);
    case RelayPut(i) => OwnersOfRelayPut(s, i, m);
    case PublishDirect(i, k) => OwnersOfPublishDirect(s, i, k, m);
    case Publish(k) => OwnersOfPublish(s, k, m);
    case Take => OwnersOfTake(s, m);
    case Lock => OwnersOfLock(s, m);
    case Finish => OwnersOfFinish(s, m);
    case RelayLock(i) => OwnersOfRelayLock(s, i, m);
    case Return(i) => OwnersOfReturn(s, i, m);
    case Visit => OwnersOfVisit(s, m);
    case _ => OwnersOfApp(s, step, m);
  }
}
