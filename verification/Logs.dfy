/** Delivery logs: what arrived at a subscriber, what the broker has passed by it, and how each step
    extends them. */
module Logs {
  import opened Types
  import opened Protocol
  import opened Frames

  // ----- selecting the messages of some ids from a log -----

  function Sel(want: set<nat>, log: seq<Msg>): seq<Msg> {
    if log == [] then []
    else
      var last := |log| - 1;
      Sel(want, log[..last]) + if log[last].id in want then [log[last]] else []
  }

  lemma {:induction false} SelIn(want: set<nat>, log: seq<Msg>, m: Msg)
    ensures m in Sel(want, log) <==> m in log && m.id in want
  {
    if log != [] {
      var last := |log| - 1;
      assert log == log[..last] + [log[last]];
      SelIn(want, log[..last], m);
    }
  }

  lemma SelAppend(want: set<nat>, log: seq<Msg>, m: Msg)
    ensures Sel(want, log + [m]) == Sel(want, log) + if m.id in want then [m] else []
  {
    assert (log + [m])[..|log|] == log;
  }

  lemma {:induction false} SelConcat(want: set<nat>, a: seq<Msg>, b: seq<Msg>)
    ensures Sel(want, a + b) == Sel(want, a) + Sel(want, b)
  {
    if b == [] {
      assert a + b == a;
    } else {
      var last := |b| - 1;
      assert a + b == (a + b[..last]) + [b[last]];
      SelAppend(want, a + b[..last], b[last]);
      SelConcat(want, a, b[..last]);
    }
  }

  // ----- the logs -----

  function Pre(pc: PollPc): seq<Msg> {
    if pc.Got? || pc.Relaying? then [pc.m] else []
  }

  /** Everything that ever reached subscriber i, in order: what its handler was called with, then what
      its thread has in hand before the handler, then its queue. */
  ghost function Arrived(s: State, i: nat): seq<Msg>
    requires Shaped(s) && i < |s.subs|
  {
    s.handled[i] + Pre(s.poll[i]) + s.q[i]
  }

  /** Everything ever published to the broker, in publish order. */
  ghost function Published(s: State): seq<Msg> {
    s.taken + s.pub
  }

  /** Has the broker finished with list position k for its current message? */
  ghost predicate BrokerPast(pc: BrokerPc, k: nat) {
    match pc
    case Idle => true
    case Taken(_) => false
    case Visiting(_, pos) => k < pos
    case Putting(_, pos) => k < pos
    case Unlocked(_) => true
  }

  /** The messages for which the broker has made up its mind about subscriber k. */
  ghost function Passed(s: State, k: nat): seq<Msg> {
    if BrokerPast(s.broker, k) || s.taken == [] then s.taken else s.taken[..|s.taken| - 1]
  }

  ghost predicate Current(s: State) {
    !s.broker.Idle? ==> s.taken != [] && s.taken[|s.taken| - 1] == s.broker.m
  }

  // ----- what each step adds to the logs -----

  datatype Event = At(i: nat, m: Msg)

  function Adds(e: Option<Event>, k: nat): seq<Msg> {
    if e.Some? && e.value.i == k then [e.value.m] else []
  }

  /** The arrival a step makes. */
  ghost function Arrival(s: State, step: Step): Option<Event>
    requires Shaped(s) && Enabled(s, step)
  {
    match step
    case PublishDirect(i, m) => Some(At(i, m))
    case Visit =>
      var m, pos := s.broker.m, s.broker.pos;
      if pos < |s.subs| && s.subs[pos].Wants(HdrOf(s, m).id) && s.subs[pos].rxType == Callback
      then Some(At(pos, m)) else None
    case Put => Some(At(s.broker.pos, s.broker.m))
    case RelayPut(i) => Some(At(s.poll[i].next, s.poll[i].m))
    case _ => None
  }

  /** The handler call a step makes. */
  ghost function HandlerCall(s: State, step: Step): Option<Event>
    requires Shaped(s) && Enabled(s, step)
  {
    match step
    case PublishDirect(i, m) => if s.subs[i].rxType == Callback then Some(At(i, m)) else None
    case Visit => Arrival(s, step)
    case PollGet(i) =>
      if s.subs[i].rxType == Fifo && HdrOf(s, s.q[i][0]).id <= s.subs[i].maxPub then None
      else Some(At(i, s.q[i][0]))
    case RelayLock(i) =>
      if NextWanting(s.subs, i + 1, HdrOf(s, s.poll[i].m).id) < |s.subs| then None
      else Some(At(i, s.poll[i].m))
    case RelayPut(i) => Some(At(i, s.poll[i].m))
    case _ => None
  }

  /** Does this step settle the broker's current message for list position k? */
  ghost predicate Passes(s: State, step: Step, k: nat)
    requires Shaped(s) && Enabled(s, step)
  {
    match step
    case Visit =>
      k == s.broker.pos < |s.subs| &&
      (s.subs[k].Wants(HdrOf(s, s.broker.m).id) ==> s.subs[k].rxType == Callback)
    case Put => k == s.broker.pos || (s.subs[s.broker.pos].rxType == Fifo && k > s.broker.pos)
    case _ => false
  }

  /** How the step extends the logs of subscriber k. */
  ghost predicate LogsExtend(s: State, step: Step, k: nat)
    requires Shaped(s) && Enabled(s, step) && k < |s.subs|
  {
    var s' := Apply(s, step);
    && Arrived(s', k) == Arrived(s, k) + Adds(Arrival(s, step), k)
    && s'.handled[k] == s.handled[k] + Adds(HandlerCall(s, step), k)
    && (Passed(s', k) == if Passes(s, step, k) then Passed(s, k) + [s.broker.m] else Passed(s, k))
  }

  lemma VisitLogs(s: State, k: nat)
    requires Shaped(s) && Enabled(s, Visit) && k < |s.subs|
    requires Current(s) && s.broker.pos <= |s.subs|
    requires s.broker.pos < |s.subs| && s.subs[s.broker.pos].rxType == Callback
             ==> s.q[s.broker.pos] == [] && s.poll[s.broker.pos].Ready?
    ensures LogsExtend(s, Visit, k)
  {
    VisitFrame(s);
    VisitPc(s);
    VisitHandled(s, k);
    hide Apply;
  }

  lemma PutLogs(s: State, k: nat)
    requires Shaped(s) && Enabled(s, Put) && k < |s.subs| && Current(s)
    ensures LogsExtend(s, Put, k)
  {
    PutFrame(s);
    PutQueue(s);
    PutPc(s);
    hide Apply;
  }

  lemma TakeLogs(s: State, k: nat)
    requires Shaped(s) && Enabled(s, Take) && k < |s.subs| && Current(s)
    ensures LogsExtend(s, Take, k)
  {
    TakeFrame(s);
    TakePc(s);
    hide Apply;
  }

  lemma LockLogs(s: State, k: nat)
    requires Shaped(s) && Enabled(s, Lock) && k < |s.subs| && Current(s)
    ensures LogsExtend(s, Lock, k)
  {
    LockFrame(s);
    LockPc(s);
    hide Apply;
  }

  lemma FinishLogs(s: State, k: nat)
    requires Shaped(s) && Enabled(s, Finish) && k < |s.subs| && Current(s)
    ensures LogsExtend(s, Finish, k)
  {
    FinishFrame(s);
    FinishPc(s);
    hide Apply;
  }

  lemma BrokerKept(s: State, s': State, k: nat)
    requires s'.broker == s.broker && s'.taken == s.taken
    ensures Passed(s', k) == Passed(s, k)
  {
  }

  lemma MovedOn(h: seq<Msg>, m: Msg, q: seq<Msg>)
    ensures (h + [m]) + [] + q == h + [m] + q
  {
  }

  lemma MovedFromQueue(h: seq<Msg>, q: seq<Msg>)
    requires q != []
    ensures (h + [q[0]]) + [] + q[1..] == h + [] + q && h + [q[0]] + q[1..] == h + [] + q
  {
    assert q == [q[0]] + q[1..];
  }

  lemma AddedLast(h: seq<Msg>, pre: seq<Msg>, q: seq<Msg>, m: Msg)
    ensures h + pre + (q + [m]) == (h + pre + q) + [m]
  {
  }

  /** Nothing of subscriber k has changed. */
  lemma PlaceSame(s: State, s': State, k: nat)
    requires Shaped(s) && Shaped(s') && k < |s.subs| && |s'.subs| == |s.subs|
    requires s'.handled[k] == s.handled[k] && s'.poll[k] == s.poll[k] && s'.q[k] == s.q[k]
    ensures Arrived(s', k) == Arrived(s, k) && Arrived(s, k) + [] == Arrived(s, k)
    ensures s.handled[k] + [] == s.handled[k]
  {
  }

  lemma PollGetLogs(s: State, i: nat, k: nat)
    requires Shaped(s) && Enabled(s, PollGet(i)) && k < |s.subs|
    ensures LogsExtend(s, PollGet(i), k)
  {
    assert s.q[i] != [] && s.poll[i].Ready? && Arrival(s, PollGet(i)).None?;
    PollGetFrame(s, i);
    PollGetQueue(s, i);
    PollGetPc(s, i);
    BrokerKept(s, Apply(s, PollGet(i)), k);
    hide Apply, Enabled, Passed;
    if k == i { MovedFromQueue(s.handled[k], s.q[k]); } else { PlaceSame(s, Apply(s, PollGet(i)), k); }
  }

  lemma RelayLockLogs(s: State, i: nat, k: nat)
    requires Shaped(s) && Enabled(s, RelayLock(i)) && k < |s.subs|
    ensures LogsExtend(s, RelayLock(i), k)
  {
    RelayLockFrame(s, i);
    RelayLockPc(s, i);
    BrokerKept(s, Apply(s, RelayLock(i)), k);
    assert s.poll[i].Got?;
    hide Apply, Enabled, Passed, NextWanting;
    if k == i {
      MovedOn(s.handled[k], s.poll[k].m, s.q[k]);
    } else {
      PlaceSame(s, Apply(s, RelayLock(i)), k);
    }
  }

  lemma RelayPutLogs(s: State, i: nat, k: nat)
    requires Shaped(s) && Enabled(s, RelayPut(i)) && k < |s.subs| && s.poll[i].next != i
    ensures LogsExtend(s, RelayPut(i), k)
  {
    RelayPutFrame(s, i);
    RelayPutQueue(s, i);
    RelayPutPc(s, i);
    BrokerKept(s, Apply(s, RelayPut(i)), k);
    assert s.poll[i].Relaying?;
    hide Apply, Enabled, Passed;
    if k == i {
      MovedOn(s.handled[k], s.poll[k].m, s.q[k]);
    } else if k == s.poll[i].next {
      AddedLast(s.handled[k], Pre(s.poll[k]), s.q[k], s.poll[i].m);
    } else {
      PlaceSame(s, Apply(s, RelayPut(i)), k);
    }
  }

  lemma ReturnLogs(s: State, i: nat, k: nat)
    requires Shaped(s) && Enabled(s, Return(i)) && k < |s.subs|
    ensures LogsExtend(s, Return(i), k)
  {
    ReturnFrame(s, i);
    ReturnPc(s, i);
    BrokerKept(s, Apply(s, Return(i)), k);
    hide Apply, Passed;
  }

  lemma PublishDirectLogs(s: State, i: nat, m: Msg, k: nat)
    requires Shaped(s) && Enabled(s, PublishDirect(i, m)) && k < |s.subs|
    requires s.subs[i].rxType == Callback ==> s.q[i] == [] && s.poll[i].Ready?
    ensures LogsExtend(s, PublishDirect(i, m), k)
  {
    PublishDirectFrame(s, i, m);
    PublishDirectQueue(s, i, m);
    PublishDirectHandled(s, i, m, k);
    BrokerKept(s, Apply(s, PublishDirect(i, m)), k);
    hide Apply, Passed;
  }

  /** Other steps of the application leave all logs alone. */
  lemma OtherLogs(s: State, step: Step, k: nat)
    requires Shaped(s) && Enabled(s, step) && k < |s.subs|
    requires !BrokerStep(step) && !PollerStep(step) && !step.PublishDirect?
    ensures LogsExtend(s, step, k)
  {
    NothingLogged(s, step, k);
    OtherPlaceKept(s, step, k);
    hide Apply, Enabled, Arrival, HandlerCall, Passes, Passed, Arrived;
  }

  lemma NothingLogged(s: State, step: Step, k: nat)
    requires Shaped(s) && Enabled(s, step) && k < |s.subs|
    requires !BrokerStep(step) && !PollerStep(step) && !step.PublishDirect?
    ensures Arrival(s, step).None? && HandlerCall(s, step).None? && !Passes(s, step, k)
  {
    hide Apply;
  }

  lemma OtherPlaceKept(s: State, step: Step, k: nat)
    requires Shaped(s) && Enabled(s, step) && k < |s.subs|
    requires !BrokerStep(step) && !PollerStep(step) && !step.PublishDirect?
    ensures var s' := Apply(s, step);
            && Arrived(s', k) == Arrived(s, k) + [] && Passed(s', k) == Passed(s, k)
            && s'.handled[k] == s.handled[k] + []
  {
    hide Apply, Passed, Arrived;
    AppFrame(s, step);
    if step.Publish? { PublishFrame(s, step.m); }
    BrokerKept(s, Apply(s, step), k);
    PlaceSame(s, Apply(s, step), k);
    hide Enabled;
  }

  lemma CurrentKept(s: State, step: Step)
    requires Shaped(s) && Enabled(s, step) && Current(s)
    ensures Current(Apply(s, step))
  {
    hide Apply;
    if BrokerStep(step) {
      match step
      case Take => TakePc(s);
      case Lock => LockPc(s);
      case Visit => VisitPc(s);
      case Put => PutPc(s);
      case Finish => FinishPc(s);
    } else if PollerStep(step) {
      PollerFrame(s, step);
    } else {
      AppFrame(s, step);
    }
  }
}
