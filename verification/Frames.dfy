/** What each kind of step leaves alone, step by step. */
module Frames {
  import opened Types
  import opened Protocol

  /** No count has changed and nothing is newly to be freed. */
  ghost predicate HeadersKept(s: State, s': State) {
    s'.hdr == s.hdr && s'.dying == s.dying
  }

  // ----- the broker's work item -----

  ghost predicate BrokerKeeps(s: State, s': State) {
    && s'.subs == s.subs && s'.poll == s.poll && s'.direct == s.direct && s'.user == s.user
    && s'.sent == s.sent && s'.pool == s.pool && s'.free == s.free && s'.live == s.live && s'.next == s.next
  }

  lemma TakeFrame(s: State)
    requires Shaped(s) && Enabled(s, Take)
    ensures BrokerKeeps(s, Apply(s, Take))
    ensures HeadersKept(s, Apply(s, Take))
    ensures Apply(s, Take).q == s.q && Apply(s, Take).handled == s.handled
  {
  }

  lemma LockFrame(s: State)
    requires Shaped(s) && Enabled(s, Lock)
    ensures BrokerKeeps(s, Apply(s, Lock))
    ensures HeadersKept(s, Apply(s, Lock))
    ensures Apply(s, Lock).q == s.q && Apply(s, Lock).handled == s.handled
  {
  }

  lemma VisitFrame(s: State)
    requires Shaped(s) && Enabled(s, Visit)
    ensures BrokerKeeps(s, Apply(s, Visit))
    ensures Apply(s, Visit).q == s.q
  {
  }

  lemma VisitHeaders(s: State)
    requires Shaped(s) && Enabled(s, Visit) && !Apply(s, Visit).broker.Putting?
    ensures HeadersKept(s, Apply(s, Visit))
  {
  }

  lemma PutFrame(s: State)
    requires Shaped(s) && Enabled(s, Put)
    ensures BrokerKeeps(s, Apply(s, Put))
    ensures HeadersKept(s, Apply(s, Put))
  {
  }

  lemma FinishFrame(s: State)
    requires Shaped(s) && Enabled(s, Finish)
    ensures BrokerKeeps(s, Apply(s, Finish))
    ensures Apply(s, Finish).q == s.q && Apply(s, Finish).handled == s.handled
  {
  }

  lemma BrokerFrame(s: State, step: Step)
    requires Shaped(s) && Enabled(s, step) && BrokerStep(step)
    ensures BrokerKeeps(s, Apply(s, step))
  {
    hide Apply, Enabled, BrokerKeeps;
    match step
    case Take => TakeFrame(s);
    case Lock => LockFrame(s);
    case Visit => VisitFrame(s);
    case Put => PutFrame(s);
    case Finish => FinishFrame(s);
  }

  // ----- a polling thread -----

  ghost predicate PollerKeeps(s: State, s': State) {
    && s'.subs == s.subs && s'.pub == s.pub && s'.broker == s.broker && s'.taken == s.taken
    && s'.direct == s.direct && s'.user == s.user && s'.sent == s.sent
    && s'.pool == s.pool && s'.free == s.free && s'.live == s.live && s'.next == s.next
  }

  /** A polling thread works on its own pc and log. */
  ghost predicate OwnOnly(s: State, s': State, i: nat)
    requires Shaped(s) && Shaped(s') && |s'.subs| == |s.subs|
  {
    forall k {:trigger s'.poll[k]} {:trigger s'.handled[k]} :: 0 <= k < |s.subs| && k != i ==>
      s'.poll[k] == s.poll[k] && s'.handled[k] == s.handled[k]
  }

  lemma PollGetFrame(s: State, i: nat)
    requires Shaped(s) && Enabled(s, PollGet(i))
    ensures PollerKeeps(s, Apply(s, PollGet(i))) && OwnOnly(s, Apply(s, PollGet(i)), i)
    ensures HeadersKept(s, Apply(s, PollGet(i)))
  {
  }

  lemma RelayLockFrame(s: State, i: nat)
    requires Shaped(s) && Enabled(s, RelayLock(i))
    ensures PollerKeeps(s, Apply(s, RelayLock(i))) && OwnOnly(s, Apply(s, RelayLock(i)), i)
    ensures !Apply(s, RelayLock(i)).poll[i].Relaying? ==> HeadersKept(s, Apply(s, RelayLock(i)))
    ensures Apply(s, RelayLock(i)).q == s.q
  {
  }

  lemma RelayPutFrame(s: State, i: nat)
    requires Shaped(s) && Enabled(s, RelayPut(i))
    ensures PollerKeeps(s, Apply(s, RelayPut(i))) && OwnOnly(s, Apply(s, RelayPut(i)), i)
    ensures HeadersKept(s, Apply(s, RelayPut(i)))
  {
  }

  lemma ReturnFrame(s: State, i: nat)
    requires Shaped(s) && Enabled(s, Return(i))
    ensures PollerKeeps(s, Apply(s, Return(i))) && OwnOnly(s, Apply(s, Return(i)), i)
    ensures Apply(s, Return(i)).q == s.q && Apply(s, Return(i)).handled == s.handled
  {
  }

  lemma PollerFrame(s: State, step: Step)
    requires Shaped(s) && Enabled(s, step) && PollerStep(step)
    ensures PollerKeeps(s, Apply(s, step)) && OwnOnly(s, Apply(s, step), step.i)
  {
    hide Apply, Enabled, PollerKeeps, OwnOnly;
    match step
    case PollGet(i) => PollGetFrame(s, i);
    case RelayLock(i) => RelayLockFrame(s, i);
    case RelayPut(i) => RelayPutFrame(s, i);
    case Return(i) => ReturnFrame(s, i);
  }

  // ----- the application, and giving back a block -----

  ghost predicate AppKeeps(s: State, s': State) {
    && s'.broker == s.broker && s'.mutex == s.mutex && s'.poll == s.poll && s'.taken == s.taken
    && s'.pool == s.pool
  }

  ghost predicate BlocksKept(s: State, s': State) {
    s'.free == s.free && s'.live == s.live && s'.next == s.next
  }

  ghost predicate QueuesKept(s: State, s': State) {
    && s'.pub == s.pub && s'.q == s.q && s'.handled == s.handled && s'.sent == s.sent
    && s'.direct == s.direct
  }

  ghost predicate SubsKept(s: State, s': State) {
    && |s'.subs| == |s.subs|
    && (forall k {:trigger s'.subs[k]} :: 0 <= k < |s.subs| ==>
          && s'.subs[k].maxPub == s.subs[k].maxPub && s'.subs[k].rxType == s.subs[k].rxType
          && s'.subs[k].capacity == s.subs[k].capacity)
  }

  lemma NewFrame(s: State, id: nat, block: Block)
    requires Shaped(s) && Enabled(s, New(id, block))
    ensures var s' := Apply(s, New(id, block));
            AppKeeps(s, s') && QueuesKept(s, s') && s'.subs == s.subs
  {
  }

  lemma AcquireFrame(s: State, m: Msg, holder: Holder)
    requires Shaped(s) && Enabled(s, Acquire(m, holder))
    ensures var s' := Apply(s, Acquire(m, holder));
            AppKeeps(s, s') && QueuesKept(s, s') && s'.subs == s.subs
    ensures BlocksKept(s, Apply(s, Acquire(m, holder)))
  {
  }

  lemma ReleaseFrame(s: State, m: Msg)
    requires Shaped(s) && Enabled(s, Release(m))
    ensures var s' := Apply(s, Release(m));
            AppKeeps(s, s') && QueuesKept(s, s') && s'.subs == s.subs
    ensures BlocksKept(s, Apply(s, Release(m)))
  {
  }

  lemma FreeFrame(s: State, m: Msg)
    requires Shaped(s) && Enabled(s, Free(m))
    ensures var s' := Apply(s, Free(m));
            AppKeeps(s, s') && QueuesKept(s, s') && s'.subs == s.subs
  {
  }

  lemma SubscribeFrame(s: State, i: nat, id: nat)
    requires Shaped(s) && Enabled(s, Subscribe(i, id))
    ensures var s' := Apply(s, Subscribe(i, id));
            AppKeeps(s, s') && QueuesKept(s, s') && SubsKept(s, s')
    ensures HeadersKept(s, Apply(s, Subscribe(i, id)))
    ensures BlocksKept(s, Apply(s, Subscribe(i, id)))
  {
  }

  lemma UnsubscribeFrame(s: State, i: nat, id: nat)
    requires Shaped(s) && Enabled(s, Unsubscribe(i, id))
    ensures var s' := Apply(s, Unsubscribe(i, id));
            AppKeeps(s, s') && QueuesKept(s, s') && SubsKept(s, s')
    ensures HeadersKept(s, Apply(s, Unsubscribe(i, id)))
    ensures BlocksKept(s, Apply(s, Unsubscribe(i, id)))
  {
  }

  lemma PublishFrame(s: State, m: Msg)
    requires Shaped(s) && Enabled(s, Publish(m))
    ensures var s' := Apply(s, Publish(m));
            AppKeeps(s, s') && s'.subs == s.subs && s'.q == s.q && s'.handled == s.handled && s'.direct == s.direct
    ensures HeadersKept(s, Apply(s, Publish(m)))
    ensures BlocksKept(s, Apply(s, Publish(m)))
  {
  }

  lemma PublishDirectFrame(s: State, i: nat, m: Msg)
    requires Shaped(s) && Enabled(s, PublishDirect(i, m))
    ensures var s' := Apply(s, PublishDirect(i, m));
            AppKeeps(s, s') && s'.subs == s.subs && s'.pub == s.pub
    ensures s.subs[i].rxType != Callback ==> HeadersKept(s, Apply(s, PublishDirect(i, m)))
    ensures BlocksKept(s, Apply(s, PublishDirect(i, m)))
  {
  }

  lemma AppFrame(s: State, step: Step)
    requires Shaped(s) && Enabled(s, step) && !BrokerStep(step) && !PollerStep(step)
    ensures var s' := Apply(s, step);
            && AppKeeps(s, s') && SubsKept(s, s')
            && (!step.Publish? && !step.PublishDirect? ==> QueuesKept(s, s'))
            && (!step.Subscribe? && !step.Unsubscribe? ==> s'.subs == s.subs)
            && (!step.New? && !step.Free? ==> BlocksKept(s, s'))
  {
    hide Apply, Enabled, AppKeeps, QueuesKept, BlocksKept;
    match step
    case New(id, block) => NewFrame(s, id, block);
    case Acquire(m, holder) => AcquireFrame(s, m, holder);
    case Release(m) => ReleaseFrame(s, m);
    case Free(m) => FreeFrame(s, m);
    case Subscribe(i, id) => SubscribeFrame(s, i, id);
    case Unsubscribe(i, id) => UnsubscribeFrame(s, i, id);
    case Publish(m) => PublishFrame(s, m);
    case PublishDirect(i, m) => PublishDirectFrame(s, i, m);
    case _ =>
  }

  // ----- queues -----

  ghost predicate OtherQueuesKept(s: State, s': State, i: nat)
    requires Shaped(s) && Shaped(s') && |s'.subs| == |s.subs|
  {
    forall k {:trigger s'.q[k]} :: 0 <= k < |s.subs| && k != i ==> s'.q[k] == s.q[k]
  }

  lemma PutQueue(s: State)
    requires Shaped(s) && Enabled(s, Put)
    ensures var s', i := Apply(s, Put), s.broker.pos;
            && OtherQueuesKept(s, s', i) && s'.q[i] == s.q[i] + [s.broker.m] && s'.handled == s.handled
  {
  }

  lemma PollGetQueue(s: State, i: nat)
    requires Shaped(s) && Enabled(s, PollGet(i))
    ensures var s' := Apply(s, PollGet(i)); OtherQueuesKept(s, s', i) && s'.q[i] == s.q[i][1..]
  {
  }

  lemma RelayPutQueue(s: State, i: nat)
    requires Shaped(s) && Enabled(s, RelayPut(i))
    ensures var s', next := Apply(s, RelayPut(i)), s.poll[i].next;
            OtherQueuesKept(s, s', next) && s'.q[next] == s.q[next] + [s.poll[i].m]
  {
  }

  lemma PublishDirectQueue(s: State, i: nat, m: Msg)
    requires Shaped(s) && Enabled(s, PublishDirect(i, m))
    ensures var s' := Apply(s, PublishDirect(i, m));
            && OtherQueuesKept(s, s', i)
            && s'.q[i] == if s.subs[i].rxType == Callback then s.q[i] else s.q[i] + [m]
  {
  }

  // ----- publishing -----

  lemma PublishSent(s: State, m: Msg)
    requires Shaped(s) && Enabled(s, Publish(m))
    ensures var s' := Apply(s, Publish(m));
            m !in s.sent && s'.sent == s.sent[m := ToBroker] && s'.pub == s.pub + [m]
  {
  }

  /** The publisher gives up a reference. */
  lemma PublishUser(s: State, m: Msg)
    requires Shaped(s) && Enabled(s, Publish(m))
    ensures m in s.user && Apply(s, Publish(m)).user == s.user - multiset{m}
  {
  }

  lemma PublishDirectSent(s: State, i: nat, m: Msg)
    requires Shaped(s) && Enabled(s, PublishDirect(i, m))
    ensures var s' := Apply(s, PublishDirect(i, m));
            && m !in s.sent && s'.sent == s.sent[m := Direct(i)]
            && s'.direct == s.direct[i := s.direct[i] + [m]]
  {
  }

  // ----- handler calls by the broker and by publishers -----

  lemma VisitHandled(s: State, k: nat)
    requires Shaped(s) && Enabled(s, Visit) && k < |s.subs|
    ensures Apply(s, Visit).handled[k] ==
              if VisitTakes(s) && s.subs[s.broker.pos].rxType == Callback && k == s.broker.pos
              then s.handled[k] + [s.broker.m] else s.handled[k]
  {
  }

  lemma PublishDirectHandled(s: State, i: nat, m: Msg, k: nat)
    requires Shaped(s) && Enabled(s, PublishDirect(i, m)) && k < |s.subs|
    ensures Apply(s, PublishDirect(i, m)).handled[k] ==
              if s.subs[i].rxType == Callback && k == i then s.handled[k] + [m] else s.handled[k]
  {
  }

  // ----- where the threads go -----

  ghost predicate PubKept(s: State, s': State) {
    s'.pub == s.pub && s'.taken == s.taken
  }

  lemma TakePc(s: State)
    requires Shaped(s) && Enabled(s, Take)
    ensures var s' := Apply(s, Take);
            && s'.broker == Taken(s.pub[0]) && s'.mutex == s.mutex
            && s'.pub == s.pub[1..] && s'.taken == s.taken + [s.pub[0]]
  {
  }

  lemma LockPc(s: State)
    requires Shaped(s) && Enabled(s, Lock)
    ensures var s' := Apply(s, Lock);
            s'.broker == Visiting(s.broker.m, 0) && s'.mutex == ByBroker && PubKept(s, s')
  {
  }

  /** Does the turn of the loop at list position pos acquire a reference, or call a callback? */
  ghost predicate VisitTakes(s: State)
    requires Shaped(s) && s.broker.Visiting?
  {
    s.broker.pos < |s.subs| && s.subs[s.broker.pos].Wants(HdrOf(s, s.broker.m).id)
  }

  lemma VisitPc(s: State)
    requires Shaped(s) && Enabled(s, Visit)
    ensures var s', m, pos := Apply(s, Visit), s.broker.m, s.broker.pos;
            && PubKept(s, s')
            && (if pos >= |s.subs| then s'.broker == Unlocked(m) && s'.mutex == Unowned
                else && s'.mutex == s.mutex
                     && s'.broker == if VisitTakes(s) && s.subs[pos].rxType != Callback then Putting(m, pos)
                                     else Visiting(m, pos + 1))
  {
  }

  lemma PutPc(s: State)
    requires Shaped(s) && Enabled(s, Put)
    ensures var s', m, pos := Apply(s, Put), s.broker.m, s.broker.pos;
            && PubKept(s, s')
            && (if s.subs[pos].rxType == Fifo then s'.broker == Unlocked(m) && s'.mutex == Unowned
                else s'.broker == Visiting(m, pos + 1) && s'.mutex == s.mutex)
  {
  }

  lemma FinishPc(s: State)
    requires Shaped(s) && Enabled(s, Finish)
    ensures var s' := Apply(s, Finish); s'.broker == Idle && s'.mutex == s.mutex && PubKept(s, s')
  {
  }

  lemma PollGetPc(s: State, i: nat)
    requires Shaped(s) && Enabled(s, PollGet(i))
    ensures var s', m := Apply(s, PollGet(i)), s.q[i][0];
            && s'.mutex == s.mutex
            && (if s.subs[i].rxType == Fifo && HdrOf(s, m).id <= s.subs[i].maxPub then
                  s'.poll[i] == Got(m) && s'.handled[i] == s.handled[i]
                else s'.poll[i] == Handling(m) && s'.handled[i] == s.handled[i] + [m])
  {
  }

  lemma RelayLockPc(s: State, i: nat)
    requires Shaped(s) && Enabled(s, RelayLock(i))
    ensures var s', m := Apply(s, RelayLock(i)), s.poll[i].m;
            var next := NextWanting(s.subs, i + 1, HdrOf(s, m).id);
            if next < |s.subs| then
              s'.poll[i] == Relaying(m, next) && s'.mutex == ByPoller(i) && s'.handled[i] == s.handled[i]
            else s'.poll[i] == Handling(m) && s'.mutex == s.mutex && s'.handled[i] == s.handled[i] + [m]
  {
  }

  lemma RelayPutPc(s: State, i: nat)
    requires Shaped(s) && Enabled(s, RelayPut(i))
    ensures var s', m := Apply(s, RelayPut(i)), s.poll[i].m;
            s'.poll[i] == Handling(m) && s'.mutex == Unowned && s'.handled[i] == s.handled[i] + [m]
  {
  }

  lemma ReturnPc(s: State, i: nat)
    requires Shaped(s) && Enabled(s, Return(i))
    ensures var s' := Apply(s, Return(i)); s'.poll[i] == Ready && s'.mutex == s.mutex
  {
  }

  // ----- any step -----

  lemma SubsFrame(s: State, step: Step)
    requires Shaped(s) && Enabled(s, step)
    ensures SubsKept(s, Apply(s, step))
    ensures !step.Subscribe? && !step.Unsubscribe? ==> Apply(s, step).subs == s.subs
  {
    hide Apply, Enabled;
    if BrokerStep(step) {
      BrokerFrame(s, step);
    } else if PollerStep(step) {
      PollerFrame(s, step);
    } else {
      AppFrame(s, step);
    }
  }

  lemma OthersLeaveBroker(s: State, step: Step)
    requires Shaped(s) && Enabled(s, step) && !BrokerStep(step)
    ensures Apply(s, step).broker == s.broker && Apply(s, step).taken == s.taken
  {
    hide Apply, Enabled;
    if PollerStep(step) { PollerFrame(s, step); } else { AppFrame(s, step); }
  }

  lemma PoolSame(s: State, step: Step)
    requires Shaped(s) && Enabled(s, step)
    ensures Apply(s, step).pool == s.pool
  {
    hide Apply, Enabled;
    if BrokerStep(step) {
      BrokerFrame(s, step);
    } else if PollerStep(step) {
      PollerFrame(s, step);
    } else {
      AppFrame(s, step);
    }
  }
}
