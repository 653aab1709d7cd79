/** The publish/subscribe protocol as a transition system. Every atomic operation of the broker
    work item, of a subscriber's polling thread and of the application is one step, and the steps of
    different threads interleave freely. */
module Protocol {
  import opened Types

  type Block = nat

  /** A message allocation: `block` is the address the code passes around, `serial` tells apart
      successive allocations of the same block and `id` is the id given when it was allocated.
      The code itself only ever sees the header stored in the block. */
  datatype Msg = Msg(serial: nat, id: nat, block: Block)

  datatype Header = Header(id: nat, refCnt: int)

  /** Where the broker's work item is. */
  datatype BrokerPc =
    | Idle
    | Taken(m: Msg)                 // dequeued, waiting for the list mutex
    | Visiting(m: Msg, pos: nat)    // mutex held, about to look at list position pos
    | Putting(m: Msg, pos: nat)     // reference acquired for pos, (perhaps blocked) in the put
    | Unlocked(m: Msg)              // mutex released, about to release the message

  /** Where the polling thread of one subscriber is. */
  datatype PollPc =
    | Ready
    | Got(m: Msg)                   // public message dequeued from a fifo, not yet relayed
    | Relaying(m: Msg, next: nat)   // mutex held, reference acquired for list position next
    | Handling(m: Msg)              // the handler function is running

  datatype Mutex = Unowned | ByBroker | ByPoller(i: nat)

  /** How a message was published in its lifetime. */
  datatype Route = ToBroker | Direct(i: nat)

  datatype State = State(
    subs: seq<Sub>,                 // the broker's list, in list order
    pub: seq<Msg>,                  // the broker's publish fifo
    broker: BrokerPc,
    mutex: Mutex,
    q: seq<seq<Msg>>,               // the queue of each subscriber
    poll: seq<PollPc>,
    pool: set<Block>,
    free: set<Block>,               // the slab's free list
    hdr: map<Block, Header>,        // memory: the header of each block
    user: multiset<Msg>,            // references held by publishers and retained by handlers
    live: set<Msg>,                 // allocations not yet given back to the slab
    dying: set<Msg>,                // last reference dropped, free not yet called
    next: nat,                      // number of allocations so far
    sent: map<Msg, Route>,
    taken: seq<Msg>,                // messages the broker has dequeued, in order
    direct: seq<seq<Msg>>,          // messages published directly to each subscriber, in order
    handled: seq<seq<Msg>>)         // messages each subscriber's handler was called with, in order

  datatype Holder = AsUser | InCallback | InHandler(i: nat)

  datatype Step =
    // application
    | New(id: nat, block: Block)
    | Acquire(m: Msg, holder: Holder)
    | Release(m: Msg)
    | Publish(m: Msg)
    | PublishDirect(i: nat, m: Msg)
    | Subscribe(i: nat, id: nat)
    | Unsubscribe(i: nat, id: nat)
    // whichever thread dropped the last reference
    | Free(m: Msg)
    // broker work item
    | Take
    | Lock
    | Visit
    | Put
    | Finish
    // polling thread of subscriber i
    | PollGet(i: nat)
    | RelayLock(i: nat)
    | RelayPut(i: nat)
    | Return(i: nat)

  /** The steps of the broker's work item ... */
  predicate BrokerStep(step: Step) {
    step.Take? || step.Lock? || step.Visit? || step.Put? || step.Finish?
  }

  /** ... and those of a polling thread; all others are the application's, or free a block. */
  predicate PollerStep(step: Step) {
    step.PollGet? || step.RelayLock? || step.RelayPut? || step.Return?
  }

  function HdrOf(s: State, m: Msg): Header {
    if m.block in s.hdr then s.hdr[m.block] else Header(0, 0)
  }

  function IncRef(s: State, m: Msg): State {
    var h := HdrOf(s, m);
    s.(hdr := s.hdr[m.block := h.(refCnt := h.refCnt + 1)])
  }

  /** pub_sub_release_msg up to the call of the allocator's free function. */
  function DecRef(s: State, m: Msg): State {
    var h := HdrOf(s, m);
    s.(hdr := s.hdr[m.block := h.(refCnt := h.refCnt - 1)],
       dying := if h.refCnt == 1 then s.dying + {m} else s.dying)
  }

  function PutIn(s: State, i: nat, m: Msg): State
    requires i < |s.q|
  {
    s.(q := s.q[i := s.q[i] + [m]])
  }

  function Handle(s: State, i: nat, m: Msg): State
    requires i < |s.handled|
  {
    s.(handled := s.handled[i := s.handled[i] + [m]])
  }

  function WithPoll(s: State, i: nat, pc: PollPc): State
    requires i < |s.poll|
  {
    s.(poll := s.poll[i := pc])
  }

  predicate HasRoom(s: State, i: nat)
    requires i < |s.subs| == |s.q|
  {
    s.subs[i].rxType == Msgq ==> |s.q[i]| < s.subs[i].capacity
  }

  /** The first list position at or after `from` whose subscriber takes `id`, or |subs|. */
  function NextWanting(subs: seq<Sub>, from: nat, id: nat): (r: nat)
    requires from <= |subs|
    ensures from <= r <= |subs|
    ensures r < |subs| ==> subs[r].Wants(id)
    ensures forall k :: from <= k < r ==> !subs[k].Wants(id)
    decreases |subs| - from
  {
    if from == |subs| then from
    else if subs[from].Wants(id) then from
    else NextWanting(subs, from + 1, id)
  }

  /** Shape facts every state has. */
  ghost predicate Shaped(s: State) {
    |s.q| == |s.poll| == |s.handled| == |s.direct| == |s.subs|
  }

  ghost function TypesOf(subs: seq<Sub>): (r: seq<RxType>)
    ensures |r| == |subs| && forall i :: 0 <= i < |subs| ==> r[i] == subs[i].rxType
  {
    seq(|subs|, i requires 0 <= i < |subs| => subs[i].rxType)
  }

  ghost predicate Enabled(s: State, step: Step)
    requires Shaped(s)
  {
    var n := |s.subs|;
    match step
    case New(id, block) => id <= MAX_MSG_ID && block in s.free
    case Acquire(m, holder) =>
      (match holder
       case AsUser => m in s.user
       case InCallback => s.broker.Visiting? && s.broker.m == m
       case InHandler(i) => i < n && s.poll[i] == Handling(m))
    case Release(m) => m in s.user
    // A message is published once in its lifetime, by somebody who owns a reference to it.
    case Publish(m) => m in s.user && m !in s.sent
    case PublishDirect(i, m) =>
      i < n && m in s.user && m !in s.sent && HdrOf(s, m).id > s.subs[i].maxPub && HasRoom(s, i)
    case Subscribe(i, id) => i < n && id <= s.subs[i].maxPub
    case Unsubscribe(i, id) => i < n && id <= s.subs[i].maxPub
    case Free(m) => m in s.dying
    case Take => s.broker.Idle? && s.pub != []
    case Lock => s.broker.Taken? && s.mutex.Unowned?
    case Visit => s.broker.Visiting?
    case Put => s.broker.Putting? && s.broker.pos < n && HasRoom(s, s.broker.pos)
    case Finish => s.broker.Unlocked?
    case PollGet(i) => i < n && s.subs[i].rxType != Callback && s.poll[i].Ready? && s.q[i] != []
    case RelayLock(i) => i < n && s.poll[i].Got? && s.mutex.Unowned?
    case RelayPut(i) => i < n && s.poll[i].Relaying? && s.poll[i].next < n
    case Return(i) => i < n && s.poll[i].Handling?
  }

  ghost function Apply(s: State, step: Step): (s': State)
    requires Shaped(s) && Enabled(s, step)
    ensures Shaped(s') && |s'.subs| == |s.subs|
  {
    if BrokerStep(step) then ApplyBroker(s, step)
    else if PollerStep(step) then ApplyPoller(s, step)
    else ApplyApp(s, step)
  }

  ghost function ApplyApp(s: State, step: Step): (s': State)
    requires Shaped(s) && Enabled(s, step) && !BrokerStep(step) && !PollerStep(step)
    ensures Shaped(s') && |s'.subs| == |s.subs|
  {
    match step
    case New(id, block) =>
      var m := Msg(s.next, id, block);
      IncRef(s.(free := s.free - {block}, hdr := s.hdr[block := Header(id, 0)], next := s.next + 1,
                live := s.live + {m}, user := s.user + multiset{m}), m)
    case Acquire(m, _) => IncRef(s.(user := s.user + multiset{m}), m)
    case Release(m) => DecRef(s.(user := s.user - multiset{m}), m)
    case Publish(m) =>
      s.(user := s.user - multiset{m}, pub := s.pub + [m], sent := s.sent[m := ToBroker])
    case PublishDirect(i, m) =>
      var s' := s.(user := s.user - multiset{m}, sent := s.sent[m := Direct(i)],
                   direct := s.direct[i := s.direct[i] + [m]]);
      if s.subs[i].rxType == Callback then DecRef(Handle(s', i, m), m) else PutIn(s', i, m)
    case Subscribe(i, id) =>
      s.(subs := s.subs[i := s.subs[i].(subscribed := s.subs[i].subscribed + {id})])
    case Unsubscribe(i, id) =>
      s.(subs := s.subs[i := s.subs[i].(subscribed := s.subs[i].subscribed - {id})])
    case Free(m) =>
      s.(free := s.free + {m.block}, live := s.live - {m}, dying := s.dying - {m})
  }

  ghost function ApplyBroker(s: State, step: Step): (s': State)
    requires Shaped(s) && Enabled(s, step) && BrokerStep(step)
    ensures Shaped(s') && |s'.subs| == |s.subs|
  {
    match step
    case Take =>
      s.(pub := s.pub[1..], taken := s.taken + [s.pub[0]], broker := Taken(s.pub[0]))
    case Lock => s.(broker := Visiting(s.broker.m, 0), mutex := ByBroker)
    case Visit => ApplyVisit(s)
    case Put => ApplyPut(s)
    case Finish => DecRef(s.(broker := Idle), s.broker.m)
  }

  ghost function ApplyPoller(s: State, step: Step): (s': State)
    requires Shaped(s) && Enabled(s, step) && PollerStep(step)
    ensures Shaped(s') && |s'.subs| == |s.subs|
  {
    match step
    case PollGet(i) => ApplyPollGet(s, i)
    case RelayLock(i) => ApplyRelayLock(s, i)
    case RelayPut(i) =>
      var m := s.poll[i].m;
      WithPoll(Handle(PutIn(s, s.poll[i].next, m), i, m), i, Handling(m)).(mutex := Unowned)
    case Return(i) => DecRef(WithPoll(s, i, Ready), s.poll[i].m)
  }

  /** One turn of the loop in process_msg, up to the put. */
  ghost function ApplyVisit(s: State): State
    requires Shaped(s) && s.broker.Visiting?
  {
    var m, pos := s.broker.m, s.broker.pos;
    if pos >= |s.subs| then s.(broker := Unlocked(m), mutex := Unowned)
    else if !s.subs[pos].Wants(HdrOf(s, m).id) then s.(broker := Visiting(m, pos + 1))
    else if s.subs[pos].rxType == Callback then Handle(s, pos, m).(broker := Visiting(m, pos + 1))
    else IncRef(s.(broker := Putting(m, pos)), m)
  }

  /** The put into the queue of a msgq or fifo subscriber; a fifo ends the loop. */
  ghost function ApplyPut(s: State): State
    requires Shaped(s) && s.broker.Putting? && s.broker.pos < |s.subs|
  {
    var m, pos := s.broker.m, s.broker.pos;
    if s.subs[pos].rxType == Fifo then
      PutIn(s, pos, m).(broker := Unlocked(m), mutex := Unowned)
    else
      PutIn(s, pos, m).(broker := Visiting(m, pos + 1))
  }

  /** pub_sub_handle_queued_msg up to the relay (public message on a fifo) or the handler call. */
  ghost function ApplyPollGet(s: State, i: nat): State
    requires Shaped(s) && i < |s.subs| && s.q[i] != []
  {
    var m := s.q[i][0];
    var s' := s.(q := s.q[i := s.q[i][1..]]);
    if s.subs[i].rxType == Fifo && HdrOf(s, m).id <= s.subs[i].maxPub then WithPoll(s', i, Got(m))
    else WithPoll(Handle(s', i, m), i, Handling(m))
  }

  /** send_to_next_fifo_subscriber up to the put; with nobody to relay to, the handler is called. */
  ghost function ApplyRelayLock(s: State, i: nat): State
    requires Shaped(s) && i < |s.subs| && s.poll[i].Got?
  {
    var m := s.poll[i].m;
    var next := NextWanting(s.subs, i + 1, HdrOf(s, m).id);
    if next < |s.subs| then IncRef(WithPoll(s, i, Relaying(m, next)).(mutex := ByPoller(i)), m)
    else WithPoll(Handle(s, i, m), i, Handling(m))
  }

  // ----- runs -----

  /** What is asked of a list: in type order, 16-bit ids, and no msgq of length zero. */
  ghost predicate ValidSubs(subs: seq<Sub>) {
    && TypeOrdered(TypesOf(subs))
    && (forall i :: 0 <= i < |subs| ==> subs[i].maxPub <= MAX_MSG_ID)
    && (forall i :: 0 <= i < |subs| && subs[i].rxType == Msgq ==> subs[i].capacity >= 1)
  }

  ghost function Init(subs: seq<Sub>, pool: set<Block>): (s: State)
    requires ValidSubs(subs)
    ensures Shaped(s)
  {
    var n := |subs|;
    State(subs, [], Idle, Unowned, seq(n, _ => []), seq(n, _ => Ready), pool, pool, map[],
          multiset{}, {}, {}, 0, map[], [], seq(n, _ => []), seq(n, _ => []))
  }

  /** `steps` can be taken one after the other from `s`. */
  ghost predicate IsRun(s: State, steps: seq<Step>)
    requires Shaped(s)
    decreases |steps|
  {
    steps == [] ||
    (Enabled(s, steps[0]) && IsRun(Apply(s, steps[0]), steps[1..]))
  }

  ghost function Exec(s: State, steps: seq<Step>): (r: State)
    requires Shaped(s) && IsRun(s, steps)
    ensures Shaped(r)
    decreases |steps|
  {
    if steps == [] then s else Exec(Apply(s, steps[0]), steps[1..])
  }

  lemma {:induction false} RunConcat(s: State, a: seq<Step>, b: seq<Step>)
    requires Shaped(s) && IsRun(s, a) && IsRun(Exec(s, a), b)
    ensures IsRun(s, a + b) && Exec(s, a + b) == Exec(Exec(s, a), b)
    decreases |a|
  {
    hide Apply, Enabled;
    if a == [] {
      assert a + b == b;
    } else {
      assert (a + b)[1..] == a[1..] + b;
      RunConcat(Apply(s, a[0]), a[1..], b);
    }
  }

  lemma RunOne(s: State, step: Step)
    requires Shaped(s) && Enabled(s, step)
    ensures IsRun(s, [step]) && Exec(s, [step]) == Apply(s, step)
  {
    assert IsRun(Apply(s, step), []);
    assert Exec(Apply(s, step), []) == Apply(s, step);
    assert [step][1..] == [];
  }
}
