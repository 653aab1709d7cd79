/** The 8-bit reference count is wide enough: how many owners a message can have at once. */
module CountBound {
  import opened Types
  import opened Protocol
  import opened RefCount
  import opened RefSafety
  import opened Logs
  import opened Delivery
  import opened Transit
  import opened OnTheWay

  const UINT8_MAX := 255

  ghost function Caps(subs: seq<Sub>): (r: seq<nat>)
    ensures |r| == |subs|
  {
    seq(|subs|, i requires 0 <= i < |subs| => if subs[i].rxType == Callback then 0 else 1)
  }

  /** The number of msgq and fifo subscribers. */
  ghost function QueueSubs(subs: seq<Sub>): nat {
    Sum(Caps(subs))
  }

  lemma {:induction false} SumMono(a: seq<nat>, b: seq<nat>)
    requires |a| == |b| && forall i :: 0 <= i < |a| ==> a[i] <= b[i]
    ensures Sum(a) <= Sum(b)
  {
    if a != [] { SumMono(a[..|a| - 1], b[..|b| - 1]); }
  }

  ghost predicate RelaysIt(s: State, i: nat, m: Msg)
    requires Shaped(s) && i < |s.subs|
  {
    s.poll[i].Relaying? && s.poll[i].m == m
  }

  lemma ShareBound(s: State, i: nat, m: Msg)
    requires TransitInv(s) && i < |s.subs|
    ensures Shares(s, m)[i] <= Caps(s.subs)[i] + if RelaysIt(s, i, m) then 1 else 0
    ensures Count(Arrived(s, i), m) == 0 ==> Shares(s, m)[i] == 0
  {
    assert PollInv(s, i) && HandlingInv(s, i);
    AtMostOnce(s, i, m);
    ArrivedParts(s, i, m);
    CountIn(s.handled[i], m);
    CountIn(Pre(s.poll[i]), m);
  }

  /** The broker acquires for a subscriber that has not had the message. */
  lemma PutTargetEmpty(s: State)
    requires TransitInv(s) && s.broker.Putting?
    ensures Count(Arrived(s, s.broker.pos), s.broker.m) == 0
  {
    assert MsgTransit(s, s.broker.m);
    assert Times(s, s.broker.pos, s.broker.m) == 0;
  }

  /** Only a public message is relayed, further down the list, to a fifo subscriber for which it is
      public and that has not had it. */
  lemma RelayGoesForward(s: State, i: nat)
    requires TransitInv(s) && i < |s.subs| && s.poll[i].Relaying?
    ensures var m, next := s.poll[i].m, s.poll[i].next;
            && m.id <= s.subs[i].maxPub && i < next < |s.subs|
            && s.subs[next].rxType.Fifo? && m.id <= s.subs[next].maxPub
            && Count(Arrived(s, next), m) == 0
  {
    var m, next := s.poll[i].m, s.poll[i].next;
    assert PollInv(s, i) && RelayPublic(s, i) && MsgTransit(s, m) && CarrierFront(s, i, m);
    assert Carries(s, i, m);
    assert Times(s, next, m) == 0;
  }

  /** The broker's own side: in its fifo or in its hands, never both. */
  lemma BrokerSideBound(s: State, m: Msg)
    requires TransitInv(s)
    ensures Count(s.pub, m) + BrokerRefs(s.broker, m)
         <= if s.broker.Putting? && s.broker.m == m then 2 else 1
  {
    assert MsgTransit(s, m);
    CountConcat(s.taken, s.pub, m);
    if !s.broker.Idle? { CountIn(s.taken, s.broker.m); }
  }

  /** Room for a reference at every queueing subscriber that m has reached or is being put to. */
  ghost predicate RoomFor(s: State, m: Msg, caps: seq<nat>)
    requires Shaped(s)
  {
    && |caps| == |s.subs|
    && (forall i {:trigger caps[i]} :: 0 <= i < |caps| && (Times(s, i, m) > 0 || Addressed(s, i, m)) ==>
          caps[i] == Caps(s.subs)[i])
  }

  lemma RoomAt(s: State, m: Msg, caps: seq<nat>, i: nat)
    requires TransitInv(s) && RoomFor(s, m, caps) && i < |caps|
    ensures Shares(s, m)[i] <= caps[i] + if RelaysIt(s, i, m) then 1 else 0
  {
    ShareBound(s, i, m);
    assert Times(s, i, m) == Count(Arrived(s, i), m);
    hide TransitInv, Shares, Caps;
  }

  /** The references in queues and polling threads, while the broker holds one acquired for a put ... */
  lemma SharesWhilePutting(s: State, m: Msg, caps: seq<nat>)
    requires TransitInv(s) && RoomFor(s, m, caps) && s.broker.Putting? && s.broker.m == m
    ensures Sum(Shares(s, m)) + 1 <= Sum(caps)
  {
    var parts, r := Shares(s, m), s.broker.pos;
    PutTargetEmpty(s);
    ShareBound(s, r, m);
    assert Addressed(s, r, m);
    forall k | 0 <= k < |parts| ensures parts[k] <= caps[r := 0][k] {
      RoomAt(s, m, caps, k);
      assert PollInv(s, k);
    }
    SumMono(parts, caps[r := 0]);
    SumUpdate(caps, r, 0);
    hide Shares, Sum, TransitInv;
  }

  /** ... or a polling thread one acquired for a relay ... */
  lemma SharesWhileRelaying(s: State, m: Msg, i: nat, caps: seq<nat>)
    requires TransitInv(s) && RoomFor(s, m, caps) && s.mutex == ByPoller(i) && i < |s.subs| && RelaysIt(s, i, m)
    ensures Sum(Shares(s, m)) <= Sum(caps)
  {
    var parts, r := Shares(s, m), s.poll[i].next;
    assert PollInv(s, i);
    RelayGoesForward(s, i);
    RelayedIsHere(s, i, m);
    ShareBound(s, r, m);
    assert Addressed(s, r, m);
    var caps' := caps[i := 2];
    forall k | 0 <= k < |parts| ensures parts[k] <= caps'[r := 0][k] {
      RoomAt(s, m, caps, k);
      assert PollInv(s, k);
    }
    SumMono(parts, caps'[r := 0]);
    SumUpdate(caps', r, 0);
    SumUpdate(caps, i, 2);
    hide Shares, Sum, TransitInv;
  }

  /** ... or neither. */
  lemma SharesOtherwise(s: State, m: Msg, caps: seq<nat>)
    requires TransitInv(s) && RoomFor(s, m, caps)
    requires !(s.mutex.ByPoller? && s.mutex.i < |s.subs| && RelaysIt(s, s.mutex.i, m))
    ensures Sum(Shares(s, m)) <= Sum(caps)
  {
    var parts := Shares(s, m);
    forall k | 0 <= k < |parts| ensures parts[k] <= caps[k] {
      RoomAt(s, m, caps, k);
      assert PollInv(s, k);
    }
    SumMono(parts, caps);
  }

  lemma OwnersBoundBy(s: State, m: Msg, caps: seq<nat>)
    requires TransitInv(s) && RoomFor(s, m, caps)
    ensures Owners(s, m) <= s.user[m] + 1 + Sum(caps)
  {
    BrokerSideBound(s, m);
    if s.broker.Putting? && s.broker.m == m {
      SharesWhilePutting(s, m, caps);
    } else if s.mutex.ByPoller? && s.mutex.i < |s.subs| && RelaysIt(s, s.mutex.i, m) {
      SharesWhileRelaying(s, m, s.mutex.i, caps);
    } else {
      SharesOtherwise(s, m, caps);
    }
    hide TransitInv, Shares, Sum, RoomFor;
  }

  /** One reference on the broker's side and at most one for each queueing subscriber, on top of what
      the application holds. */
  lemma OwnersBound(s: State, m: Msg)
    requires TransitInv(s)
    ensures Owners(s, m) <= s.user[m] + 1 + QueueSubs(s.subs)
  {
    OwnersBoundBy(s, m, Caps(s.subs));
    hide TransitInv;
  }

  /** The assertions on the reference count: below the maximum when it is incremented, above zero
      when it is decremented. */
  ghost predicate CountAssertsHold(s: State, step: Step)
    requires Shaped(s) && Enabled(s, step)
  {
    Touched(s, step).Some? ==>
      var t := Touched(s, step).value;
      if Delta(s, step, t) > 0 then HdrOf(s, t).refCnt < UINT8_MAX else HdrOf(s, t).refCnt > 0
  }

  lemma QueueSubsSame(s: State, step: Step)
    requires Shaped(s) && Enabled(s, step)
    ensures QueueSubs(Apply(s, step).subs) == QueueSubs(s.subs)
  {
    forall k | 0 <= k < |s.subs| ensures Apply(s, step).subs[k].rxType == s.subs[k].rxType {
      MaxPubSame(s, step, k);
    }
    hide Apply;
    assert Caps(Apply(s, step).subs) == Caps(s.subs);
  }

  /** Neither the overflow nor the underflow assertion can fail while the references held by the
      application, and one for each queueing subscriber the message is at or being put to, together are
      within 254. */
  lemma CountStaysInRangeBy(s: State, step: Step, t: Msg, caps: seq<nat>)
    requires TransitInv(s) && Enabled(s, step) && Touched(s, step) == Some(t)
    requires RoomFor(Apply(s, step), t, caps) && Apply(s, step).user[t] + Sum(caps) <= UINT8_MAX - 1
    ensures CountAssertsHold(s, step)
  {
    TouchedIsOwned(s, step);
    assert MsgInv(s, t);
    StepKeepsTransitInv(s, step);
    OwnersOfStep(s, step, t);
    OwnersBoundBy(Apply(s, step), t, caps);
    hide Apply, Sum, RoomFor;
  }

  /** ... and so with the queueing subscribers there are. */
  lemma CountStaysInRange(s: State, step: Step)
    requires TransitInv(s) && Enabled(s, step)
    requires forall m :: Apply(s, step).user[m] + QueueSubs(s.subs) <= UINT8_MAX - 1
    ensures CountAssertsHold(s, step)
  {
    if Touched(s, step).Some? {
      QueueSubsSame(s, step);
      CountStaysInRangeBy(s, step, Touched(s, step).value, Caps(Apply(s, step).subs));
    }
  }
}
