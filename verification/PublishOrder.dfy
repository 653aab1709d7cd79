/** "Messages are received by subscribers in the order published": exactly when that is so, for the
    messages published through the broker and for all messages. */
module PublishOrder {
  import opened Types
  import opened Protocol
  import opened Frames
  import opened RefCount
  import opened RefSafety
  import opened Logs
  import opened Order
  import opened Delivery
  import opened Lifetime
  import opened Transit
  import opened OnTheWay
  import opened Completion
  import opened Drain

  /** Subscriber i has handled a prefix of its public messages, in publish order. */
  ghost predicate InOrder(s: State, i: nat)
    requires Shaped(s) && i < |s.subs|
  {
    Sel(s.subs[i].Wanted(), s.handled[i]) <= Sel(s.subs[i].Wanted(), Published(s))
  }

  /** ... and so it is in every state of every run with these subscribers. */
  ghost predicate AlwaysInOrder(subs: seq<Sub>, pool: set<Block>, i: nat)
    requires ValidSubs(subs) && i < |subs|
  {
    forall steps {:trigger IsRun(Init(subs, pool), steps)} ::
      IsRun(Init(subs, pool), steps) && FixedSubscriptions(steps) ==>
        var s := Exec(Init(subs, pool), steps);
        |s.subs| == |subs| && InOrder(s, i)
  }

  lemma InOrderWhenUniform(subs: seq<Sub>, pool: set<Block>, i: nat)
    requires ValidSubs(subs) && i < |subs|
    requires subs[i].rxType == Fifo ==> Uniform(subs, i, subs[i].Wanted())
    ensures AlwaysInOrder(subs, pool, i)
  {
    InitDeliveryInv(subs, pool);
    forall steps | IsRun(Init(subs, pool), steps) && FixedSubscriptions(steps)
      ensures var s := Exec(Init(subs, pool), steps); |s.subs| == |subs| && InOrder(s, i)
    {
      RunKeepsDeliveryInv(Init(subs, pool), steps);
      var s := Exec(Init(subs, pool), steps);
      if subs[i].rxType == Fifo {
        FifoOrder(s, i, subs[i].Wanted());
      } else {
        BrokerFedOrder(s, i);
      }
    }
  }

  // ----- overtaking -----

  /** The application allocates a message and publishes it. */
  lemma PublishNew(s: State, id: nat, block: Block) returns (steps: seq<Step>)
    requires DeliveryInv(s) && id <= MAX_MSG_ID && block in s.free
    requires Msg(s.next, id, block) !in s.sent
    ensures IsRun(s, steps) && FixedSubscriptions(steps)
    ensures steps == [New(id, block), Publish(Msg(s.next, id, block))]
    ensures var s', m := Exec(s, steps), Msg(s.next, id, block);
            && s'.next == s.next + 1 && s'.free == s.free - {block} && s'.subs == s.subs
            && s'.pub == s.pub + [m] && s'.taken == s.taken && s'.sent == s.sent[m := ToBroker]
            && s'.poll == s.poll && s'.handled == s.handled && s'.q == s.q
  {
    var m := Msg(s.next, id, block);
    var s1 := Apply(s, New(id, block));
    RunOne(s, New(id, block));
    RunOne(s1, Publish(m));
    RunConcat(s, [New(id, block)], [Publish(m)]);
    steps := [New(id, block)] + [Publish(m)];
  }

  /** Two messages of ids x and y are published and the thread of fifo subscriber k is held up. */
  lemma TwoPublished(subs: seq<Sub>, pool: set<Block>, x: nat, y: nat, b: Block, c: Block)
    returns (steps: seq<Step>)
    requires ValidSubs(subs) && x <= MAX_MSG_ID && y <= MAX_MSG_ID && b in pool && c in pool && b != c
    ensures IsRun(Init(subs, pool), steps) && FixedSubscriptions(steps)
    ensures var s := Exec(Init(subs, pool), steps);
            && s.subs == subs && Published(s) == [Msg(0, x, b), Msg(1, y, c)]
            && SentBroker(s, Msg(0, x, b)) && SentBroker(s, Msg(1, y, c))
            && (forall k :: 0 <= k < |subs| ==> s.poll[k].Ready? && s.handled[k] == [])
  {
    hide Apply, Enabled, ValidSubs;
    var s0 := Init(subs, pool);
    InitDeliveryInv(subs, pool);
    var first := PublishNew(s0, x, b);
    RunKeepsDeliveryInv(s0, first);
    var second := PublishNew(Exec(s0, first), y, c);
    RunConcat(s0, first, second);
    steps := first + second;
  }

  lemma OvertakenState(s: State, i: nat, k: nat, mx: Msg, my: Msg)
    requires DeliveryInv(s) && Quiet(s, {k}) && k < i < |s.subs|
    requires s.subs[i].rxType == Fifo && s.subs[k].rxType == Fifo && s.handled[k] == []
    requires s.subs[i].Wants(mx.id) && s.subs[i].Wants(my.id)
    requires s.subs[k].Wants(mx.id) && !s.subs[k].Wants(my.id)
    requires Published(s) == [mx, my]
    ensures my in s.handled[i] && mx !in s.handled[i] && !InOrder(s, i)
  {
    var ids := s.subs[i].Wanted();
    assert Arrived(s, i) == s.handled[i];
    FifoComplete(s, i, my.id);
    SelIn({my.id}, Published(s), my);
    SelIn({my.id}, Arrived(s, i), my);
    FifoBehind(s, k, i, mx.id);
    SelIn({mx.id}, Arrived(s, i), mx);
    SelIn(ids, s.handled[i], mx);
    SelIn(ids, s.handled[i], my);
    assert Published(s) == [mx] + [my];
    SelAppend(ids, [mx], my);
    SelAppend(ids, [], mx);
    assert Sel(ids, Published(s)) == [mx, my];
  }

  /** An earlier fifo subscriber that takes x but not y can be overtaken: a run in which y, published
      after x, is handled by i while x is still queued at k. */
  lemma Overtaking(subs: seq<Sub>, pool: set<Block>, i: nat, k: nat, x: nat, y: nat)
    returns (steps: seq<Step>)
    requires ValidSubs(subs) && |pool| >= 2 && k < i < |subs|
    requires subs[i].rxType == Fifo && subs[k].rxType == Fifo
    requires subs[i].Wants(x) && subs[i].Wants(y) && subs[k].Wants(x) && !subs[k].Wants(y)
    ensures IsRun(Init(subs, pool), steps) && FixedSubscriptions(steps)
    ensures var s := Exec(Init(subs, pool), steps); |s.subs| == |subs| && !InOrder(s, i)
  {
    hide Apply, Enabled, InOrder;
    assert x <= MAX_MSG_ID && y <= MAX_MSG_ID;
    hide ValidSubs, Init;
    var b :| b in pool;
    assert |pool - {b}| >= 1;
    var c :| c in pool - {b};
    var s0 := Init(subs, pool);
    InitDeliveryInv(subs, pool);
    var before := TwoPublished(subs, pool, x, y, b, c);
    RunKeepsDeliveryInv(s0, before);
    var s1 := Exec(s0, before);
    var after := DrainAll(s1, {k});
    forall j | 0 <= j < |after| ensures !Resubscribes(after[j]) { assert Drains(after[j], {k}); }
    RunKeepsDeliveryInv(s1, after);
    RunConcat(s0, before, after);
    steps := before + after;
    OvertakenState(Exec(s1, after), i, k, Msg(0, x, b), Msg(1, y, c));
  }

  // ----- all messages, public and private -----

  /** The messages a run publishes for subscriber i, through the broker or directly, in publish order. */
  function MeantFor(subs: seq<Sub>, steps: seq<Step>, i: nat): seq<Msg>
    requires i < |subs|
  {
    if steps == [] then [] else MeantBy(subs, steps[0], i) + MeantFor(subs, steps[1..], i)
  }

  function MeantBy(subs: seq<Sub>, step: Step, i: nat): seq<Msg>
    requires i < |subs|
  {
    match step
    case Publish(m) => if subs[i].Wants(m.id) then [m] else []
    case PublishDirect(k, m) => if k == i then [m] else []
    case _ => []
  }

  /** In every run subscriber i handles a prefix of all that is meant for it, in publish order. */
  ghost predicate AllInOrder(subs: seq<Sub>, pool: set<Block>, i: nat)
    requires ValidSubs(subs) && i < |subs|
  {
    forall steps {:trigger IsRun(Init(subs, pool), steps)} ::
      IsRun(Init(subs, pool), steps) && FixedSubscriptions(steps) ==>
        var s := Exec(Init(subs, pool), steps);
        |s.handled| == |subs| && s.handled[i] <= MeantFor(subs, steps, i)
  }

  lemma StepPublishes(s: State, step: Step, i: nat)
    requires DeliveryInv(s) && Enabled(s, step) && !Resubscribes(step) && i < |s.subs|
    ensures var here := MeantBy(s.subs, step, i);
            var w, p := s.subs[i].Wanted(), PrivateIds(s.subs[i]);
            && Sel(w, Published(Apply(s, step))) == Sel(w, Published(s)) + Sel(w, here)
            && Apply(s, step).direct[i] == s.direct[i] + Sel(p, here)
  {
    if step.Publish? {
      PublishesToBroker(s, step.m, i);
    } else if step.PublishDirect? {
      PublishesDirectly(s, step.i, step.m, i);
    } else {
      PublishedSame(s, step);
      DirectKept(s, step);
      hide Apply, Enabled, DeliveryInv;
    }
  }

  lemma PublishesToBroker(s: State, m: Msg, i: nat)
    requires Shaped(s) && Enabled(s, Publish(m)) && i < |s.subs|
    requires DeliveryInv(s)
    ensures var here := MeantBy(s.subs, Publish(m), i);
            var w, p := s.subs[i].Wanted(), PrivateIds(s.subs[i]);
            && Sel(w, Published(Apply(s, Publish(m)))) == Sel(w, Published(s)) + Sel(w, here)
            && Apply(s, Publish(m)).direct[i] == s.direct[i] + Sel(p, here)
  {
    hide Apply, Enabled, DeliveryInv, Published, Sel, PrivateIds;
    PublishSends(s, m);
    SelAppend(s.subs[i].Wanted(), Published(s), m);
    SelOfMeant(s.subs[i], m);
  }

  /** What goes through the broker to a subscriber is public for it. */
  lemma SelOfMeant(sub: Sub, m: Msg)
    ensures var here := if sub.Wants(m.id) then [m] else [];
            Sel(sub.Wanted(), here) == (if m.id in sub.Wanted() then [m] else []) && Sel(PrivateIds(sub), here) == []
  {
    if sub.Wants(m.id) {
      SelOne(sub.Wanted(), m);
      SelOne(PrivateIds(sub), m);
      assert m.id in PrivateIds(sub) ==> IsPrivate(sub, m.id);
    }
  }

  lemma SelOne(want: set<nat>, m: Msg)
    ensures Sel(want, [m]) == if m.id in want then [m] else []
  {
    assert [] + [m] == [m];
    SelAppend(want, [], m);
  }

  lemma PublishesDirectly(s: State, k: nat, m: Msg, i: nat)
    requires DeliveryInv(s) && Enabled(s, PublishDirect(k, m)) && i < |s.subs|
    ensures var here := MeantBy(s.subs, PublishDirect(k, m), i);
            var w, p := s.subs[i].Wanted(), PrivateIds(s.subs[i]);
            && Sel(w, Published(Apply(s, PublishDirect(k, m)))) == Sel(w, Published(s)) + Sel(w, here)
            && Apply(s, PublishDirect(k, m)).direct[i] == s.direct[i] + Sel(p, here)
  {
    PublishDirectSends(s, k, m);
    DirectIsPrivate(s, k, m);
    hide Apply, Enabled, DeliveryInv, Published, Sel, PrivateIds;
    SelOfDirect(s.subs[i].Wanted(), PrivateIds(s.subs[i]), Published(s), s.direct[i],
                MeantBy(s.subs, PublishDirect(k, m), i), m);
  }

  lemma SelOfDirect(w: set<nat>, p: set<nat>, published: seq<Msg>, direct: seq<Msg>, here: seq<Msg>, m: Msg)
    requires here == [] || (here == [m] && m.id in p && m.id !in w)
    ensures Sel(w, published) == Sel(w, published) + Sel(w, here) && direct + here == direct + Sel(p, here)
  {
    if here == [m] {
      SelOne(w, m);
      SelOne(p, m);
    }
  }

  lemma DirectIsPrivate(s: State, k: nat, m: Msg)
    requires DeliveryInv(s) && Enabled(s, PublishDirect(k, m))
    ensures m.id in PrivateIds(s.subs[k]) && m.id !in s.subs[k].Wanted()
  {
    IdInMemory(s, m);
    assert IsPrivate(s.subs[k], m.id);
  }

  /** The broker's publish log holds the public part of what the run published for i ... */
  lemma {:induction false} RunPublishes(s: State, steps: seq<Step>, i: nat)
    requires DeliveryInv(s) && IsRun(s, steps) && FixedSubscriptions(steps) && i < |s.subs|
    ensures var w := s.subs[i].Wanted();
            Sel(w, Published(Exec(s, steps))) == Sel(w, Published(s)) + Sel(w, MeantFor(s.subs, steps, i))
    decreases |steps|
  {
    hide Apply, Enabled, Published;
    var w := s.subs[i].Wanted();
    if steps != [] {
      var here, rest := MeantBy(s.subs, steps[0], i), MeantFor(s.subs, steps[1..], i);
      StepPublishes(s, steps[0], i);
      StepKeepsDeliveryInv(s, steps[0]);
      StepKeepsSubs(s, steps[0]);
      RunPublishes(Apply(s, steps[0]), steps[1..], i);
      SelConcat(w, here, rest);
      Assoc(Sel(w, Published(s)), Sel(w, here), Sel(w, rest));
      hide DeliveryInv, Sel, MeantBy;
    }
  }

  /** ... and the direct log of i the private part. */
  lemma {:induction false} RunPublishesDirect(s: State, steps: seq<Step>, i: nat)
    requires DeliveryInv(s) && IsRun(s, steps) && FixedSubscriptions(steps) && i < |s.subs|
    ensures var e := Exec(s, steps);
            && |e.direct| == |s.direct|
            && e.direct[i] == s.direct[i] + Sel(PrivateIds(s.subs[i]), MeantFor(s.subs, steps, i))
    decreases |steps|
  {
    hide Apply, Enabled;
    var p := PrivateIds(s.subs[i]);
    if steps != [] {
      var here, rest := MeantBy(s.subs, steps[0], i), MeantFor(s.subs, steps[1..], i);
      StepPublishes(s, steps[0], i);
      StepKeepsDeliveryInv(s, steps[0]);
      StepKeepsSubs(s, steps[0]);
      RunPublishesDirect(Apply(s, steps[0]), steps[1..], i);
      SelConcat(p, here, rest);
      Assoc(s.direct[i], Sel(p, here), Sel(p, rest));
      hide DeliveryInv, Sel, MeantBy;
    }
  }

  lemma {:induction false} SelAll(want: set<nat>, log: seq<Msg>)
    requires forall m :: m in log ==> m.id in want
    ensures Sel(want, log) == log
  {
    if log != [] {
      var last := |log| - 1;
      assert log == log[..last] + [log[last]];
      SelAll(want, log[..last]);
    }
  }

  lemma MeantById(s: State, step: Step, i: nat)
    requires DeliveryInv(s) && Enabled(s, step) && i < |s.subs|
    ensures forall m :: m in MeantBy(s.subs, step, i) ==>
              m.id in s.subs[i].Wanted() || m.id in PrivateIds(s.subs[i])
  {
    if step.PublishDirect? {
      IdInMemory(s, step.m);
      assert IsPrivate(s.subs[step.i], step.m.id);
    }
    hide DeliveryInv;
  }

  /** What is published for i is public and taken by i, or private to it. */
  lemma {:induction false} MeantIds(s: State, steps: seq<Step>, i: nat)
    requires DeliveryInv(s) && IsRun(s, steps) && FixedSubscriptions(steps) && i < |s.subs|
    ensures forall m :: m in MeantFor(s.subs, steps, i) ==>
              m.id in s.subs[i].Wanted() || m.id in PrivateIds(s.subs[i])
    decreases |steps|
  {
    hide Apply, Enabled, MeantBy, PrivateIds;
    if steps != [] {
      MeantById(s, steps[0], i);
      StepKeepsDeliveryInv(s, steps[0]);
      StepKeepsSubs(s, steps[0]);
      MeantIds(Apply(s, steps[0]), steps[1..], i);
      hide DeliveryInv;
    }
  }

  lemma HandledIds(s: State, i: nat)
    requires DeliveryInv(s) && i < |s.subs|
    ensures forall m :: m in s.handled[i] ==> m.id in s.subs[i].Wanted() || m.id in PrivateIds(s.subs[i])
  {
    assert SubOrd(s, i);
    forall m | m in s.handled[i] ensures m.id in s.subs[i].Wanted() || m.id in PrivateIds(s.subs[i]) {
      assert m in Arrived(s, i);
      assert m.id > s.subs[i].maxPub ==> IsPrivate(s.subs[i], m.id);
    }
  }

  /** The subscriber has only public messages, or only private ones. */
  predicate OneKind(sub: Sub) {
    sub.Wanted() == {} || sub.maxPub >= MAX_MSG_ID
  }

  lemma PrivateInOrder(subs: seq<Sub>, pool: set<Block>, i: nat, steps: seq<Step>)
    requires ValidSubs(subs) && i < |subs| && subs[i].Wanted() == {}
    requires IsRun(Init(subs, pool), steps) && FixedSubscriptions(steps)
    ensures var s := Exec(Init(subs, pool), steps);
            |s.handled| == |subs| && s.handled[i] <= MeantFor(subs, steps, i)
  {
    hide Apply, Enabled, MeantFor, Sel;
    var s0, p := Init(subs, pool), PrivateIds(subs[i]);
    InitDeliveryInv(subs, pool);
    RunKeepsDeliveryInv(s0, steps);
    RunPublishesDirect(s0, steps, i);
    MeantIds(s0, steps, i);
    var s := Exec(s0, steps);
    HandledIds(s, i);
    DirectOrder(s, i);
    SelAll(p, MeantFor(subs, steps, i));
    SelAll(p, s.handled[i]);
    hide DeliveryInv;
  }

  lemma PublicInOrder(subs: seq<Sub>, pool: set<Block>, i: nat, steps: seq<Step>)
    requires ValidSubs(subs) && i < |subs| && subs[i].maxPub >= MAX_MSG_ID
    requires subs[i].rxType == Fifo ==> Uniform(subs, i, subs[i].Wanted())
    requires IsRun(Init(subs, pool), steps) && FixedSubscriptions(steps)
    ensures var s := Exec(Init(subs, pool), steps);
            |s.handled| == |subs| && s.handled[i] <= MeantFor(subs, steps, i)
  {
    hide Apply, Enabled, MeantFor, Sel;
    var s0, w := Init(subs, pool), subs[i].Wanted();
    InitDeliveryInv(subs, pool);
    RunKeepsDeliveryInv(s0, steps);
    RunPublishes(s0, steps, i);
    NothingPublished(subs, pool, w);
    MeantIds(s0, steps, i);
    var s := Exec(s0, steps);
    HandledIds(s, i);
    NoPrivateIds(subs[i]);
    SelAll(w, MeantFor(subs, steps, i));
    SelAll(w, s.handled[i]);
    if subs[i].rxType == Fifo { FifoOrder(s, i, w); } else { BrokerFedOrder(s, i); }
    hide DeliveryInv;
  }

  lemma NothingPublished(subs: seq<Sub>, pool: set<Block>, w: set<nat>)
    requires ValidSubs(subs)
    ensures Sel(w, Published(Init(subs, pool))) == []
  {
  }

  lemma NoPrivateIds(sub: Sub)
    requires sub.maxPub >= MAX_MSG_ID
    ensures PrivateIds(sub) == {}
  {
    assert forall id :: id in PrivateIds(sub) ==> IsPrivate(sub, id);
  }

  /** Then its messages come from one queue. */
  lemma OneKindInOrder(subs: seq<Sub>, pool: set<Block>, i: nat)
    requires ValidSubs(subs) && i < |subs| && OneKind(subs[i])
    requires subs[i].rxType == Fifo ==> Uniform(subs, i, subs[i].Wanted())
    ensures AllInOrder(subs, pool, i)
  {
    hide Exec, Init, MeantFor, Uniform, Shaped;
    forall steps | IsRun(Init(subs, pool), steps) && FixedSubscriptions(steps)
      ensures var s := Exec(Init(subs, pool), steps);
              |s.handled| == |subs| && s.handled[i] <= MeantFor(subs, steps, i)
    {
      if subs[i].Wanted() == {} {
        PrivateInOrder(subs, pool, i, steps);
      } else {
        PublicInOrder(subs, pool, i, steps);
      }
    }
  }

  /** Handling a prefix of everything includes handling a prefix of the public messages. */
  lemma AllMeansPublicAt(subs: seq<Sub>, pool: set<Block>, i: nat, steps: seq<Step>)
    requires ValidSubs(subs) && i < |subs| && IsRun(Init(subs, pool), steps) && FixedSubscriptions(steps)
    requires |Exec(Init(subs, pool), steps).handled| == |subs|
    requires Exec(Init(subs, pool), steps).handled[i] <= MeantFor(subs, steps, i)
    ensures var s := Exec(Init(subs, pool), steps); s.subs == subs && InOrder(s, i)
  {
    hide Apply, Enabled, MeantFor, Sel;
    var s0 := Init(subs, pool);
    InitDeliveryInv(subs, pool);
    RunKeepsDeliveryInv(s0, steps);
    RunPublishes(s0, steps, i);
    NothingPublished(subs, pool, subs[i].Wanted());
    SelPrefix(subs[i].Wanted(), Exec(s0, steps).handled[i], MeantFor(subs, steps, i));
    hide DeliveryInv, ValidSubs;
  }

  lemma AllMeansPublic(subs: seq<Sub>, pool: set<Block>, i: nat)
    requires ValidSubs(subs) && i < |subs| && AllInOrder(subs, pool, i)
    ensures AlwaysInOrder(subs, pool, i)
  {
    hide Exec, Init, MeantFor, InOrder, Shaped;
    forall steps | IsRun(Init(subs, pool), steps) && FixedSubscriptions(steps)
      ensures var s := Exec(Init(subs, pool), steps); |s.subs| == |subs| && InOrder(s, i)
    {
      AllMeansPublicAt(subs, pool, i, steps);
    }
  }

  lemma {:induction false} MeantConcat(subs: seq<Sub>, a: seq<Step>, b: seq<Step>, i: nat)
    requires i < |subs|
    ensures MeantFor(subs, a + b, i) == MeantFor(subs, a, i) + MeantFor(subs, b, i)
  {
    if a == [] {
      assert a + b == b;
    } else {
      assert (a + b)[1..] == a[1..] + b;
      MeantConcat(subs, a[1..], b, i);
    }
  }

  lemma NewIsHeld(s: State, id: nat, block: Block)
    requires Shaped(s) && Enabled(s, New(id, block))
    ensures var s', m := Apply(s, New(id, block)), Msg(s.next, id, block);
            && m in s'.user && HdrOf(s', m).id == id && s'.sent == s.sent
            && s'.subs == s.subs && s'.q == s.q && s'.poll == s.poll && s'.handled == s.handled
  {
  }

  /** The application publishes m directly to i, and i's handler is called with it. */
  lemma DirectIsCalled(s: State, i: nat, m: Msg) returns (steps: seq<Step>)
    requires Shaped(s) && i < |s.subs| && m in s.user && m !in s.sent
    requires HdrOf(s, m).id > s.subs[i].maxPub && HasRoom(s, i)
    requires s.q[i] == [] && s.poll[i].Ready? && s.handled[i] == []
    ensures IsRun(s, steps) && |Exec(s, steps).handled| == |s.handled| && Exec(s, steps).handled[i] == [m]
    ensures steps == [PublishDirect(i, m)] || steps == [PublishDirect(i, m)] + [PollGet(i)]
  {
    var direct := PublishDirect(i, m);
    var s1 := Apply(s, direct);
    RunOne(s, direct);
    steps := [direct];
    if s.subs[i].rxType != Callback {
      assert s1.q[i] == [m] && s1.poll[i].Ready? && HdrOf(s1, m) == HdrOf(s, m);
      RunOne(s1, PollGet(i));
      RunConcat(s, [direct], [PollGet(i)]);
      steps := [direct] + [PollGet(i)];
    }
  }

  lemma NewIsEnabled(s: State, id: nat, block: Block)
    requires Shaped(s) && id <= MAX_MSG_ID && block in s.free
    ensures Enabled(s, New(id, block))
  {
  }

  lemma StartIsIdle(subs: seq<Sub>, pool: set<Block>, i: nat)
    requires ValidSubs(subs) && i < |subs|
    ensures var s := Init(subs, pool);
            && s.subs == subs && s.free == pool && s.next == 0 && s.sent == map[] && HasRoom(s, i)
            && s.q[i] == [] && s.poll[i].Ready? && s.handled[i] == []
  {
  }

  /** A public message for i is published and still waits for the broker when i handles a private one
      published after it. */
  lemma PublishedPastBroker(subs: seq<Sub>, pool: set<Block>, i: nat, x: nat, p: nat, b: Block, c: Block)
    returns (steps: seq<Step>)
    requires ValidSubs(subs) && i < |subs| && subs[i].Wants(x) && subs[i].maxPub < p <= MAX_MSG_ID
    requires b in pool && c in pool && b != c
    ensures IsRun(Init(subs, pool), steps) && FixedSubscriptions(steps)
    ensures MeantFor(subs, steps, i) == [Msg(0, x, b), Msg(1, p, c)]
    ensures var s := Exec(Init(subs, pool), steps);
            |s.handled| == |subs| && s.handled[i] == [Msg(1, p, c)]
  {
    hide MeantFor, ValidSubs, Enabled, Apply;
    var s0 := Init(subs, pool);
    var mx, mp := Msg(0, x, b), Msg(1, p, c);
    InitDeliveryInv(subs, pool);
    StartIsIdle(subs, pool, i);
    var first := PublishNew(s0, x, b);
    var s1 := Exec(s0, first);
    NewIsEnabled(s1, p, c);
    NewIsHeld(s1, p, c);
    var s2 := Apply(s1, New(p, c));
    RunOne(s1, New(p, c));
    var last := DirectIsCalled(s2, i, mp);
    RunConcat(s1, [New(p, c)], last);
    RunConcat(s0, first, [New(p, c)] + last);
    steps := first + ([New(p, c)] + last);
    MeantPast(subs, i, mx, mp, last);
  }

  lemma MeantOne(subs: seq<Sub>, step: Step, i: nat)
    requires i < |subs|
    ensures MeantFor(subs, [step], i) == MeantBy(subs, step, i)
  {
    assert [step][1..] == [] && MeantFor(subs, [], i) == [];
  }

  lemma MeantPast(subs: seq<Sub>, i: nat, mx: Msg, mp: Msg, last: seq<Step>)
    requires i < |subs| && subs[i].Wants(mx.id)
    requires last == [PublishDirect(i, mp)] || last == [PublishDirect(i, mp)] + [PollGet(i)]
    ensures MeantFor(subs, [New(mx.id, mx.block), Publish(mx)] + ([New(mp.id, mp.block)] + last), i) == [mx, mp]
  {
    var first, news := [New(mx.id, mx.block)] + [Publish(mx)], [New(mp.id, mp.block)];
    hide MeantFor;
    MeantOne(subs, New(mx.id, mx.block), i);
    MeantOne(subs, Publish(mx), i);
    MeantOne(subs, New(mp.id, mp.block), i);
    MeantOne(subs, PublishDirect(i, mp), i);
    MeantOne(subs, PollGet(i), i);
    MeantConcat(subs, [New(mx.id, mx.block)], [Publish(mx)], i);
    MeantConcat(subs, [PublishDirect(i, mp)], [PollGet(i)], i);
    MeantConcat(subs, first, news + last, i);
    MeantConcat(subs, news, last, i);
    assert first == [New(mx.id, mx.block), Publish(mx)];
  }

  // ----- a pool of one block -----

  /** Subscriber i has handled the whole of `log`, or all but its last message, which is still live. */
  ghost predicate Abreast(s: State, i: nat, log: seq<Msg>)
    requires Shaped(s) && i < |s.subs|
  {
    && (forall m :: m in log <==> Due(s, i, m))
    && (s.handled[i] == log || OneBehind(s, i, log))
  }

  ghost predicate OneBehind(s: State, i: nat, log: seq<Msg>)
    requires Shaped(s) && i < |s.subs|
  {
    && log != [] && log == s.handled[i] + [log[|log| - 1]]
    && log[|log| - 1] in s.live && log[|log| - 1] !in s.handled[i]
  }

  /** Two live messages need two blocks. */
  lemma OneLive(s: State, m: Msg, k: Msg)
    requires Inv(s) && |s.pool| < 2 && m in s.live && k in s.live
    ensures m == k
  {
    assert m.block in Blocks(s.live) && k.block in Blocks(s.live);
    if m.block != k.block {
      assert {m.block, k.block} <= s.pool;
      CardMono({m.block, k.block}, s.pool);
    }
  }

  lemma CardMono(a: set<Block>, b: set<Block>)
    requires a <= b
    ensures |a| <= |b|
  {
    assert b == a + (b - a);
  }

  lemma LiveKept(s: State, step: Step, m: Msg)
    requires Shaped(s) && Enabled(s, step) && m in s.live && step != Free(m)
    ensures m in Apply(s, step).live
  {
    if !step.New? && !step.Free? {
      hide Apply, Enabled;
      if BrokerStep(step) {
        BrokerFrame(s, step);
      } else if PollerStep(step) {
        PollerFrame(s, step);
      } else {
        AppFrame(s, step);
      }
    }
  }

  /** Whoever is about to publish a message holds the only block. */
  lemma CaughtUp(s: State, i: nat, log: seq<Msg>, m: Msg)
    requires DeliveryInv(s) && |s.pool| < 2 && i < |s.subs| && Abreast(s, i, log)
    requires m in s.user && m !in s.sent
    ensures s.handled[i] == log && m in s.live && m !in log
  {
    NoUseAfterFree(s, m);
    if s.handled[i] != log {
      assert Due(s, i, log[|log| - 1]);
      OneLive(s, log[|log| - 1], m);
    }
  }

  lemma HandledGrows(s: State, step: Step, i: nat)
    requires DeliveryInv(s) && Enabled(s, step) && i < |s.subs|
    ensures Apply(s, step).handled[i] == s.handled[i] + Adds(HandlerCall(s, step), i)
  {
    StepLogs(s, step, i);
    hide Apply, Enabled, HandlerCall, Passed, Arrived, Passes, Arrival;
  }

  lemma LogGrows(s: State, s': State, i: nat, log: seq<Msg>, m: Msg, route: Route, here: seq<Msg>)
    requires i < |s.subs| && s'.subs == s.subs && m !in s.sent && s'.sent == s.sent[m := route]
    requires forall x :: x in log <==> Due(s, i, x)
    requires here == if (route == ToBroker && s.subs[i].Wants(m.id)) || route == Direct(i) then [m] else []
    ensures forall x :: x in log + here <==> Due(s', i, x)
  {
    forall x ensures x in log + here <==> Due(s', i, x) {
      assert x in log <==> Due(s, i, x);
    }
  }

  lemma PublishAbreast(s: State, m: Msg, i: nat, log: seq<Msg>)
    requires DeliveryInv(s) && |s.pool| < 2 && i < |s.subs| && Abreast(s, i, log) && Enabled(s, Publish(m))
    ensures Abreast(Apply(s, Publish(m)), i, log + MeantBy(s.subs, Publish(m), i))
  {
    PublishFrame(s, m);
    PublishSends(s, m);
    CaughtUp(s, i, log, m);
    hide Apply, Enabled, DeliveryInv, Published, HeadersKept, AppKeeps;
    var s', here := Apply(s, Publish(m)), MeantBy(s.subs, Publish(m), i);
    LogGrows(s, s', i, log, m, ToBroker, here);
    hide Due;
    if here == [] { assert log + here == log; }
  }

  lemma DirectAbreast(s: State, k: nat, m: Msg, i: nat, log: seq<Msg>)
    requires DeliveryInv(s) && |s.pool| < 2 && i < |s.subs| && Abreast(s, i, log) && Enabled(s, PublishDirect(k, m))
    ensures Abreast(Apply(s, PublishDirect(k, m)), i, log + MeantBy(s.subs, PublishDirect(k, m), i))
  {
    PublishDirectFrame(s, k, m);
    PublishDirectSends(s, k, m);
    HandledGrows(s, PublishDirect(k, m), i);
    CaughtUp(s, i, log, m);
    hide Apply, Enabled, DeliveryInv, Published, HeadersKept, AppKeeps;
    var s', here := Apply(s, PublishDirect(k, m)), MeantBy(s.subs, PublishDirect(k, m), i);
    LogGrows(s, s', i, log, m, Direct(k), here);
    hide Due;
    if here == [] { assert log + here == log; }
  }

  /** A handler is only called with the one message that was missing. */
  lemma CallCatchesUp(s: State, step: Step, i: nat, log: seq<Msg>, m: Msg)
    requires DeliveryInv(s) && Enabled(s, step) && !Resubscribes(step) && i < |s.subs| && Abreast(s, i, log)
    requires DeliveryInv(Apply(s, step)) && Apply(s, step).handled[i] == s.handled[i] + [m]
    requires m in log || !Due(Apply(s, step), i, m)
    ensures Apply(s, step).handled[i] == log
  {
    hide Apply, Enabled, Due;
    HandledAtMostOnce(Apply(s, step), i, m);
    CountAppend(s.handled[i], m, m);
    CountIn(s.handled[i], m);
    hide DeliveryInv, Count;
  }

  ghost predicate AllDueOwed(s: State, i: nat) {
    TransitInv(s) && i < |s.subs| && forall m :: DueIsOwed(s, i, m)
  }

  lemma StepKeepsAllDueOwed(s: State, step: Step, i: nat)
    requires AllDueOwed(s, i) && Enabled(s, step) && !Resubscribes(step)
    ensures AllDueOwed(Apply(s, step), i)
  {
    hide Apply, Enabled, TransitInv, DueIsOwed;
    TransitParts(s);
    StepKeepsTransitInv(s, step);
    SubsFrame(s, step);
    forall m ensures DueIsOwed(Apply(s, step), i, m) { StepKeepsDueIsOwed(s, step, i, m); }
  }

  /** The missing message is not freed before it is handled. */
  lemma BehindStaysLive(s: State, step: Step, i: nat, log: seq<Msg>)
    requires DeliveryInv(s) && Enabled(s, step) && i < |s.subs| && Abreast(s, i, log) && OneBehind(s, i, log)
    requires AllDueOwed(s, i)
    ensures log[|log| - 1] in Apply(s, step).live
  {
    var m := log[|log| - 1];
    if step == Free(m) {
      assert MsgInv(s, m) && Due(s, i, m) && DueIsOwed(s, i, m);
      UnownedIsHandled(s, i, m);
      CountIn(s.handled[i], m);
    } else {
      LiveKept(s, step, m);
    }
  }

  lemma AbreastStays(s: State, s': State, i: nat, log: seq<Msg>)
    requires Shaped(s) && Shaped(s') && i < |s.subs| && s'.subs == s.subs && s'.sent == s.sent
    requires Abreast(s, i, log)
    requires || s'.handled[i] == log
             || (s'.handled[i] == s.handled[i] && (OneBehind(s, i, log) ==> log[|log| - 1] in s'.live))
    ensures Abreast(s', i, log)
  {
    forall x ensures x in log <==> Due(s', i, x) {
      assert x in log <==> Due(s, i, x);
    }
    hide Due;
  }

  lemma OtherAbreast(s: State, step: Step, i: nat, log: seq<Msg>)
    requires DeliveryInv(s) && i < |s.subs| && Abreast(s, i, log) && Enabled(s, step)
    requires AllDueOwed(s, i) && !Resubscribes(step) && !step.Publish? && !step.PublishDirect?
    ensures Abreast(Apply(s, step), i, log)
  {
    hide Apply, HandlerCall, AllDueOwed;
    var s' := Apply(s, step);
    SentSame(s, step);
    StepKeepsSubs(s, step);
    HandledGrows(s, step, i);
    StepKeepsDeliveryInv(s, step);
    hide Enabled, DeliveryInv, OneBehind, Resubscribes;
    if OneBehind(s, i, log) { BehindStaysLive(s, step, i, log); }
    var call := HandlerCall(s, step);
    if call.Some? && call.value.i == i {
      assert Due(s', i, call.value.m) == Due(s, i, call.value.m);
      CallCatchesUp(s, step, i, log, call.value.m);
    }
    AbreastStays(s, s', i, log);
    hide Abreast;
  }

  lemma {:induction false} RunAbreast(s: State, steps: seq<Step>, i: nat, log: seq<Msg>)
    requires DeliveryInv(s) && |s.pool| < 2 && i < |s.subs| && Abreast(s, i, log) && AllDueOwed(s, i)
    requires IsRun(s, steps) && FixedSubscriptions(steps)
    ensures var e := Exec(s, steps);
            |e.subs| == |s.subs| && Abreast(e, i, log + MeantFor(s.subs, steps, i))
    decreases |steps|
  {
    hide Apply, Enabled, Abreast, MeantBy, AllDueOwed;
    if steps == [] {
      assert log + [] == log;
    } else {
      var step, here := steps[0], MeantBy(s.subs, steps[0], i);
      StepAbreast(s, step, i, log);
      StepKeepsDeliveryInv(s, step);
      StepKeepsSubs(s, step);
      StepKeepsAllDueOwed(s, step, i);
      PoolSame(s, step);
      RunAbreast(Apply(s, step), steps[1..], i, log + here);
      Assoc(log, here, MeantFor(s.subs, steps[1..], i));
    }
  }

  lemma StepAbreast(s: State, step: Step, i: nat, log: seq<Msg>)
    requires DeliveryInv(s) && |s.pool| < 2 && i < |s.subs| && Abreast(s, i, log) && AllDueOwed(s, i)
    requires Enabled(s, step) && !Resubscribes(step)
    ensures Abreast(Apply(s, step), i, log + MeantBy(s.subs, step, i))
  {
    hide Apply, Enabled, Abreast, DeliveryInv, AllDueOwed;
    if step.Publish? {
      PublishAbreast(s, step.m, i, log);
    } else if step.PublishDirect? {
      DirectAbreast(s, step.i, step.m, i, log);
    } else {
      OtherAbreast(s, step, i, log);
      assert log + [] == log;
    }
  }

  /** Messages that share one block never overtake each other: the block is freed only when everybody has
      handled its message. */
  lemma OneBlockInOrder(subs: seq<Sub>, pool: set<Block>, i: nat)
    requires ValidSubs(subs) && |pool| < 2 && i < |subs|
    ensures AllInOrder(subs, pool, i)
  {
    hide Exec, Init, MeantFor, Shaped;
    forall steps | IsRun(Init(subs, pool), steps) && FixedSubscriptions(steps)
      ensures var s := Exec(Init(subs, pool), steps);
              |s.handled| == |subs| && s.handled[i] <= MeantFor(subs, steps, i)
    {
      OneBlockPrefix(subs, pool, i, steps);
    }
  }

  lemma StartsOwed(subs: seq<Sub>, pool: set<Block>, i: nat)
    requires ValidSubs(subs) && i < |subs|
    ensures AllDueOwed(Init(subs, pool), i)
  {
    InitTransitInv(subs, pool);
    forall m ensures DueIsOwed(Init(subs, pool), i, m) { WaitingIsOwed(Init(subs, pool), i, m); }
    hide TransitInv, DueIsOwed;
  }

  lemma OneBlockPrefix(subs: seq<Sub>, pool: set<Block>, i: nat, steps: seq<Step>)
    requires ValidSubs(subs) && |pool| < 2 && i < |subs|
    requires IsRun(Init(subs, pool), steps) && FixedSubscriptions(steps)
    ensures var s := Exec(Init(subs, pool), steps);
            |s.handled| == |subs| && s.handled[i] <= MeantFor(subs, steps, i)
  {
    hide Apply, Enabled, DeliveryInv, MeantFor, Exec, IsRun;
    var s0 := Init(subs, pool);
    InitDeliveryInv(subs, pool);
    assert Abreast(s0, i, []) && s0.subs == subs && s0.pool == pool;
    StartsOwed(subs, pool, i);
    hide Init, ValidSubs, AllDueOwed;
    RunAbreast(s0, steps, i, []);
    hide Due;
    assert [] + MeantFor(subs, steps, i) == MeantFor(subs, steps, i);
  }

  /** A subscriber receives its public messages in publish order in every run if and only if there is but
      one block for messages, or it is a callback or msgq subscriber, or a fifo subscriber whose fifo
      predecessors each take either all of its ids or none of them. */
  lemma PublicInOrderIff(subs: seq<Sub>, pool: set<Block>, i: nat)
    requires ValidSubs(subs) && i < |subs|
    ensures AlwaysInOrder(subs, pool, i) <==>
              || |pool| < 2
              || (subs[i].rxType == Fifo ==> Uniform(subs, i, subs[i].Wanted()))
  {
    var ids := subs[i].Wanted();
    if subs[i].rxType == Fifo ==> Uniform(subs, i, ids) {
      InOrderWhenUniform(subs, pool, i);
    } else if |pool| < 2 {
      OneBlockInOrder(subs, pool, i);
      AllMeansPublic(subs, pool, i);
    } else {
      var k :| 0 <= k < i && subs[k].rxType == Fifo && !TakesAll(subs[k], ids) && !TakesNone(subs[k], ids);
      var y :| y in ids && !subs[k].Wants(y);
      var x :| x in ids && subs[k].Wants(x);
      var steps := Overtaking(subs, pool, i, k, x, y);
    }
  }

  lemma NotAPrefix(m: Msg, k: Msg)
    requires m.serial != k.serial
    ensures !([m] <= [k, m])
  {
    assert [m][0] != [k, m][0];
  }

  lemma MixedOutOfOrder(subs: seq<Sub>, pool: set<Block>, i: nat)
    requires ValidSubs(subs) && i < |subs| && |pool| >= 2 && !OneKind(subs[i])
    ensures !AllInOrder(subs, pool, i)
  {
    hide Exec, Init, MeantFor, IsRun, ValidSubs, Shaped;
    var x :| x in subs[i].Wanted();
    var b :| b in pool;
    assert |pool - {b}| >= 1;
    var c :| c in pool - {b};
    var steps := PublishedPastBroker(subs, pool, i, x, MAX_MSG_ID, b, c);
    NotAPrefix(Msg(1, MAX_MSG_ID, c), Msg(0, x, b));
  }

  /** A subscriber receives all messages meant for it in the order they were published, in every run, if
      and only if there is but one block for messages, or it receives its public ones so and has not both
      public and private messages. */
  lemma InPublishOrderIff(subs: seq<Sub>, pool: set<Block>, i: nat)
    requires ValidSubs(subs) && i < |subs|
    ensures AllInOrder(subs, pool, i) <==>
              || |pool| < 2
              || (&& (subs[i].rxType == Fifo ==> Uniform(subs, i, subs[i].Wanted()))
                  && (subs[i].Wanted() == {} || subs[i].maxPub >= MAX_MSG_ID))
  {
    hide AllInOrder, AlwaysInOrder, Uniform, ValidSubs;
    PublicInOrderIff(subs, pool, i);
    if |pool| < 2 {
      OneBlockInOrder(subs, pool, i);
    } else if OneKind(subs[i]) {
      if subs[i].rxType == Fifo ==> Uniform(subs, i, subs[i].Wanted()) { OneKindInOrder(subs, pool, i); }
    } else {
      MixedOutOfOrder(subs, pool, i);
    }
    if AllInOrder(subs, pool, i) { AllMeansPublic(subs, pool, i); }
  }
}
