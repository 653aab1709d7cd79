/** A subscriber that is put back on the list can get a message a second time: exactly when it is put behind
    a fifo subscriber that still carries the message. */
module SecondDelivery {
  import opened Types
  import opened Protocol
  import opened Frames
  import opened RefCount
  import opened RefSafety
  import opened Logs
  import opened Order
  import opened Delivery
  import opened Transit
  import opened OnTheWay
  import opened Completion
  import opened Drain
  import opened PublishOrder
  import opened ListChange
  import opened Listed
  import opened Relisted

  // ----- runs, put together -----

  function Dos(steps: seq<Step>): seq<Change> {
    if steps == [] then [] else [Do(steps[0])] + Dos(steps[1..])
  }

  lemma ConsRun(w: World, c: Change, cs: seq<Change>)
    requires Sized(w) && Can(w, c) && CanRun(Changed(w, c), cs)
    ensures CanRun(w, [c] + cs) && End(w, [c] + cs) == End(Changed(w, c), cs)
    ensures CalmChange(w, c) && CalmRun(Changed(w, c), cs) ==> CalmRun(w, [c] + cs)
    ensures forall k :: WhereAfter([c] + cs, k) == WhereAfter(cs, Where(c, k))
  {
    assert ([c] + cs)[1..] == cs;
    hide Changed, Can, CalmChange, Where;
  }

  lemma {:induction false} ConcatRun(w: World, a: seq<Change>, b: seq<Change>, k: nat)
    requires Sized(w) && CanRun(w, a) && CanRun(End(w, a), b)
    ensures CanRun(w, a + b) && End(w, a + b) == End(End(w, a), b)
    ensures CalmRun(w, a) && CalmRun(End(w, a), b) ==> CalmRun(w, a + b)
    ensures WhereAfter(a + b, k) == WhereAfter(b, WhereAfter(a, k))
    decreases |a|
  {
    hide Changed, Can, CalmChange, Where;
    if a == [] {
      assert a + b == b;
    } else {
      EndStep(w, a);
      ConcatRun(Changed(w, a[0]), a[1..], b, Where(a[0], k));
      ConsRun(w, a[0], a[1..] + b);
      assert a + b == [a[0]] + (a[1..] + b);
    }
  }

  lemma StepIsChange(w: World, step: Step)
    requires Sized(w) && Enabled(w.s, step) && !Resubscribes(step)
    ensures Can(w, Do(step)) && CalmChange(w, Do(step)) && Changed(w, Do(step)) == w.(s := Apply(w.s, step))
  {
  }

  /** A run of the protocol is a run with the list unchanged. */
  lemma {:induction false} DosRun(w: World, steps: seq<Step>, k: nat)
    requires Sized(w) && IsRun(w.s, steps) && FixedSubscriptions(steps)
    ensures CanRun(w, Dos(steps)) && CalmRun(w, Dos(steps)) && WhereAfter(Dos(steps), k) == k
    ensures End(w, Dos(steps)) == w.(s := Exec(w.s, steps))
    decreases |steps|
  {
    hide Changed, Can, CalmChange, Apply, Enabled;
    if steps != [] {
      StepIsChange(w, steps[0]);
      var w' := Changed(w, Do(steps[0]));
      SizedStays(w, steps[0]);
      DosRun(w', steps[1..], k);
      ConsRun(w, Do(steps[0]), Dos(steps[1..]));
    }
  }

  lemma SizedStays(w: World, step: Step)
    requires Sized(w) && Enabled(w.s, step)
    ensures Sized(w.(s := Apply(w.s, step)))
  {
  }

  // ----- the condition -----

  /** k stays on the list, or off it. */
  predicate StaysOn(cs: seq<Change>, k: nat) {
    cs != [] ==>
      && !(cs[0].AddSub? && cs[0].k == k) && !(cs[0].RemoveSub? && cs[0].k == k)
      && StaysOn(cs[1..], Where(cs[0], k))
  }

  /** Continuing so, with k where it is on the list, its handler will have been called twice with m. */
  ghost predicate Again(w: World, cs: seq<Change>, k: nat, m: Msg)
    requires Sized(w) && k < |w.s.subs|
  {
    && CanRun(w, cs) && CalmRun(w, cs) && StaysOn(cs, k) && WhereAfter(cs, k) < |w.s.subs|
    && Count(Calls(End(w, cs), WhereAfter(cs, k)), m) >= 2
  }

  lemma {:induction false} StayingIsClean(w: World, cs: seq<Change>, k: nat, m: Msg)
    requires Sized(w) && CanRun(w, cs) && k < |w.s.subs| && StaysOn(cs, k)
    ensures CleanRun(w, cs, k, m)
    decreases |cs|
  {
    hide Changed, Can, Behind, Where;
    if cs != [] {
      WhereIsThere(w, cs[0], k);
      StayingIsClean(Changed(w, cs[0]), cs[1..], Where(cs[0], k), m);
    }
  }

  lemma NeverAgain(w: World, cs: seq<Change>, k: nat, m: Msg)
    requires WorldInv(w) && k < |w.s.subs| && OnceInv(w, k, m)
    ensures !Again(w, cs, k, m)
  {
    if Again(w, cs, k, m) {
      StayingIsClean(w, cs, k, m);
      RunKeepsOnceInv(w, cs, k, m);
      CallsOnce(End(w, cs), WhereAfter(cs, k), m);
    }
    hide WorldInv, OnceInv, End, Count;
  }

  /** k has had m, and is put back calmly. */
  ghost predicate PutBack(w: World, k: nat, p: nat, m: Msg) {
    && WorldInv(w) && Can(w, AddSub(k, p)) && CalmChange(w, AddSub(k, p))
    && OnceInv(w, k, m) && m in Calls(w, k)
  }

  lemma PutBackParts(w: World, k: nat, p: nat, m: Msg)
    requires PutBack(w, k, p, m)
    ensures Sized(w) && p < |w.s.subs| && Can(w, AddSub(k, p))
    ensures WorldInv(w) && WorldInv(Changed(w, AddSub(k, p)))
  {
    ChangeKeepsWorldInv(w, AddSub(k, p));
  }

  lemma HadOnce(w: World, k: nat, p: nat, m: Msg)
    requires PutBack(w, k, p, m)
    ensures var w' := Changed(w, AddSub(k, p));
            && p < |w'.s.subs| && Count(w'.past[p], m) + Times(w'.s, p, m) == 1
            && Count(Calls(w', p), m) == 1
  {
    var w' := Changed(w, AddSub(k, p));
    NothingForgotten(w, k, p, m);
    CountIn(Calls(w, k), m);
    CountConcat(w.past[k], w.s.handled[k], m);
    CountPrefix(w.s.handled[k], Arrived(w.s, k), m);
    assert Times(w.s, k, m) == Count(Arrived(w.s, k), m);
    hide WorldInv, Can, Changed, CalmChange, Times, Arrived, Count;
  }

  lemma BehindIsEmpty(s: State, p: nat, m: Msg)
    requires TransitInv(s) && p < |s.subs| && Behind(s, p, m) && Open(s, p, m)
    requires m in s.sent && (m.id > s.subs[p].maxPub ==> SentDirect(s, p, m))
    ensures Times(s, p, m) == 0 && m.id <= s.subs[p].maxPub
  {
    if m.id > s.subs[p].maxPub { DirectIsClosed(s, p, m); }
    var i :| 0 <= i < p && Carries(s, i, m) && m.id <= s.subs[i].maxPub;
    NotBehindCarrier(s, i, p, m);
    hide TransitInv, Times, Open;
  }

  /** Behind a carrier: m is in the past of k, and public for it. */
  lemma BehindFacts(w: World, k: nat, p: nat, m: Msg)
    requires PutBack(w, k, p, m) && p < |w.s.subs| && Behind(Changed(w, AddSub(k, p)).s, p, m)
    ensures var w' := Changed(w, AddSub(k, p));
            && Times(w'.s, p, m) == 0 && Count(w'.past[p], m) == 1 && Open(w'.s, p, m)
            && m.id <= w'.s.subs[p].maxPub
  {
    PutBackParts(w, k, p, m);
    OpenIsBehind(w, k, p, m);
    HadOnce(w, k, p, m);
    PrivatePast(w, k, p, m);
    hide PutBack, Can, Changed, CalmChange, Times, Open, OnceInv, Count;
    var w' := Changed(w, AddSub(k, p));
    WorldIsInTransit(w');
    hide WorldInv, TransitInv;
    BehindIsEmpty(w'.s, p, m);
  }

  lemma ResubscribedKeepsOpen(s: State, k: nat, m: Msg)
    requires TransitInv(s) && k < |s.subs| && m.id <= s.subs[k].maxPub && Open(s, k, m)
    ensures Enabled(s, Subscribe(k, m.id))
    ensures var s' := Apply(s, Subscribe(k, m.id));
            TransitInv(s') && |s'.subs| == |s.subs| && Owed(s', k, m) && s'.handled == s.handled
  {
    var step := Subscribe(k, m.id);
    var s' := Apply(s, step);
    StepKeepsTransitInv(s, step);
    SubscribeFrame(s, k, m.id);
    assert s'.subs[k].Wants(m.id);
    hide Apply, Enabled, TransitInv;
    SubscriptionsKeepOpen(s, s', k, m);
  }

  /** What is owed is delivered when the framework is left alone. */
  lemma OwedIsDelivered(w: World, k: nat, m: Msg) returns (cs: seq<Change>)
    requires WorldInv(w) && k < |w.s.subs| && Owed(w.s, k, m)
    ensures CanRun(w, cs) && CalmRun(w, cs) && StaysOn(cs, k) && WhereAfter(cs, k) == k
    ensures Count(Calls(End(w, cs), k), m) == Count(w.past[k], m) + 1
  {
    TransitParts(w.s);
    hide WorldInv, Owed, Inv, Stuck, Quiet, DrainRun;
    var steps := DrainAll(w.s, {});
    cs := Dos(steps);
    DrainFixes(steps);
    DosRun(w, steps, k);
    DosStay(steps, k);
    var e := Exec(w.s, steps);
    WorldIsInTransit(w);
    DrainRunKeepsOwed(w.s, steps, {}, k, m);
    QuietIsAtRest(e, m);
    OwedIsHandled(e, k, m);
    CountConcat(w.past[k], e.handled[k], m);
    hide TransitInv, Count, Exec, IsRun;
  }

  lemma WorldIsInTransit(w: World)
    requires WorldInv(w)
    ensures TransitInv(w.s)
  {
    hide TransitInv;
  }

  lemma DrainFixes(steps: seq<Step>)
    requires DrainRun(steps, {})
    ensures FixedSubscriptions(steps)
  {
    forall i | 0 <= i < |steps| ensures !Resubscribes(steps[i]) { assert Drains(steps[i], {}); }
  }

  lemma {:induction false} DosStay(steps: seq<Step>, k: nat)
    ensures StaysOn(Dos(steps), k)
    decreases |steps|
  {
    if steps != [] {
      DosStay(steps[1..], k);
      assert Dos(steps)[1..] == Dos(steps[1..]);
    }
  }

  /** It subscribes to the id, if it has not, and the framework is left alone. */
  lemma SubscribedAgain(w: World, k: nat, m: Msg) returns (cs: seq<Change>)
    requires WorldInv(w) && k < |w.s.subs| && w.off[k].None?
    requires Open(w.s, k, m) && m.id <= w.s.subs[k].maxPub
    ensures CanRun(w, cs) && CalmRun(w, cs) && StaysOn(cs, k) && WhereAfter(cs, k) == k
    ensures Count(Calls(End(w, cs), k), m) == Count(w.past[k], m) + 1
  {
    WorldIsInTransit(w);
    var c := Do(Subscribe(k, m.id));
    assert Sized(w);
    hide WorldInv, TransitInv, Apply, Open, Owed;
    ResubscribedKeepsOpen(w.s, k, m);
    assert Can(w, c) && CalmChange(w, c) && !OffTheList(w, c.step);
    ChangeKeepsWorldInv(w, c);
    var w' := Changed(w, c);
    hide Can, Changed, CalmChange, Enabled, Count;
    var rest := OwedIsDelivered(w', k, m);
    ConsRun(w, c, rest);
    cs := [c] + rest;
    assert cs[1..] == rest;
  }

  lemma BehindIsAgain(w: World, k: nat, p: nat, m: Msg) returns (cs: seq<Change>)
    requires PutBack(w, k, p, m) && p < |w.s.subs| && Behind(Changed(w, AddSub(k, p)).s, p, m)
    ensures Again(Changed(w, AddSub(k, p)), cs, p, m)
  {
    PutBackParts(w, k, p, m);
    assert Changed(w, AddSub(k, p)).off[p].None?;
    hide PutBack, WorldInv, Can, Changed, CalmChange, Open, Behind, Times, Count;
    BehindFacts(w, k, p, m);
    cs := SubscribedAgain(Changed(w, AddSub(k, p)), p, m);
  }

  /** k has had m and is put back on the list at position p. Its handler is called with m a second time in
      some continuation in which it stays there, if and only if a fifo subscriber in front of it still
      carries m as a public message. */
  lemma SecondDeliveryIff(w: World, k: nat, p: nat, m: Msg)
    requires PutBack(w, k, p, m)
    ensures p < |w.s.subs|
    ensures (exists cs :: Again(Changed(w, AddSub(k, p)), cs, p, m)) <==> Behind(Changed(w, AddSub(k, p)).s, p, m)
  {
    PutBackParts(w, k, p, m);
    var w' := Changed(w, AddSub(k, p));
    if Behind(w'.s, p, m) {
      var cs := BehindIsAgain(w, k, p, m);
      assert Again(w', cs, p, m);
    } else {
      OwnKeepsOnceInv(w, k, p, m);
      forall cs ensures !Again(w', cs, p, m) { NeverAgain(w', cs, p, m); }
    }
    hide WorldInv, OnceInv, Again, Behind, Changed, Can, CalmChange;
  }

  lemma OwedWhenPutBack(w: World, k: nat, p: nat, m: Msg)
    requires PutBack(w, k, p, m) && p < |w.s.subs|
    ensures var w' := Changed(w, AddSub(k, p));
            Count(w'.past[p], m) + (if Owed(w'.s, p, m) then 1 else 0)
            == if Behind(w'.s, p, m) && w'.s.subs[p].Wants(m.id) then 2 else 1
  {
    OpenIsBehind(w, k, p, m);
    hide PutBack, WorldInv, OnceInv, Behind, Changed, Can, CalmChange, Open, Addressed, Times, Count;
    HadOnce(w, k, p, m);
    if Behind(Changed(w, AddSub(k, p)).s, p, m) { BehindFacts(w, k, p, m); }
  }

  /** And left alone from there, by any schedule, the framework calls it a second time if and only if, besides,
      it takes the id of m. */
  lemma SecondCallWhenDrained(w: World, k: nat, p: nat, m: Msg, steps: seq<Step>)
    requires PutBack(w, k, p, m) && p < |w.s.subs|
    requires var s' := Changed(w, AddSub(k, p)).s;
             IsRun(s', steps) && DrainRun(steps, {}) && Stuck(Exec(s', steps))
    ensures var w' := Changed(w, AddSub(k, p));
            var e := Exec(w'.s, steps);
            && |e.subs| == |w'.s.subs|
            && Count(w'.past[p] + e.handled[p], m)
            == if Behind(w'.s, p, m) && w'.s.subs[p].Wants(m.id) then 2 else 1
  {
    hide Stuck, Quiet, Exec, IsRun, DrainRun;
    var w' := Changed(w, AddSub(k, p));
    PutBackParts(w, k, p, m);
    OwedWhenPutBack(w, k, p, m);
    hide PutBack, WorldInv, TransitInv, Behind, Changed, Can, CalmChange, Owed, Times;
    WorldIsInTransit(w');
    EveryScheduleDelivers(w'.s, steps);
    CountConcat(w'.past[p], Exec(w'.s, steps).handled[p], m);
    hide Count;
  }

  // ----- it happens -----

  /** m has come to rest everywhere except at the paused fifo subscriber j, behind k. */
  lemma HeldUp(s: State, k: nat, j: nat, m: Msg)
    requires TransitInv(s) && Quiet(s, {j}) && Paused(s, {j}) && k < j < |s.subs|
    requires s.subs[k].rxType.Fifo? && s.subs[j].rxType.Fifo?
    requires Owed(s, k, m) && Owed(s, j, m) && s.handled[j] == []
    ensures s.mutex.Unowned? && s.poll[k].Ready? && s.q[k] == [] && m in s.handled[k] && Carries(s, j, m)
  {
    forall i | 0 <= i < j ensures !Carries(s, i, m) {}
    if s.mutex.ByPoller? { HolderRelays(s); }
    assert !Upstream(s, k, m) && !Upstream(s, j, m);
    CountIn(Arrived(s, k), m);
    CountIn(Arrived(s, j), m);
    hide TransitInv, Upstream;
  }

  /** One message published, handled by k, and still queued at j. */
  lemma PublishedAndHeldUp(subs: seq<Sub>, pool: set<Block>, k: nat, j: nat, x: nat)
    returns (steps: seq<Step>, m: Msg)
    requires ValidSubs(subs) && pool != {} && k < j < |subs|
    requires subs[k].rxType.Fifo? && subs[j].rxType.Fifo? && subs[k].Wants(x) && subs[j].Wants(x)
    ensures m.id == x && IsRun(Init(subs, pool), steps) && FixedSubscriptions(steps)
    ensures var s := Exec(Init(subs, pool), steps);
            && s.subs == subs && s.mutex.Unowned? && s.poll[k].Ready? && s.q[k] == []
            && m in s.handled[k] && Carries(s, j, m)
  {
    var b :| b in pool;
    m := Msg(0, x, b);
    var s0 := Init(subs, pool);
    assert x <= MAX_MSG_ID;
    InitDeliveryInv(subs, pool);
    InitTransitInv(subs, pool);
    StartIsIdle(subs, pool, j);
    hide Apply, Enabled, TransitInv, DeliveryInv, ValidSubs, Quiet, Paused;
    var first := PublishNew(s0, x, b);
    var s1 := Exec(s0, first);
    RunKeepsTransitInv(s0, first);
    PausedAtStart(s1, j);
    OwedAtStart(s1, k, m);
    OwedAtStart(s1, j, m);
    TransitParts(s1);
    hide Init, Inv, Owed;
    var drain := DrainAll(s1, {j});
    DrainRunKeepsOwed(s1, drain, {j}, k, m);
    DrainRunKeepsOwed(s1, drain, {j}, j, m);
    DrainRunPauses(s1, drain, j);
    DrainFixesAll(drain, {j});
    HeldUp(Exec(s1, drain), k, j, m);
    RunConcat(s0, first, drain);
    steps := first + drain;
  }

  lemma PausedAtStart(s: State, j: nat)
    requires Shaped(s) && j < |s.subs| && s.subs[j].rxType.Fifo? && s.poll[j].Ready?
    ensures Paused(s, {j})
  {
  }

  lemma OwedAtStart(s: State, k: nat, m: Msg)
    requires Shaped(s) && k < |s.subs| && m in s.pub && s.subs[k].Wants(m.id)
    ensures Owed(s, k, m)
  {
  }

  lemma DrainFixesAll(steps: seq<Step>, paused: set<nat>)
    requires DrainRun(steps, paused)
    ensures FixedSubscriptions(steps)
  {
    forall i | 0 <= i < |steps| ensures !Resubscribes(steps[i]) { assert Drains(steps[i], paused); }
  }

  lemma {:induction false} DrainRunPauses(s: State, steps: seq<Step>, j: nat)
    requires Inv(s) && Paused(s, {j}) && IsRun(s, steps) && DrainRun(steps, {j})
    ensures Paused(Exec(s, steps), {j})
    decreases |steps|
  {
    hide Apply, Enabled, PcInv, RefInv;
    if steps != [] {
      assert Drains(steps[0], {j});
      DrainKeeps(s, steps[0], {j});
      DrainRunPauses(Apply(s, steps[0]), steps[1..], j);
    }
  }

  /** Then k is taken off the list and put back behind j. */
  lemma PutBackBehind(w: World, k: nat, j: nat, m: Msg)
    requires WorldInv(w) && k < j < |w.s.subs| && w.off[k].None? && w.past[k] == []
    requires w.s.subs[k].rxType.Fifo? && w.s.subs[j].rxType.Fifo? && w.s.mutex.Unowned?
    requires w.s.poll[k].Ready? && w.s.q[k] == [] && m in w.s.handled[k]
    requires Carries(w.s, j, m) && m.id <= w.s.subs[j].maxPub
    ensures Can(w, RemoveSub(k))
    ensures var w1 := Changed(w, RemoveSub(k));
            PutBack(w1, k, j, m) && Behind(Changed(w1, AddSub(k, j)).s, j, m)
  {
    assert Pre(w.s.poll[k]) + w.s.q[k] == [];
    RemoveKeepsWorldInv(w, k);
    var w1 := Changed(w, RemoveSub(k));
    AtMostOnce(w.s, k, m);
    assert Times(w1.s, k, m) == Times(w.s, k, m) <= 1;
    assert Carries(w1.s, j, m);
    hide TransitInv, OffAt, Carries, Times, ValidSubs;
    BackBehind(w1, k, j, m);
  }

  lemma BackBehind(w: World, k: nat, j: nat, m: Msg)
    requires WorldInv(w) && k < j < |w.s.subs| && w.off[k].Some? && w.past[k] == []
    requires w.s.subs[k].rxType.Fifo? && w.s.mutex.Unowned? && w.s.poll[k].Ready?
    requires m in w.s.handled[k] && Times(w.s, k, m) <= 1
    requires Carries(w.s, j, m) && m.id <= w.s.subs[j].maxPub
    ensures PutBack(w, k, j, m) && Behind(Changed(w, AddSub(k, j)).s, j, m)
  {
    var taken := w.off[k].value;
    TransitParts(w.s);
    FifoMayMove(w.s, k, j, taken);
    assert CanPlace(w.s, k, j, taken) && Can(w, AddSub(k, j)) && Recent(w.s, k) == [];
    hide TransitInv, OffAt, Placed, Carries, Times, ValidSubs;
    assert OnceInv(w, k, m) && CalmChange(w, AddSub(k, j));
    PlacedCarries(w.s, k, j, taken, j - 1, m);
    PlacedAt(w.s, k, j, taken, j - 1);
    assert Carries(Placed(w.s, k, j, taken), j - 1, m);
  }

  lemma MovedTypes(subs: seq<Sub>, masked: seq<Sub>, k: nat, j: nat)
    requires ValidSubs(subs) && k < j < |subs| && |masked| == |subs|
    requires forall i :: 0 <= i < |subs| ==>
               && masked[i].rxType == subs[i].rxType && masked[i].maxPub == subs[i].maxPub
               && masked[i].capacity == subs[i].capacity
    requires forall i :: k <= i < |subs| ==> subs[i].rxType == Fifo
    ensures ValidSubs(Moved(masked, k, j))
  {
    var moved := Moved(masked, k, j);
    assert TypesOf(moved) == TypesOf(subs);
    forall i | 0 <= i < |subs| ensures moved[i].maxPub <= MAX_MSG_ID { ThereAndBack(k, j, i, |subs|); }
    forall i | 0 <= i < |subs| && moved[i].rxType == Msgq ensures moved[i].capacity >= 1 {
      ThereAndBack(k, j, i, |subs|);
    }
  }

  lemma FifoMayMove(s: State, k: nat, j: nat, taken: set<nat>)
    requires Shaped(s) && PcInv(s) && k < j < |s.subs| && s.subs[k].rxType.Fifo?
    ensures ValidSubs(Placed(s, k, j, taken).subs)
  {
    var masked := s.subs[k := s.subs[k].(subscribed := taken)];
    assert forall i {:trigger s.subs[i]} :: k <= i < |s.subs| ==> s.subs[i].rxType == Fifo by {
      forall i | k < i < |s.subs| ensures s.subs[i].rxType == Fifo { AfterFifo(s.subs, k, i); }
    }
    hide PollInv, BrokerPcInv;
    MovedTypes(s.subs, masked, k, j);
  }

  /** For any list with two fifo subscribers that take a common id there is a run in which the handler of the
      first is called twice with one message. */
  lemma HandledTwice(subs: seq<Sub>, pool: set<Block>, on: set<nat>, k: nat, j: nat, x: nat)
    returns (cs: seq<Change>, m: Msg)
    requires ValidSubs(subs) && pool != {} && k < j < |subs| && k in on && j in on
    requires subs[k].rxType.Fifo? && subs[j].rxType.Fifo? && subs[k].Wants(x) && subs[j].Wants(x)
    ensures var w := InitWorld(subs, pool, on);
            && CanRun(w, cs) && CalmRun(w, cs) && WhereAfter(cs, k) < |subs|
            && Count(Calls(End(w, cs), WhereAfter(cs, k)), m) >= 2
  {
    var w, listed := InitWorld(subs, pool, on), OnList(subs, on);
    InitWorldInv(subs, pool, on);
    OnlyListed(subs, on);
    assert w.s == Init(listed, pool) && w.off[k].None? && w.past[k] == [];
    hide InitWorld, ValidSubs, Init;
    var steps;
    steps, m := PublishedAndHeldUp(listed, pool, k, j, x);
    hide OnList;
    DosRun(w, steps, k);
    DosKeepWorldInv(w, steps);
    var w1 := w.(s := Exec(w.s, steps));
    PutBackBehind(w1, k, j, m);
    var more := HandledAgain(w1, k, j, m);
    ConcatRun(w, Dos(steps), more, k);
    cs := Dos(steps) + more;
    hide WorldInv, Can, Changed, Count;
  }

  lemma {:induction false} DosKeepWorldInv(w: World, steps: seq<Step>)
    requires WorldInv(w) && IsRun(w.s, steps) && FixedSubscriptions(steps)
    ensures WorldInv(w.(s := Exec(w.s, steps)))
    decreases |steps|
  {
    hide Apply, Enabled, TransitInv, OffAt;
    if steps != [] {
      StepIsChange(w, steps[0]);
      ChangeKeepsWorldInv(w, Do(steps[0]));
      DosKeepWorldInv(w.(s := Apply(w.s, steps[0])), steps[1..]);
    }
  }

  lemma PutBackIsCalm(w: World, k: nat, p: nat, m: Msg)
    requires PutBack(w, k, p, m)
    ensures Sized(w) && Can(w, AddSub(k, p)) && CalmChange(w, AddSub(k, p))
  {
    hide Can, CalmChange, OnceInv, TransitInv;
  }

  lemma WhereMoved(k: nat, j: nat)
    ensures Where(RemoveSub(k), k) == k && Where(AddSub(k, j), k) == j
  {
  }

  lemma HandledAgain(w: World, k: nat, j: nat, m: Msg) returns (cs: seq<Change>)
    requires Sized(w) && Can(w, RemoveSub(k)) && j < |w.s.subs|
    requires PutBack(Changed(w, RemoveSub(k)), k, j, m)
    requires Behind(Changed(Changed(w, RemoveSub(k)), AddSub(k, j)).s, j, m)
    ensures CanRun(w, cs) && CalmRun(w, cs) && WhereAfter(cs, k) < |w.s.subs|
    ensures Count(Calls(End(w, cs), WhereAfter(cs, k)), m) >= 2
  {
    var w1 := Changed(w, RemoveSub(k));
    PutBackParts(w1, k, j, m);
    PutBackIsCalm(w1, k, j, m);
    assert CalmChange(w, RemoveSub(k));
    hide PutBack, WorldInv, Can, Changed, CalmChange, Behind, Count, End;
    WhereMoved(k, j);
    var rest := BehindIsAgain(w1, k, j, m);
    ConsRun(w1, AddSub(k, j), rest);
    ConsRun(w, RemoveSub(k), [AddSub(k, j)] + rest);
    cs := [RemoveSub(k)] + ([AddSub(k, j)] + rest);
  }
}
