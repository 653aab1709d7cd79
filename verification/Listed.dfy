/** Who a message is meant for while subscribers come and go, read off the changes of a run: who is on the
    list, who has subscribed to its id last, and how it was published. */
module Listed {
  import opened Types
  import opened Protocol
  import opened Frames
  import opened Logs
  import opened Delivery
  import opened Transit
  import opened Intended
  import opened ListChange

  /** Where the subscriber at position k is at the end of a run. */
  function WhereAfter(cs: seq<Change>, k: nat): nat {
    if cs == [] then k else WhereAfter(cs[1..], Where(cs[0], k))
  }

  ghost function End(w: World, cs: seq<Change>): (r: World)
    requires Sized(w) && CanRun(w, cs)
    ensures Sized(r) && |r.s.subs| == |w.s.subs|
  {
    WorldAt(w, cs, |cs|)
  }

  lemma EndStep(w: World, cs: seq<Change>)
    requires Sized(w) && CanRun(w, cs) && cs != []
    ensures Can(w, cs[0]) && CanRun(Changed(w, cs[0]), cs[1..])
    ensures End(w, cs) == End(Changed(w, cs[0]), cs[1..])
    ensures CalmRun(w, cs) ==> CalmChange(w, cs[0]) && CalmRun(Changed(w, cs[0]), cs[1..])
  {
  }

  lemma WhereIsThere(w: World, c: Change, k: nat)
    requires Sized(w) && Can(w, c) && k < |w.s.subs|
    ensures Where(c, k) < |w.s.subs|
  {
    if c.AddSub? { ThereAndBack(c.k, c.p, k, |w.s.subs|); }
  }

  // ----- what is true of a subscriber -----

  /** The subscriptions of k, on the list or off it. */
  ghost function Ids(w: World, k: nat): set<nat>
    requires Sized(w) && k < |w.s.subs|
  {
    if w.off[k].Some? then w.off[k].value else w.s.subs[k].subscribed
  }

  /** What may be true of a subscriber: that it takes an id, that it is on the list, that a message has been
      published to the broker, or to it. */
  datatype Fact = Takes(id: nat) | OnTheList | ToAll(m: Msg) | ToIt(m: Msg)

  ghost predicate Holds(w: World, k: nat, fact: Fact)
    requires Sized(w) && k < |w.s.subs|
  {
    match fact
    case Takes(id) => id in Ids(w, k)
    case OnTheList => w.off[k].None?
    case ToAll(m) => SentBroker(w.s, m)
    case ToIt(m) => SentDirect(w.s, k, m)
  }

  /** The change of the subscriber now at position k that makes it true ... */
  predicate Makes(c: Change, k: nat, fact: Fact) {
    match fact
    case Takes(id) => c == Do(Subscribe(k, id))
    case OnTheList => c.AddSub? && c.k == k
    case ToAll(m) => c == Do(Publish(m))
    case ToIt(m) => c == Do(PublishDirect(k, m))
  }

  /** ... and the one that makes it false. */
  predicate Unmakes(c: Change, k: nat, fact: Fact) {
    match fact
    case Takes(id) => c == Do(Unsubscribe(k, id))
    case OnTheList => c == RemoveSub(k)
    case _ => false
  }

  lemma PlacedDecides(w: World, j: nat, p: nat, k: nat, fact: Fact)
    requires Sized(w) && Can(w, AddSub(j, p)) && k < |w.s.subs|
    ensures To(j, p, k) < |w.s.subs|
    ensures Holds(Changed(w, AddSub(j, p)), To(j, p, k), fact) <==>
              Holds(w, k, fact) || Makes(AddSub(j, p), k, fact)
  {
    var k', ids := To(j, p, k), w.off[j].value;
    ThereAndBack(j, p, k, |w.s.subs|);
    PlacedAt(w.s, j, p, ids, k');
    if fact.ToAll? || fact.ToIt? { PlacedRoute(w.s, j, p, ids, k', fact.m); }
    hide Placed, ValidSubs, SentBroker, SentDirect, From, To;
  }

  lemma StepDecides(w: World, step: Step, k: nat, fact: Fact)
    requires Sized(w) && Can(w, Do(step)) && k < |w.s.subs| && !OffTheList(w, step)
    ensures var c := Do(step);
            Holds(Changed(w, c), k, fact) <==> Makes(c, k, fact) || (Holds(w, k, fact) && !Unmakes(c, k, fact))
  {
    hide Apply;
    match fact
    case Takes(id) => StepSubscribes(w.s, step, k, id);
    case OnTheList =>
    case ToAll(m) => StepSends(w.s, step, k, m);
    case ToIt(m) => StepSends(w.s, step, k, m);
  }

  /** One change makes it true, makes it false, or leaves it: in particular neither leaving the list nor coming
      back touches anybody's subscriptions. */
  lemma ChangeDecides(w: World, c: Change, k: nat, fact: Fact)
    requires Sized(w) && Can(w, c) && k < |w.s.subs|
    ensures Where(c, k) < |w.s.subs|
    ensures Holds(Changed(w, c), Where(c, k), fact) <==>
              Makes(c, k, fact) || (Holds(w, k, fact) && !Unmakes(c, k, fact))
  {
    match c
    case Do(step) =>
      if !OffTheList(w, step) { StepDecides(w, step, k, fact); hide Changed, Holds; }
    case AddSub(j, p) =>
      PlacedDecides(w, j, p, k, fact);
      hide Changed, Holds;
    case RemoveSub(_) =>
  }

  // ----- over runs -----

  /** The j-th change makes it true of the subscriber that was at position k at first. */
  ghost predicate MakesAt(cs: seq<Change>, j: nat, k: nat, fact: Fact)
    requires j < |cs|
  {
    Makes(cs[j], WhereAfter(cs[..j], k), fact)
  }

  /** From the j-th change on none makes it false. */
  ghost predicate KeptFrom(cs: seq<Change>, j: nat, k: nat, fact: Fact) {
    forall i {:trigger cs[..i]} :: j <= i < |cs| ==> !Unmakes(cs[i], WhereAfter(cs[..i], k), fact)
  }

  /** It is true after the run, and `before` says whether it was at first: the last change that made it true or
      false made it true, or there was none and it was. */
  ghost predicate LastMakes(before: bool, cs: seq<Change>, k: nat, fact: Fact) {
    || (exists j :: 0 <= j < |cs| && MakesAt(cs, j, k, fact) && KeptFrom(cs, j + 1, k, fact))
    || (before && KeptFrom(cs, 0, k, fact))
  }

  lemma RestAt(c: Change, rest: seq<Change>, k: nat, i: nat)
    requires i < |rest|
    ensures var cs := [c] + rest;
            cs[i + 1] == rest[i] && WhereAfter(cs[..i + 1], k) == WhereAfter(rest[..i], Where(c, k))
  {
    assert ([c] + rest)[..i + 1][1..] == rest[..i];
  }

  lemma RestKept(c: Change, rest: seq<Change>, j: nat, k: nat, fact: Fact)
    ensures KeptFrom([c] + rest, j + 1, k, fact) <==> KeptFrom(rest, j, Where(c, k), fact)
  {
    var cs := [c] + rest;
    hide Unmakes, WhereAfter, Where;
    if KeptFrom(cs, j + 1, k, fact) {
      forall i | j <= i < |rest| ensures !Unmakes(rest[i], WhereAfter(rest[..i], Where(c, k)), fact) {
        RestAt(c, rest, k, i);
      }
    }
    if KeptFrom(rest, j, Where(c, k), fact) {
      forall i | j + 1 <= i < |cs| ensures !Unmakes(cs[i], WhereAfter(cs[..i], k), fact) { RestAt(c, rest, k, i - 1); }
    }
  }

  lemma FirstKept(c: Change, rest: seq<Change>, k: nat, fact: Fact)
    ensures KeptFrom([c] + rest, 0, k, fact) <==> !Unmakes(c, k, fact) && KeptFrom(rest, 0, Where(c, k), fact)
  {
    var cs := [c] + rest;
    RestKept(c, rest, 0, k, fact);
    assert cs[..0] == [] && cs[0] == c && WhereAfter([], k) == k;
    hide Unmakes, WhereAfter, Where;
    assert KeptFrom(cs, 0, k, fact) <==> !Unmakes(c, k, fact) && KeptFrom(cs, 1, k, fact);
  }

  lemma LastOfRestAt(before: bool, c: Change, rest: seq<Change>, k: nat, fact: Fact)
    ensures var b := Makes(c, k, fact) || (before && !Unmakes(c, k, fact));
            LastMakes(before, [c] + rest, k, fact) <==> LastMakes(b, rest, Where(c, k), fact)
  {
    var cs, k' := [c] + rest, Where(c, k);
    FirstKept(c, rest, k, fact);
    RestKept(c, rest, 0, k, fact);
    assert MakesAt(cs, 0, k, fact) <==> Makes(c, k, fact) by { assert cs[..0] == []; }
    hide Makes, Unmakes, WhereAfter, Where, KeptFrom;
    if j :| 0 <= j < |rest| && MakesAt(rest, j, k', fact) && KeptFrom(rest, j + 1, k', fact) {
      RestAt(c, rest, k, j);
      RestKept(c, rest, j + 1, k, fact);
      assert MakesAt(cs, j + 1, k, fact);
    }
    if j :| 0 < j < |cs| && MakesAt(cs, j, k, fact) && KeptFrom(cs, j + 1, k, fact) {
      RestAt(c, rest, k, j - 1);
      RestKept(c, rest, j, k, fact);
      assert MakesAt(rest, j - 1, k', fact);
    }
  }

  lemma {:induction false} RunDecides(w: World, cs: seq<Change>, k: nat, fact: Fact)
    requires Sized(w) && CanRun(w, cs) && k < |w.s.subs|
    ensures WhereAfter(cs, k) < |w.s.subs|
    ensures Holds(End(w, cs), WhereAfter(cs, k), fact) <==> LastMakes(Holds(w, k, fact), cs, k, fact)
    decreases |cs|
  {
    hide Changed, Can, Holds, LastMakes, Where;
    if cs == [] {
      NoneMakes(Holds(w, k, fact), k, fact);
    } else {
      EndStep(w, cs);
      ChangeDecides(w, cs[0], k, fact);
      RunDecides(Changed(w, cs[0]), cs[1..], Where(cs[0], k), fact);
      LastOfRestAt(Holds(w, k, fact), cs[0], cs[1..], k, fact);
      assert cs == [cs[0]] + cs[1..];
      hide End;
    }
  }

  lemma NoneMakes(before: bool, k: nat, fact: Fact)
    ensures LastMakes(before, [], k, fact) <==> before
  {
  }

  /** In every run: a subscriber takes an id, on the list or off it, exactly when the last step that subscribed
      it to the id or unsubscribed it was a subscription, or there was none and it did at first. */
  lemma SubscribedAtIff(w: World, cs: seq<Change>, k: nat, id: nat)
    requires Sized(w) && CanRun(w, cs) && k < |w.s.subs|
    ensures WhereAfter(cs, k) < |w.s.subs|
    ensures id in Ids(End(w, cs), WhereAfter(cs, k)) <==>
              || (exists j :: 0 <= j < |cs| && cs[j] == Do(Subscribe(WhereAfter(cs[..j], k), id)) &&
                    forall i :: j < i < |cs| ==> cs[i] != Do(Unsubscribe(WhereAfter(cs[..i], k), id)))
              || (id in Ids(w, k) && forall i :: 0 <= i < |cs| ==> cs[i] != Do(Unsubscribe(WhereAfter(cs[..i], k), id)))
  {
    RunDecides(w, cs, k, Takes(id));
    hide End, WhereAfter, Ids, CanRun;
    forall j: nat
      ensures KeptFrom(cs, j, k, Takes(id)) <==>
                forall i :: j <= i < |cs| ==> cs[i] != Do(Unsubscribe(WhereAfter(cs[..i], k), id))
    {
    }
    assert forall j :: 0 <= j < |cs| ==>
      (MakesAt(cs, j, k, Takes(id)) <==> cs[j] == Do(Subscribe(WhereAfter(cs[..j], k), id)));
  }

  /** At first every subscriber is as configured, on the list or off it. */
  lemma AtFirst(subs: seq<Sub>, pool: set<Block>, on: set<nat>, k: nat)
    requires ValidSubs(subs) && k < |subs|
    ensures var w := InitWorld(subs, pool, on);
            && Ids(w, k) == subs[k].subscribed && (w.off[k].None? <==> k in on) && Calls(w, k) == []
            && w.s.subs[k].rxType == subs[k].rxType && w.s.subs[k].maxPub == subs[k].maxPub
            && w.s.subs[k].capacity == subs[k].capacity
  {
    OnlyListed(subs, on);
    hide ValidSubs;
  }

  /** Its type, its queue length and its range of ids never change. */
  lemma ChangeKeepsSub(w: World, c: Change, k: nat)
    requires Sized(w) && Can(w, c) && k < |w.s.subs|
    ensures Where(c, k) < |w.s.subs|
    ensures var a, b := w.s.subs[k], Changed(w, c).s.subs[Where(c, k)];
            a.rxType == b.rxType && a.maxPub == b.maxPub && a.capacity == b.capacity
  {
    match c
    case Do(step) => if !OffTheList(w, step) { SubsFrame(w.s, step); hide Apply, Enabled; }
    case AddSub(j, p) => ThereAndBack(j, p, k, |w.s.subs|);
    case RemoveSub(_) =>
  }

  /** A subscriber taken off the list and put on it again has its own subscriptions, queue, thread and calls, and
      nothing but the order of the list has changed. */
  lemma BackAgain(w: World, k: nat, p: nat)
    requires Sized(w) && k < |w.s.subs| && w.off[k].None? && w.s.mutex.Unowned?
    requires w.s.subs[k].rxType.Fifo? ==> forall m :: m in Pre(w.s.poll[k]) + w.s.q[k] ==> m.id > w.s.subs[k].maxPub
    requires p < |w.s.subs| && ValidSubs(Moved(w.s.subs, k, p))
    ensures Can(w, RemoveSub(k)) && Can(Changed(w, RemoveSub(k)), AddSub(k, p))
    ensures var w' := Changed(Changed(w, RemoveSub(k)), AddSub(k, p));
            && w'.s.subs == Moved(w.s.subs, k, p) && w'.off == Moved(w.off, k, p)
            && w'.s.q == Moved(w.s.q, k, p) && w'.s.poll == Moved(w.s.poll, k, p)
            && Calls(w', p) == Calls(w, k)
            && w'.s.pub == w.s.pub && w'.s.broker == w.s.broker && w'.s.hdr == w.s.hdr && w'.s.user == w.s.user
  {
    var w1 := Changed(w, RemoveSub(k));
    assert w1.s.subs[k := w1.s.subs[k].(subscribed := w1.off[k].value)] == w.s.subs;
    assert w1.off[k := None] == w.off;
    assert w1.s.handled[k] == Earlier(w1.s, k) + Recent(w1.s, k);
    assert w.past[k] + Earlier(w1.s, k) + Recent(w1.s, k) == w.past[k] + (Earlier(w1.s, k) + Recent(w1.s, k));
    hide ValidSubs, Earlier, Recent;
  }

  // ----- for whom -----

  ghost predicate HoldsAfter(w: World, cs: seq<Change>, k: nat, fact: Fact)
    requires Sized(w) && k < |w.s.subs|
  {
    LastMakes(Holds(w, k, fact), cs, k, fact)
  }

  /** After the changes m is meant for subscriber k: it has been published to the broker, its id is within range
      for k, k is on the list and has last subscribed to it; or it has been published to k. */
  ghost predicate IntendedAt(w: World, cs: seq<Change>, k: nat, m: Msg)
    requires Sized(w) && k < |w.s.subs|
  {
    || (HoldsAfter(w, cs, k, ToAll(m)) && m.id <= w.s.subs[k].maxPub
        && HoldsAfter(w, cs, k, OnTheList) && HoldsAfter(w, cs, k, Takes(m.id)))
    || HoldsAfter(w, cs, k, ToIt(m))
  }

  lemma IntendedNowAt(w: World, k: nat, m: Msg)
    requires WorldInv(w) && k < |w.s.subs|
    ensures IntendedAt(w, [], k, m) <==> Due(w.s, k, m)
  {
    forall fact ensures HoldsAfter(w, [], k, fact) <==> Holds(w, k, fact) {
      NoneMakes(Holds(w, k, fact), k, fact);
    }
    hide TransitInv, HoldsAfter;
  }

  lemma HoldsAfterRest(w: World, c: Change, rest: seq<Change>, k: nat, fact: Fact)
    requires Sized(w) && Can(w, c) && k < |w.s.subs|
    ensures Where(c, k) < |w.s.subs|
    ensures HoldsAfter(w, [c] + rest, k, fact) <==> HoldsAfter(Changed(w, c), rest, Where(c, k), fact)
  {
    ChangeDecides(w, c, k, fact);
    LastOfRestAt(Holds(w, k, fact), c, rest, k, fact);
    hide Can, Changed, Holds, LastMakes, Where;
  }

  lemma IntendedRestAt(w: World, c: Change, rest: seq<Change>, k: nat, m: Msg)
    requires Sized(w) && Can(w, c) && k < |w.s.subs|
    ensures Where(c, k) < |w.s.subs|
    ensures IntendedAt(w, [c] + rest, k, m) <==> IntendedAt(Changed(w, c), rest, Where(c, k), m)
  {
    ChangeKeepsSub(w, c, k);
    forall fact ensures HoldsAfter(w, [c] + rest, k, fact) <==> HoldsAfter(Changed(w, c), rest, Where(c, k), fact) {
      HoldsAfterRest(w, c, rest, k, fact);
    }
    hide Can, Changed, HoldsAfter, Where;
  }
}
