/** Delivery while subscribers come and go: who gets a message, how often, and exactly when a subscriber that
    is taken off the list and put on it again gets a message a second time. */
module Relisted {
  import opened Types
  import opened Protocol
  import opened Frames
  import opened RefCount
  import opened RefSafety
  import opened Logs
  import opened Delivery
  import opened Transit
  import opened OnTheWay
  import opened Completion
  import opened ListChange
  import opened Listed

  // ----- what others are owed -----

  lemma PlacedKeepsBroker(s: State, k: nat, p: nat, subscribed: set<nat>, j: nat, m: Msg)
    requires Shaped(s) && PcInv(s) && CanPlace(s, k, p, subscribed) && j < |s.subs|
    ensures var s' := Placed(s, k, p, subscribed);
            && (AtBroker(s', j, m) <==> m in s.pub || s.broker == Taken(m))
            && (AtBroker(s, j, m) <==> m in s.pub || s.broker == Taken(m))
            && !Addressed(s', j, m) && !Addressed(s, j, m)
  {
    PlacedStore(s, k, p, subscribed);
  }

  lemma PlacedFeeds(s: State, k: nat, p: nat, subscribed: set<nat>, i: nat, j: nat, m: Msg)
    requires Shaped(s) && PcInv(s) && CanPlace(s, k, p, subscribed) && i < |s.subs|
    ensures From(k, p, i) < |s.subs|
    ensures Feeds(Placed(s, k, p, subscribed), i, j, m) <==>
              Carries(s, From(k, p, i), m) && m.id <= s.subs[From(k, p, i)].maxPub
  {
    PlacedCarries(s, k, p, subscribed, i, m);
    PlacedAt(s, k, p, subscribed, i);
    assert PollInv(s, From(k, p, i));
    hide Placed, Carries;
  }

  lemma FeedsUnlocked(s: State, i: nat, j: nat, m: Msg)
    requires Shaped(s) && PcInv(s) && s.mutex.Unowned? && i < |s.subs|
    ensures Feeds(s, i, j, m) <==> Carries(s, i, m) && m.id <= s.subs[i].maxPub
  {
    assert PollInv(s, i);
    hide Carries;
  }

  /** The others stand in the same order behind the same carriers. */
  lemma UpstreamBefore(s: State, k: nat, p: nat, subscribed: set<nat>, j: nat, m: Msg)
    requires Shaped(s) && PcInv(s) && CanPlace(s, k, p, subscribed) && OffAt(s, k) && j < |s.subs| && j != p
    requires Upstream(Placed(s, k, p, subscribed), j, m)
    ensures From(k, p, j) < |s.subs| && Upstream(s, From(k, p, j), m)
  {
    hide Placed, ValidSubs, Feeds, OffAt, PcInv, From;
    ThereAndBack(k, p, j, |s.subs|);
    var i :| 0 <= i < j && Feeds(Placed(s, k, p, subscribed), i, j, m);
    FeedBefore(s, k, p, subscribed, i, j, m);
    assert Feeds(s, From(k, p, i), From(k, p, j), m);
  }

  lemma FeedBefore(s: State, k: nat, p: nat, subscribed: set<nat>, i: nat, j: nat, m: Msg)
    requires Shaped(s) && PcInv(s) && CanPlace(s, k, p, subscribed) && OffAt(s, k) && i < j < |s.subs| && j != p
    requires Feeds(Placed(s, k, p, subscribed), i, j, m)
    ensures From(k, p, i) < From(k, p, j) < |s.subs| && Feeds(s, From(k, p, i), From(k, p, j), m)
  {
    ThereAndBack(k, p, j, |s.subs|);
    hide Placed, ValidSubs, Feeds;
    PlacedFeeds(s, k, p, subscribed, i, j, m);
    FeedsUnlocked(s, From(k, p, i), From(k, p, j), m);
  }

  lemma UpstreamAfter(s: State, k: nat, p: nat, subscribed: set<nat>, j: nat, m: Msg)
    requires Shaped(s) && PcInv(s) && CanPlace(s, k, p, subscribed) && OffAt(s, k) && j < |s.subs| && j != k
    requires Upstream(s, j, m)
    ensures To(k, p, j) < |s.subs| && Upstream(Placed(s, k, p, subscribed), To(k, p, j), m)
  {
    hide Placed, ValidSubs, Feeds, OffAt, PcInv, To;
    ThereAndBack(k, p, j, |s.subs|);
    var i :| 0 <= i < j && Feeds(s, i, j, m);
    FeedAfter(s, k, p, subscribed, i, j, m);
    assert Feeds(Placed(s, k, p, subscribed), To(k, p, i), To(k, p, j), m);
  }

  lemma FeedAfter(s: State, k: nat, p: nat, subscribed: set<nat>, i: nat, j: nat, m: Msg)
    requires Shaped(s) && PcInv(s) && CanPlace(s, k, p, subscribed) && OffAt(s, k) && i < j < |s.subs| && j != k
    requires Feeds(s, i, j, m)
    ensures To(k, p, i) < To(k, p, j) < |s.subs| && Feeds(Placed(s, k, p, subscribed), To(k, p, i), To(k, p, j), m)
  {
    ThereAndBack(k, p, i, |s.subs|);
    ThereAndBack(k, p, j, |s.subs|);
    hide Placed, ValidSubs, Feeds;
    FeedsUnlocked(s, i, j, m);
    PlacedFeeds(s, k, p, subscribed, To(k, p, i), To(k, p, j), m);
  }

  lemma PlacedKeepsUpstream(s: State, k: nat, p: nat, subscribed: set<nat>, j: nat, m: Msg)
    requires Shaped(s) && PcInv(s) && CanPlace(s, k, p, subscribed) && OffAt(s, k) && j < |s.subs| && j != k
    ensures To(k, p, j) < |s.subs|
    ensures Upstream(Placed(s, k, p, subscribed), To(k, p, j), m) <==> Upstream(s, j, m)
  {
    hide Placed, Upstream, OffAt, PcInv, ValidSubs;
    ThereAndBack(k, p, j, |s.subs|);
    if Upstream(Placed(s, k, p, subscribed), To(k, p, j), m) { UpstreamBefore(s, k, p, subscribed, To(k, p, j), m); }
    if Upstream(s, j, m) { UpstreamAfter(s, k, p, subscribed, j, m); }
  }

  lemma PlacedKeepsOpen(s: State, k: nat, p: nat, subscribed: set<nat>, j: nat, m: Msg)
    requires Shaped(s) && PcInv(s) && CanPlace(s, k, p, subscribed) && OffAt(s, k) && j < |s.subs| && j != k
    ensures To(k, p, j) < |s.subs|
    ensures Open(Placed(s, k, p, subscribed), To(k, p, j), m) <==> Open(s, j, m)
  {
    ThereAndBack(k, p, j, |s.subs|);
    PlacedKeepsUpstream(s, k, p, subscribed, j, m);
    PlacedKeepsBroker(s, k, p, subscribed, j, m);
    PlacedKeepsBroker(s, k, p, subscribed, To(k, p, j), m);
    hide Placed, AtBroker, Upstream;
  }

  lemma PlacedKeepsOwed(s: State, k: nat, p: nat, subscribed: set<nat>, j: nat, m: Msg)
    requires TransitInv(s) && CanPlace(s, k, p, subscribed) && OffAt(s, k) && j < |s.subs| && j != k
    ensures To(k, p, j) < |s.subs|
    ensures Owed(Placed(s, k, p, subscribed), To(k, p, j), m) <==> Owed(s, j, m)
  {
    TransitParts(s);
    var j' := To(k, p, j);
    ThereAndBack(k, p, j, |s.subs|);
    PlacedKeepsOpen(s, k, p, subscribed, j, m);
    PlacedKeepsBroker(s, k, p, subscribed, j, m);
    PlacedKeepsBroker(s, k, p, subscribed, j', m);
    PlacedTimes(s, k, p, subscribed, j', m);
    PlacedAt(s, k, p, subscribed, j');
    hide Placed, TransitInv, Open, Addressed, Times, OffAt, ValidSubs;
  }

  lemma PlacedKeepsDue(s: State, k: nat, p: nat, subscribed: set<nat>, j: nat, m: Msg)
    requires Shaped(s) && CanPlace(s, k, p, subscribed) && j < |s.subs| && j != k
    ensures To(k, p, j) < |s.subs|
    ensures Due(Placed(s, k, p, subscribed), To(k, p, j), m) <==> Due(s, j, m)
  {
    ThereAndBack(k, p, j, |s.subs|);
    PlacedRoute(s, k, p, subscribed, To(k, p, j), m);
    PlacedAt(s, k, p, subscribed, To(k, p, j));
    hide Placed, SentDirect, SentBroker;
  }

  lemma MaskedKeepsOpen(s: State, k: nat, j: nat, m: Msg)
    requires Shaped(s) && k < |s.subs| && j < |s.subs|
    ensures Open(Masked(s, k), j, m) <==> Open(s, j, m)
    ensures Addressed(Masked(s, k), j, m) <==> Addressed(s, j, m)
    ensures Times(Masked(s, k), j, m) == Times(s, j, m)
  {
    var s' := Masked(s, k);
    forall i | 0 <= i < |s.subs| ensures Feeds(s', i, j, m) <==> Feeds(s, i, j, m) {}
    if Upstream(s', j, m) {
      var i :| 0 <= i < j && Feeds(s', i, j, m);
      assert Feeds(s, i, j, m);
    }
    if Upstream(s, j, m) {
      var i :| 0 <= i < j && Feeds(s, i, j, m);
      assert Feeds(s', i, j, m);
    }
  }

  /** A change of k's own: of its subscription to an id, or of its place on the list. */
  predicate Concerns(c: Change, k: nat, id: nat) {
    match c
    case Do(step) => Retakes(step, k, id)
    case AddSub(j, _) => j == k
    case RemoveSub(j) => j == k
  }

  /** No change alters what k is owed of m, except the publication of m and a change of k's own. */
  lemma ChangeKeepsOwed(w: World, c: Change, k: nat, m: Msg)
    requires WorldInv(w) && Can(w, c) && k < |w.s.subs| && !Concerns(c, k, m.id)
    requires c != Do(Publish(m)) && c != Do(PublishDirect(k, m))
    ensures Where(c, k) < |w.s.subs|
    ensures var w' := Changed(w, c); Owed(w'.s, Where(c, k), m) <==> Owed(w.s, k, m)
  {
    hide Owed, Apply, Enabled, TransitInv, OffAt, Placed, Masked;
    match c
    case Do(step) => if !OffTheList(w, step) { StepKeepsOwed(w.s, step, k, m); }
    case AddSub(j, p) => PlacedKeepsOwed(w.s, j, p, w.off[j].value, k, m);
    case RemoveSub(j) => MaskedKeepsOwed(w.s, j, k, m);
  }

  lemma MaskedKeepsOwed(s: State, k: nat, j: nat, m: Msg)
    requires Shaped(s) && k < |s.subs| && j < |s.subs| && j != k
    ensures Owed(Masked(s, k), j, m) <==> Owed(s, j, m)
  {
    MaskedKeepsOpen(s, k, j, m);
    hide Open, Addressed, Times;
  }

  lemma ChangeKeepsDue(w: World, c: Change, k: nat, m: Msg)
    requires WorldInv(w) && Can(w, c) && k < |w.s.subs| && !Concerns(c, k, m.id)
    requires c != Do(Publish(m)) && c != Do(PublishDirect(k, m))
    ensures Where(c, k) < |w.s.subs|
    ensures var w' := Changed(w, c); Due(w'.s, Where(c, k), m) <==> Due(w.s, k, m)
  {
    hide Apply, Enabled, TransitInv, OffAt, Placed;
    match c
    case Do(step) => if !OffTheList(w, step) { hide Due; DueSame(w.s, step, k, m); }
    case AddSub(j, p) => hide Due; PlacedKeepsDue(w.s, j, p, w.off[j].value, k, m);
    case RemoveSub(j) =>
  }

  // ----- once, whatever the list does -----

  /** Nothing more of m comes to k. */
  ghost predicate Shut(s: State, k: nat, m: Msg)
    requires Shaped(s) && k < |s.subs|
  {
    m in s.sent && !Open(s, k, m) && !Addressed(s, k, m)
  }

  /** Over all its times on the list m is at k at most once, and never again after it was taken off. */
  ghost predicate OnceInv(w: World, k: nat, m: Msg)
    requires Sized(w) && k < |w.s.subs|
  {
    && Count(w.past[k], m) + Times(w.s, k, m) <= 1
    && (m in w.past[k] ==> Shut(w.s, k, m))
    && (m in w.past[k] && m.id > w.s.subs[k].maxPub ==> SentDirect(w.s, k, m))
  }

  /** A fifo subscriber in front of position p still carries m as a public message. */
  ghost predicate Behind(s: State, p: nat, m: Msg)
    requires Shaped(s) && p < |s.subs|
  {
    exists i {:trigger Carries(s, i, m)} :: 0 <= i < p && Carries(s, i, m) && m.id <= s.subs[i].maxPub
  }

  /** k is not put back behind a fifo subscriber that still carries m when it has had m before. */
  ghost predicate CleanChange(w: World, c: Change, k: nat, m: Msg)
    requires Sized(w) && Can(w, c) && k < |w.s.subs|
  {
    c.AddSub? && c.k == k && m in Calls(w, k) ==> !Behind(Changed(w, c).s, c.p, m)
  }

  lemma ShutStays(s: State, step: Step, k: nat, m: Msg)
    requires TransitInv(s) && Enabled(s, step) && k < |s.subs| && Shut(s, k, m)
    ensures Shut(Apply(s, step), k, m) && Arrival(s, step) != Some(At(k, m))
  {
    hide Apply, TransitInv, Open, Addressed, Arrival;
    TransitParts(s);
    SentStays(s, step, m);
    OpenAfter(s, step, k, m);
    AddressedAfter(s, step, k, m);
    if Arrival(s, step) == Some(At(k, m)) { ArrivalOwed(s, step, k, m); }
    hide Enabled;
  }

  lemma StepKeepsOnceInv(w: World, step: Step, k: nat, m: Msg)
    requires WorldInv(w) && Can(w, Do(step)) && k < |w.s.subs| && OnceInv(w, k, m)
    ensures OnceInv(Changed(w, Do(step)), k, m)
  {
    if !OffTheList(w, step) {
      var s := w.s;
      assert m in w.past[k] ==> m in s.sent;
      hide Apply, TransitInv, Shut, Arrival, OffAt;
      TransitParts(s);
      AtMostOnceAfter(s, step, k, m);
      MaxPubSame(s, step, k);
      CountIn(w.past[k], m);
      if m in w.past[k] {
        SentStays(s, step, m);
        ShutStays(s, step, k, m);
        TimesAfter(s, step, k, m);
      }
      hide Enabled;
    }
  }

  lemma AtMostOnceAfter(s: State, step: Step, k: nat, m: Msg)
    requires TransitInv(s) && Enabled(s, step) && k < |s.subs|
    ensures Times(Apply(s, step), k, m) <= 1
  {
    hide Apply, Enabled;
    StepKeepsTransitInv(s, step);
    AtMostOnce(Apply(s, step), k, m);
    hide TransitInv;
  }

  lemma PlacedKeepsShut(s: State, k: nat, p: nat, subscribed: set<nat>, j: nat, m: Msg)
    requires Shaped(s) && PcInv(s) && CanPlace(s, k, p, subscribed) && OffAt(s, k) && j < |s.subs| && j != k
    ensures To(k, p, j) < |s.subs|
    ensures Shut(s, j, m) ==> Shut(Placed(s, k, p, subscribed), To(k, p, j), m)
  {
    PlacedKeepsOpen(s, k, p, subscribed, j, m);
    PlacedKeepsBroker(s, k, p, subscribed, To(k, p, j), m);
    PlacedRoute(s, k, p, subscribed, 0, m);
    hide Placed, Open, Addressed, OffAt, PcInv, ValidSubs;
  }

  /** What is known of another subscriber at its new position. */
  lemma OtherPlaced(w: World, j: nat, p: nat, k: nat, m: Msg)
    requires Sized(w) && Can(w, AddSub(j, p)) && k < |w.s.subs| && j != k
    ensures var w', k' := Changed(w, AddSub(j, p)), To(j, p, k);
            && k' < |w.s.subs| && w'.past[k'] == w.past[k] && w'.s.handled[k'] == w.s.handled[k]
            && Times(w'.s, k', m) == Times(w.s, k, m)
            && (SentDirect(w'.s, k', m) <==> SentDirect(w.s, k, m))
            && w'.s.subs[k'].maxPub == w.s.subs[k].maxPub
  {
    var taken, k' := w.off[j].value, To(j, p, k);
    ThereAndBack(j, p, k, |w.s.subs|);
    PlacedTimes(w.s, j, p, taken, k', m);
    PlacedRoute(w.s, j, p, taken, k', m);
    PlacedAt(w.s, j, p, taken, k');
    hide Placed, Times, ValidSubs, SentDirect, From, To;
  }

  lemma OthersKeepOnceInv(w: World, c: Change, k: nat, m: Msg)
    requires WorldInv(w) && Can(w, c) && k < |w.s.subs| && OnceInv(w, k, m) && c.AddSub? && c.k != k
    ensures Where(c, k) < |w.s.subs| && OnceInv(Changed(w, c), Where(c, k), m)
  {
    TransitParts(w.s);
    OtherPlaced(w, c.k, c.p, k, m);
    PlacedKeepsShut(w.s, c.k, c.p, w.off[c.k].value, k, m);
    hide Placed, TransitInv, Shut, Times, OffAt, SentDirect, PcInv;
  }

  lemma RemovalKeepsOnceInv(w: World, c: Change, k: nat, m: Msg)
    requires WorldInv(w) && Can(w, c) && k < |w.s.subs| && OnceInv(w, k, m) && c.RemoveSub?
    ensures OnceInv(Changed(w, c), k, m)
  {
    MaskedKeepsOpen(w.s, c.k, k, m);
    hide TransitInv, Open, Addressed, Times, OffAt;
  }

  lemma PastGrows(w: World, k: nat, p: nat)
    requires Sized(w) && Can(w, AddSub(k, p))
    ensures var w' := Changed(w, AddSub(k, p));
            && w'.past[p] == w.past[k] + Earlier(w.s, k) && Calls(w', p) == Calls(w, k)
  {
    var w' := Changed(w, AddSub(k, p));
    hide Placed, ValidSubs;
    PlacedAt(w.s, k, p, w.off[k].value, p);
    assert w.s.handled[k] == Earlier(w.s, k) + Recent(w.s, k);
    assert w.past[k] + Earlier(w.s, k) + Recent(w.s, k) == w.past[k] + (Earlier(w.s, k) + Recent(w.s, k));
    hide Moved, Earlier, Recent;
  }

  /** What k had before it is put back on the list is not forgotten. */
  lemma NothingForgotten(w: World, k: nat, p: nat, m: Msg)
    requires Sized(w) && Can(w, AddSub(k, p))
    ensures var w' := Changed(w, AddSub(k, p));
            && Count(w'.past[p], m) == Count(w.past[k], m) + Count(Earlier(w.s, k), m)
            && Times(w'.s, p, m) == Times(w.s, k, m) - Count(Earlier(w.s, k), m)
            && Calls(w', p) == Calls(w, k)
  {
    var w' := Changed(w, AddSub(k, p));
    hide Placed, Times, ValidSubs;
    PlacedTimes(w.s, k, p, w.off[k].value, p, m);
    PlacedAt(w.s, k, p, w.off[k].value, p);
    PastGrows(w, k, p);
    CountConcat(w.past[k], Earlier(w.s, k), m);
    hide Changed, Can, Earlier, Recent, Moved, Count;
  }

  /** A message k has had is with the broker no more, so it can only come from a carrier in front. */
  lemma OpenIsBehind(w: World, k: nat, p: nat, m: Msg)
    requires WorldInv(w) && Can(w, AddSub(k, p)) && OnceInv(w, k, m) && m in Calls(w, k)
    ensures var s' := Changed(w, AddSub(k, p)).s;
            && m in s'.sent && !Addressed(s', p, m) && !AtBroker(s', p, m)
            && (Open(s', p, m) <==> Behind(s', p, m))
  {
    var s, s', taken := w.s, Changed(w, AddSub(k, p)).s, w.off[k].value;
    TransitParts(s);
    CallIsHandedOut(w, k, m);
    PlacedKeepsBroker(s, k, p, taken, p, m);
    PlacedRoute(s, k, p, taken, p, m);
    PlacedKeepsPcInv(s, k, p, taken);
    PlacedStore(s, k, p, taken);
    hide Placed, TransitInv, OnceInv, OffAt, ValidSubs, Feeds, Carries;
    forall i | 0 <= i < p ensures Feeds(s', i, p, m) <==> Carries(s', i, m) && m.id <= s'.subs[i].maxPub {
      FeedsUnlocked(s', i, p, m);
    }
    BehindIsUpstream(s', p, m);
  }

  lemma BehindIsUpstream(s: State, p: nat, m: Msg)
    requires Shaped(s) && p < |s.subs|
    requires forall i {:trigger Feeds(s, i, p, m)} {:trigger Carries(s, i, m)} ::
               0 <= i < p ==> (Feeds(s, i, p, m) <==> Carries(s, i, m) && m.id <= s.subs[i].maxPub)
    ensures Upstream(s, p, m) <==> Behind(s, p, m)
  {
    hide Feeds, Carries;
    if Upstream(s, p, m) {
      var i :| 0 <= i < p && Feeds(s, i, p, m);
      assert Carries(s, i, m);
    }
    if Behind(s, p, m) {
      var i :| 0 <= i < p && Carries(s, i, m) && m.id <= s.subs[i].maxPub;
      assert Feeds(s, i, p, m);
    }
  }

  lemma CallIsHandedOut(w: World, k: nat, m: Msg)
    requires WorldInv(w) && k < |w.s.subs| && OnceInv(w, k, m) && m in Calls(w, k)
    ensures m in w.s.sent && m !in w.s.pub && w.s.broker != Taken(m)
  {
    var s := w.s;
    if m in s.handled[k] {
      assert MsgTransit(s, m);
      CountIn(Arrived(s, k), m);
      assert Times(s, k, m) > 0;
    }
  }

  lemma OwnKeepsOnceInv(w: World, k: nat, p: nat, m: Msg)
    requires WorldInv(w) && Can(w, AddSub(k, p)) && OnceInv(w, k, m)
    requires m in Calls(w, k) ==> !Behind(Changed(w, AddSub(k, p)).s, p, m)
    ensures p < |w.s.subs| && OnceInv(Changed(w, AddSub(k, p)), p, m)
  {
    var w' := Changed(w, AddSub(k, p));
    NothingForgotten(w, k, p, m);
    CountIn(Earlier(w.s, k), m);
    if m in w'.past[p] {
      assert m in Calls(w', p);
      OpenIsBehind(w, k, p, m);
      PrivatePast(w, k, p, m);
    }
    hide TransitInv, Open, Addressed, Times, OffAt, Can, Behind, Placed, SentDirect;
  }

  lemma PrivatePast(w: World, k: nat, p: nat, m: Msg)
    requires WorldInv(w) && Can(w, AddSub(k, p)) && OnceInv(w, k, m) && m in Calls(w, k)
    ensures var s' := Changed(w, AddSub(k, p)).s; m.id > s'.subs[p].maxPub ==> SentDirect(s', p, m)
  {
    var s := w.s;
    AtMostOnce(s, k, m);
    PlacedAt(s, k, p, w.off[k].value, p);
    PlacedRoute(s, k, p, w.off[k].value, p, m);
    CountIn(s.handled[k], m);
    hide TransitInv, Placed, SentDirect, OffAt, ValidSubs;
  }

  lemma ChangeKeepsOnceInv(w: World, c: Change, k: nat, m: Msg)
    requires WorldInv(w) && Can(w, c) && k < |w.s.subs| && OnceInv(w, k, m) && CleanChange(w, c, k, m)
    ensures Where(c, k) < |w.s.subs| && OnceInv(Changed(w, c), Where(c, k), m)
  {
    hide OnceInv, WorldInv, Can, Changed;
    match c
    case Do(step) => StepKeepsOnceInv(w, step, k, m);
    case AddSub(j, p) =>
      if j == k { OwnKeepsOnceInv(w, k, p, m); } else { OthersKeepOnceInv(w, c, k, m); }
    case RemoveSub(_) => RemovalKeepsOnceInv(w, c, k, m);
  }

  // ----- over runs -----

  ghost predicate CleanRun(w: World, cs: seq<Change>, k: nat, m: Msg)
    requires Sized(w) && CanRun(w, cs) && k < |w.s.subs|
    decreases |cs|
  {
    cs != [] ==>
      && CleanChange(w, cs[0], k, m)
      && (WhereIsThere(w, cs[0], k); CleanRun(Changed(w, cs[0]), cs[1..], Where(cs[0], k), m))
  }

  lemma {:induction false} RunKeepsOnceInv(w: World, cs: seq<Change>, k: nat, m: Msg)
    requires WorldInv(w) && k < |w.s.subs| && OnceInv(w, k, m)
    requires CanRun(w, cs) && CalmRun(w, cs) && CleanRun(w, cs, k, m)
    ensures WhereAfter(cs, k) < |w.s.subs| && WorldInv(End(w, cs)) && OnceInv(End(w, cs), WhereAfter(cs, k), m)
    decreases |cs|
  {
    hide Changed, Can, TransitInv, OffAt, CalmChange, CleanChange, OnceInv, Where;
    if cs != [] {
      EndStep(w, cs);
      ChangeKeepsWorldInv(w, cs[0]);
      ChangeKeepsOnceInv(w, cs[0], k, m);
      RunKeepsOnceInv(Changed(w, cs[0]), cs[1..], Where(cs[0], k), m);
      hide WorldInv, End;
    }
  }

  lemma CallsOnce(w: World, k: nat, m: Msg)
    requires WorldInv(w) && k < |w.s.subs| && OnceInv(w, k, m)
    ensures Count(Calls(w, k), m) <= 1
  {
    CountConcat(w.past[k], w.s.handled[k], m);
    CountPrefix(w.s.handled[k], Arrived(w.s, k), m);
    assert Times(w.s, k, m) == Count(Arrived(w.s, k), m);
    hide TransitInv, OffAt;
  }

  /** In every run with subscribers coming and going, the handler of a subscriber is called at most once with
      a message, unless the subscriber has had it and is put back behind one that still carries it. */
  lemma AtMostOncePerSubscriber(subs: seq<Sub>, pool: set<Block>, on: set<nat>, cs: seq<Change>, k: nat, m: Msg)
    requires ValidSubs(subs) && k < |subs|
    requires var w := InitWorld(subs, pool, on); CanRun(w, cs) && CalmRun(w, cs) && CleanRun(w, cs, k, m)
    ensures var e := End(InitWorld(subs, pool, on), cs);
            WhereAfter(cs, k) < |subs| && Count(Calls(e, WhereAfter(cs, k)), m) <= 1
  {
    var w := InitWorld(subs, pool, on);
    InitWorldInv(subs, pool, on);
    assert w.past[k] == [] && Arrived(w.s, k) == [];
    RunKeepsOnceInv(w, cs, k, m);
    CallsOnce(End(w, cs), WhereAfter(cs, k), m);
    hide WorldInv, End;
  }

  // ----- what is meant for a subscriber -----

  /** k has had m, or is owed it. */
  ghost predicate Had(w: World, k: nat, m: Msg)
    requires Sized(w) && k < |w.s.subs|
  {
    m in w.past[k] || Owed(w.s, k, m)
  }

  /** Over all its times on the list k has had, or is owed, what is meant for it, and no more. */
  ghost predicate Fair(w: World, k: nat, m: Msg)
    requires Sized(w) && k < |w.s.subs|
  {
    OnceInv(w, k, m) && (Had(w, k, m) <==> Due(w.s, k, m))
  }

  /** k does not change its subscription to the id of m, nor its place on the list, while m is handed out and
      may still come to it, there or where it goes. */
  ghost predicate StillChange(w: World, c: Change, k: nat, m: Msg)
    requires Sized(w) && Can(w, c) && k < |w.s.subs|
  {
    Concerns(c, k, m.id) ==> !HandedOut(w.s, m) ||
                             (WhereIsThere(w, c, k); !Open(Changed(w, c).s, Where(c, k), m))
  }

  /** Not handed out: the broker still has it, or it was published to one subscriber only. */
  lemma NotHandedOut(s: State, k: nat, m: Msg)
    requires TransitInv(s) && k < |s.subs| && !HandedOut(s, m)
    ensures Waiting(s, m) ==> DueIsOwed(s, k, m) && Times(s, k, m) == 0 && !SentDirect(s, k, m)
    ensures Waiting(s, m) && m in s.sent ==> Open(s, k, m)
    ensures !Waiting(s, m) ==> m in s.sent && s.sent[m].Direct? && !Open(s, k, m) && !Addressed(s, k, m)
  {
    if Waiting(s, m) {
      NotWithinReach(s, k, m);
      if m in s.pub || s.broker == Taken(m) { PubIsSent(s, m); }
    } else {
      DirectIsClosed(s, k, m);
    }
    hide TransitInv, Upstream;
  }

  lemma NotWithinReach(s: State, k: nat, m: Msg)
    requires TransitInv(s) && k < |s.subs| && Waiting(s, m)
    ensures DueIsOwed(s, k, m) && Times(s, k, m) == 0
  {
    WaitingIsOwed(s, k, m);
    assert MsgTransit(s, m);
  }

  lemma FairWhenWaiting(w: World, k: nat, m: Msg)
    requires WorldInv(w) && k < |w.s.subs| && Waiting(w.s, m) && m !in w.past[k]
    ensures Fair(w, k, m)
  {
    NotWithinReach(w.s, k, m);
    CountIn(w.past[k], m);
    hide TransitInv, OffAt, Owed, Due, Times;
  }

  lemma FairWhenDirect(w: World, k: nat, m: Msg)
    requires WorldInv(w) && k < |w.s.subs| && m in w.s.sent && w.s.sent[m].Direct?
    requires m in w.past[k] || Times(w.s, k, m) > 0 <==> SentDirect(w.s, k, m)
    requires Count(w.past[k], m) + Times(w.s, k, m) <= 1
    ensures Fair(w, k, m)
  {
    DirectIsClosed(w.s, k, m);
    hide TransitInv, OffAt, Open, Addressed, Times;
  }

  lemma OwnKeepsFair(w: World, c: Change, k: nat, m: Msg)
    requires WorldInv(w) && Can(w, c) && CalmChange(w, c) && k < |w.s.subs| && Fair(w, k, m)
    requires Concerns(c, k, m.id) && !HandedOut(w.s, m)
    ensures Where(c, k) < |w.s.subs| && Fair(Changed(w, c), Where(c, k), m)
  {
    var w', k' := Changed(w, c), Where(c, k);
    ChangeKeepsWorldInv(w, c);
    NotHandedOut(w.s, k, m);
    WhereIsThere(w, c, k);
    OwnRest(w, c, k, m);
    CountIn(w.past[k], m);
    CountIn(w'.past[k'], m);
    hide TransitInv, OffAt, Apply, Enabled, Placed, Masked, Times, Can, Changed, Open, Addressed;
    if Waiting(w.s, m) {
      FairWhenWaiting(w', k', m);
    } else {
      FairWhenDirect(w', k', m);
    }
  }

  /** What a change of k's own does to the messages k has had, and to what has been published. */
  lemma OwnRest(w: World, c: Change, k: nat, m: Msg)
    requires WorldInv(w) && Can(w, c) && k < |w.s.subs| && Concerns(c, k, m.id)
    ensures Where(c, k) < |w.s.subs|
    ensures var w', k' := Changed(w, c), Where(c, k);
            && Count(w'.past[k'], m) + Times(w'.s, k', m) == Count(w.past[k], m) + Times(w.s, k, m)
            && (m in w'.s.sent <==> m in w.s.sent) && (SentDirect(w'.s, k', m) <==> SentDirect(w.s, k, m))
            && (m in w.s.sent ==> (w'.s.sent[m].Direct? <==> w.s.sent[m].Direct?))
            && w'.s.pub == w.s.pub && w'.s.broker == w.s.broker
            && (m in w'.past[k'] || Times(w'.s, k', m) > 0 <==> m in w.past[k] || Times(w.s, k, m) > 0)
  {
    CountIn(w.past[k], m);
    match c
    case Do(step) => if !OffTheList(w, step) { RetakenWaits(w.s, step, k, m); hide Apply; }
    case AddSub(_, p) =>
      NothingForgotten(w, k, p, m);
      PlacedRoute(w.s, k, p, w.off[k].value, p, m);
      PlacedStore(w.s, k, p, w.off[k].value);
      CountIn(Changed(w, c).past[p], m);
      hide Placed;
    case RemoveSub(_) => MaskedKeepsOpen(w.s, k, k, m);
  }

  lemma PublishKeepsFair(w: World, k: nat, m: Msg)
    requires WorldInv(w) && Can(w, Do(Publish(m))) && k < |w.s.subs| && Fair(w, k, m)
    ensures Fair(Changed(w, Do(Publish(m))), k, m)
  {
    StepKeepsWorldInv(w, Publish(m));
    PublishedWaits(w.s, m);
    hide Apply, TransitInv, OffAt;
    FairWhenWaiting(Changed(w, Do(Publish(m))), k, m);
  }

  lemma DirectKeepsFair(w: World, k: nat, m: Msg)
    requires WorldInv(w) && Can(w, Do(PublishDirect(k, m))) && k < |w.s.subs| && Fair(w, k, m)
    ensures Fair(Changed(w, Do(PublishDirect(k, m))), k, m)
  {
    StepKeepsWorldInv(w, PublishDirect(k, m));
    PublishDirectSends(w.s, k, m);
    NotWithinReach(w.s, k, m);
    TimesAfter(w.s, PublishDirect(k, m), k, m);
    CountIn(w.past[k], m);
    hide Apply, TransitInv, OffAt, Times;
    FairWhenDirect(Changed(w, Do(PublishDirect(k, m))), k, m);
  }

  lemma PastSame(w: World, c: Change, k: nat, id: nat)
    requires Sized(w) && Can(w, c) && k < |w.s.subs| && !Concerns(c, k, id)
    ensures Where(c, k) < |w.s.subs| && Changed(w, c).past[Where(c, k)] == w.past[k]
  {
    if c.AddSub? { OtherPlaced(w, c.k, c.p, k, Msg(0, id, 0)); }
  }

  /** A change that is not k's own, nor the publication of m. */
  lemma OtherKeepsHad(w: World, c: Change, k: nat, m: Msg)
    requires WorldInv(w) && Can(w, c) && k < |w.s.subs| && OnceInv(w, k, m) && !Concerns(c, k, m.id)
    requires c != Do(Publish(m)) && c != Do(PublishDirect(k, m))
    ensures Where(c, k) < |w.s.subs|
    ensures var w', k' := Changed(w, c), Where(c, k);
            OnceInv(w', k', m) && (Had(w', k', m) <==> Had(w, k, m))
  {
    assert CleanChange(w, c, k, m);
    hide WorldInv, OnceInv, Can, Changed, Owed, CleanChange, Concerns, Where;
    ChangeKeepsOnceInv(w, c, k, m);
    ChangeKeepsOwed(w, c, k, m);
    PastSame(w, c, k, m.id);
  }

  lemma ChangeKeepsFair(w: World, c: Change, k: nat, m: Msg)
    requires WorldInv(w) && Can(w, c) && CalmChange(w, c) && k < |w.s.subs| && Fair(w, k, m)
    requires Concerns(c, k, m.id) ==> !HandedOut(w.s, m)
    ensures Where(c, k) < |w.s.subs| && Fair(Changed(w, c), Where(c, k), m)
  {
    if Concerns(c, k, m.id) {
      OwnKeepsFair(w, c, k, m);
    } else if c == Do(Publish(m)) {
      PublishKeepsFair(w, k, m);
    } else if c == Do(PublishDirect(k, m)) {
      DirectKeepsFair(w, k, m);
    } else {
      hide WorldInv, Can, CalmChange, Had, Due, OnceInv, Concerns, Changed;
      OtherKeepsHad(w, c, k, m);
      ChangeKeepsDue(w, c, k, m);
    }
  }

  // ----- while m is handed out -----

  lemma SubscriptionsKeepOpen(s: State, s': State, k: nat, m: Msg)
    requires Shaped(s) && Shaped(s') && SubsKept(s, s') && QueuesKept(s, s') && AppKeeps(s, s')
    requires k < |s.subs| && Open(s, k, m)
    ensures Open(s', k, m)
  {
    if Upstream(s, k, m) {
      var i :| 0 <= i < k && Feeds(s, i, k, m);
      assert Feeds(s', i, k, m);
    }
  }

  lemma RetakenKeepsHad(w: World, step: Step, k: nat, m: Msg)
    requires WorldInv(w) && Can(w, Do(step)) && k < |w.s.subs| && Retakes(step, k, m.id)
    requires !Open(Changed(w, Do(step)).s, k, m)
    ensures Had(Changed(w, Do(step)), k, m) <==> Had(w, k, m)
  {
    if !OffTheList(w, step) {
      AppFrame(w.s, step);
      if Open(w.s, k, m) { SubscriptionsKeepOpen(w.s, Apply(w.s, step), k, m); }
      hide Open;
      LateKeepsOwed(w.s, step, k, m);
      hide Apply, Enabled, TransitInv, OffAt, Owed;
    }
  }

  lemma PlacedKeepsHad(w: World, k: nat, p: nat, m: Msg)
    requires WorldInv(w) && Can(w, AddSub(k, p)) && CalmChange(w, AddSub(k, p)) && OnceInv(w, k, m)
    requires p < |w.s.subs| && !Open(Changed(w, AddSub(k, p)).s, p, m)
    ensures Had(Changed(w, AddSub(k, p)), p, m) <==> Had(w, k, m)
  {
    TransitParts(w.s);
    assert !w.s.subs[k].Wants(m.id);
    PlacedKeepsBroker(w.s, k, p, w.off[k].value, p, m);
    PlacedKeepsBroker(w.s, k, p, w.off[k].value, k, m);
    OwnRest(w, AddSub(k, p), k, m);
    hide TransitInv, OffAt, Placed, Open, Addressed, Times, ValidSubs, CalmChange, OnceInv;
  }

  lemma MaskedKeepsHad(w: World, k: nat, m: Msg)
    requires WorldInv(w) && Can(w, RemoveSub(k)) && !Open(Changed(w, RemoveSub(k)).s, k, m)
    ensures Had(Changed(w, RemoveSub(k)), k, m) <==> Had(w, k, m)
  {
    MaskedKeepsOpen(w.s, k, k, m);
    hide TransitInv, OffAt, Open, Addressed, Times;
  }

  lemma OwnKeepsHad(w: World, c: Change, k: nat, m: Msg)
    requires WorldInv(w) && Can(w, c) && CalmChange(w, c) && k < |w.s.subs| && OnceInv(w, k, m)
    requires Concerns(c, k, m.id) && Where(c, k) < |w.s.subs| && !Open(Changed(w, c).s, Where(c, k), m)
    ensures var w', k' := Changed(w, c), Where(c, k);
            OnceInv(w', k', m) && (Had(w', k', m) <==> Had(w, k, m))
  {
    if c.AddSub? && m in Calls(w, k) { OpenIsBehind(w, k, c.p, m); }
    assert CleanChange(w, c, k, m);
    hide WorldInv, OnceInv, Can, Changed, Had, CalmChange, CleanChange, Open;
    ChangeKeepsOnceInv(w, c, k, m);
    match c
    case Do(step) => RetakenKeepsHad(w, step, k, m);
    case AddSub(_, p) => PlacedKeepsHad(w, k, p, m);
    case RemoveSub(_) => MaskedKeepsHad(w, k, m);
  }

  lemma ChangeKeepsHandedOut(w: World, c: Change, m: Msg)
    requires Sized(w) && Can(w, c) && HandedOut(w.s, m)
    ensures HandedOut(Changed(w, c).s, m) && c != Do(Publish(m)) && forall k :: c != Do(PublishDirect(k, m))
  {
    match c
    case Do(step) => if !OffTheList(w, step) { HandedOutStays(w.s, step, m); SentStays(w.s, step, m); hide Apply; }
    case AddSub(k, p) =>
      PlacedRoute(w.s, k, p, w.off[k].value, p, m);
      PlacedStore(w.s, k, p, w.off[k].value);
      hide Placed;
    case RemoveSub(_) =>
  }

  lemma HandedOutKeepsHad(w: World, c: Change, k: nat, m: Msg)
    requires WorldInv(w) && Can(w, c) && CalmChange(w, c) && k < |w.s.subs| && OnceInv(w, k, m)
    requires HandedOut(w.s, m) && StillChange(w, c, k, m)
    ensures Where(c, k) < |w.s.subs|
    ensures var w', k' := Changed(w, c), Where(c, k);
            HandedOut(w'.s, m) && OnceInv(w', k', m) && (Had(w', k', m) <==> Had(w, k, m))
  {
    ChangeKeepsHandedOut(w, c, m);
    WhereIsThere(w, c, k);
    hide TransitInv, OffAt, OnceInv, Can, Changed, Had, CalmChange, HandedOut, Open, Where;
    if Concerns(c, k, m.id) {
      OwnKeepsHad(w, c, k, m);
    } else {
      hide Concerns;
      OtherKeepsHad(w, c, k, m);
    }
  }

  // ----- over runs -----

  ghost predicate StillRun(w: World, cs: seq<Change>, k: nat, m: Msg)
    requires Sized(w) && CanRun(w, cs) && k < |w.s.subs|
    decreases |cs|
  {
    cs != [] ==>
      && StillChange(w, cs[0], k, m)
      && (WhereIsThere(w, cs[0], k); StillRun(Changed(w, cs[0]), cs[1..], Where(cs[0], k), m))
  }

  /** The changes made before the broker starts to hand out m. */
  ghost function UntilHandedOutAt(w: World, cs: seq<Change>, m: Msg): seq<Change>
    requires Sized(w) && CanRun(w, cs)
    decreases |cs|
  {
    if cs == [] || HandedOut(w.s, m) then []
    else [cs[0]] + UntilHandedOutAt(Changed(w, cs[0]), cs[1..], m)
  }

  lemma {:induction false} RunKeepsHad(w: World, cs: seq<Change>, k: nat, m: Msg)
    requires WorldInv(w) && k < |w.s.subs| && OnceInv(w, k, m) && HandedOut(w.s, m)
    requires CanRun(w, cs) && CalmRun(w, cs) && StillRun(w, cs, k, m)
    ensures WhereAfter(cs, k) < |w.s.subs| && WorldInv(End(w, cs))
    ensures var e, k' := End(w, cs), WhereAfter(cs, k);
            OnceInv(e, k', m) && (Had(e, k', m) <==> Had(w, k, m))
    decreases |cs|
  {
    hide Changed, Can, TransitInv, OffAt, CalmChange, StillChange, Had, OnceInv, HandedOut, Where;
    if cs != [] {
      EndStep(w, cs);
      ChangeKeepsWorldInv(w, cs[0]);
      HandedOutKeepsHad(w, cs[0], k, m);
      RunKeepsHad(Changed(w, cs[0]), cs[1..], Where(cs[0], k), m);
      hide WorldInv, End;
    }
  }

  /** What k has had or is owed in the end was decided before m was handed out. */
  lemma {:induction false} HadIsIntended(w: World, cs: seq<Change>, k: nat, m: Msg)
    requires WorldInv(w) && k < |w.s.subs| && Fair(w, k, m)
    requires CanRun(w, cs) && CalmRun(w, cs) && StillRun(w, cs, k, m)
    ensures WhereAfter(cs, k) < |w.s.subs| && WorldInv(End(w, cs))
    ensures var e, k' := End(w, cs), WhereAfter(cs, k);
            OnceInv(e, k', m) && (Had(e, k', m) <==> IntendedAt(w, UntilHandedOutAt(w, cs, m), k, m))
    decreases |cs|
  {
    hide Changed, Can, TransitInv, OffAt, CalmChange, Had, Due, OnceInv, HandedOut, Where, IntendedAt, Open;
    hide Concerns;
    IntendedNowAt(w, k, m);
    if cs != [] {
      if HandedOut(w.s, m) {
        RunKeepsHad(w, cs, k, m);
      } else {
        EndStep(w, cs);
        ChangeKeepsWorldInv(w, cs[0]);
        ChangeKeepsFair(w, cs[0], k, m);
        IntendedLater(w, cs, k, m);
        HadIsIntended(Changed(w, cs[0]), cs[1..], Where(cs[0], k), m);
        hide WorldInv, End;
      }
    }
  }

  lemma IntendedLater(w: World, cs: seq<Change>, k: nat, m: Msg)
    requires Sized(w) && k < |w.s.subs| && CanRun(w, cs) && cs != [] && !HandedOut(w.s, m)
    ensures Where(cs[0], k) < |w.s.subs|
    ensures IntendedAt(w, UntilHandedOutAt(w, cs, m), k, m) <==>
              IntendedAt(Changed(w, cs[0]), UntilHandedOutAt(Changed(w, cs[0]), cs[1..], m), Where(cs[0], k), m)
  {
    hide Changed, Can, IntendedAt, Where;
    IntendedRestAt(w, cs[0], UntilHandedOutAt(Changed(w, cs[0]), cs[1..], m), k, m);
  }

  lemma HadAtRest(w: World, k: nat, m: Msg)
    requires WorldInv(w) && k < |w.s.subs| && OnceInv(w, k, m) && AtRest(w.s, m)
    ensures Count(Calls(w, k), m) == if Had(w, k, m) then 1 else 0
  {
    OwedIsHandled(w.s, k, m);
    CountConcat(w.past[k], w.s.handled[k], m);
    CountPrefix(w.s.handled[k], Arrived(w.s, k), m);
    CountIn(w.past[k], m);
    assert Times(w.s, k, m) == Count(Arrived(w.s, k), m);
    hide TransitInv, OffAt, Owed, Shut;
  }

  /** From any state in which the broker has not started to hand out m, over any run, with subscribers coming
      and going before, meanwhile and after: when m has come to rest, a subscriber that kept its subscription
      and its place on the list while m was handed out has handled it exactly once if the changes made before
      that made m one for it, and otherwise not. */
  lemma EachDueOnceAt(w: World, cs: seq<Change>, k: nat, m: Msg)
    requires WorldInv(w) && k < |w.s.subs| && Waiting(w.s, m) && m !in w.past[k]
    requires CanRun(w, cs) && CalmRun(w, cs) && StillRun(w, cs, k, m) && AtRest(End(w, cs).s, m)
    ensures var e, k' := End(w, cs), WhereAfter(cs, k);
            && k' < |w.s.subs|
            && Count(Calls(e, k'), m) == if IntendedAt(w, UntilHandedOutAt(w, cs, m), k, m) then 1 else 0
  {
    hide TransitInv, OffAt, End, Fair, Had, OnceInv, IntendedAt;
    FairWhenWaiting(w, k, m);
    HadIsIntended(w, cs, k, m);
    HadAtRest(End(w, cs), WhereAfter(cs, k), m);
  }

  /** So in every run a message is freed only after all deliveries of it. */
  lemma FreedIsDeliveredAt(subs: seq<Sub>, pool: set<Block>, on: set<nat>, cs: seq<Change>, k: nat, m: Msg)
    requires ValidSubs(subs) && k < |subs|
    requires var w := InitWorld(subs, pool, on);
             CanRun(w, cs) && CalmRun(w, cs) && StillRun(w, cs, k, m) && Can(End(w, cs), Do(Free(m)))
    ensures var w, k' := InitWorld(subs, pool, on), WhereAfter(cs, k);
            && k' < |subs|
            && Count(Calls(End(w, cs), k'), m) == if IntendedAt(w, UntilHandedOutAt(w, cs, m), k, m) then 1 else 0
  {
    var w := InitWorld(subs, pool, on);
    FairAtStart(subs, pool, on, k, m);
    hide InitWorld, ValidSubs, WorldInv, Fair, Had, OnceInv, CanRun, CalmRun, StillRun, WhereAfter, IntendedAt;
    HadIsIntended(w, cs, k, m);
    var e := End(w, cs);
    DyingIsAtRest(e, m);
    hide End, Can;
    HadAtRest(e, WhereAfter(cs, k), m);
  }

  lemma FairAtStart(subs: seq<Sub>, pool: set<Block>, on: set<nat>, k: nat, m: Msg)
    requires ValidSubs(subs) && k < |subs|
    ensures WorldInv(InitWorld(subs, pool, on)) && Fair(InitWorld(subs, pool, on), k, m)
  {
    var w := InitWorld(subs, pool, on);
    InitWorldInv(subs, pool, on);
    assert Waiting(w.s, m) && w.past[k] == [];
    hide WorldInv, InitWorld, ValidSubs;
    FairWhenWaiting(w, k, m);
  }

  lemma DyingIsAtRest(w: World, m: Msg)
    requires WorldInv(w) && Can(w, Do(Free(m)))
    ensures AtRest(w.s, m)
  {
    TransitParts(w.s);
    assert MsgInv(w.s, m);
    UnownedIsAtRest(w.s, m);
    hide WorldInv, Inv;
  }
}
