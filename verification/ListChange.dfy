/** The subscriber list changing while messages are in transit: subscribers are taken off the list and put
    on it again under the list mutex, between any steps of the protocol. What is proved of reference counts,
    of freed memory and of messages moving forward only, still holds. */
module ListChange {
  import opened Types
  import opened Protocol
  import opened RefCount
  import opened RefSafety
  import opened Logs
  import opened Delivery
  import opened Intended
  import opened Transit
  import opened OnTheWay
  import opened CountBound
  import opened Lifetime
  import opened Frames

  /** All subscribers of the application, on the list or not. One that is not keeps its place in the
      sequences of `s` and takes no public message there; it can still be published to directly, and its
      thread goes on polling it. */
  datatype World = World(
    s: State,
    off: seq<Option<set<nat>>>,      // None: on the list; Some: not, with its subscriptions
    past: seq<seq<Msg>>)             // handler calls before it was last put on the list

  /** A step of the protocol, or subscriber k is put on the list at position p, or taken off it. */
  datatype Change = Do(step: Step) | AddSub(k: nat, p: nat) | RemoveSub(k: nat)

  // ----- moving one entry of a sequence -----

  /** The entry at index k moves to index p, the others keep their order. */
  function Moved<T>(a: seq<T>, k: nat, p: nat): (r: seq<T>)
    requires k < |a| && p < |a|
    ensures |r| == |a|
    ensures forall j {:trigger r[j]} :: 0 <= j < |r| ==> r[j] == a[From(k, p, j)]
  {
    var rest := a[..k] + a[k + 1..];
    rest[..p] + [a[k]] + rest[p..]
  }

  /** Where the entry now at index j was ... */
  function From(k: nat, p: nat, j: nat): nat {
    if j == p then k
    else
      var i := if j < p then j else j - 1;
      if i < k then i else i + 1
  }

  /** ... and where the one that was at i is. */
  function To(k: nat, p: nat, i: nat): nat {
    if i == k then p
    else
      var j := if i < k then i else i - 1;
      if j < p then j else j + 1
  }

  lemma ThereAndBack(k: nat, p: nat, i: nat, n: nat)
    requires k < n && p < n
    ensures From(k, p, To(k, p, i)) == i && To(k, p, From(k, p, i)) == i
    ensures (To(k, p, i) < n <==> i < n) && (From(k, p, i) < n <==> i < n)
  {
  }

  lemma {:induction false} SumConcat(a: seq<nat>, b: seq<nat>)
    ensures Sum(a + b) == Sum(a) + Sum(b)
  {
    if b == [] {
      assert a + b == a;
    } else {
      assert (a + b)[..|a + b| - 1] == a + b[..|b| - 1];
      SumConcat(a, b[..|b| - 1]);
    }
  }

  lemma SumAround(a: seq<nat>, x: nat, b: seq<nat>)
    ensures Sum(a + [x] + b) == Sum(a + b) + x
  {
    SumConcat(a + [x], b);
    SumConcat(a, [x]);
    SumConcat(a, b);
    assert Sum([x]) == x;
  }

  lemma SumWithout(a: seq<nat>, k: nat)
    requires k < |a|
    ensures Sum(a) == Sum(a[..k] + a[k + 1..]) + a[k]
  {
    assert a == a[..k] + [a[k]] + a[k + 1..];
    SumAround(a[..k], a[k], a[k + 1..]);
  }

  lemma SumWith(rest: seq<nat>, p: nat, x: nat)
    requires p <= |rest|
    ensures Sum(rest[..p] + [x] + rest[p..]) == Sum(rest) + x
  {
    assert rest == rest[..p] + rest[p..];
    SumAround(rest[..p], x, rest[p..]);
  }

  lemma SumMoved(a: seq<nat>, k: nat, p: nat)
    requires k < |a| && p < |a|
    ensures Sum(Moved(a, k, p)) == Sum(a)
  {
    hide Sum, From;
    SumWithout(a, k);
    SumWith(a[..k] + a[k + 1..], p, a[k]);
  }

  // ----- the changes -----

  /** The call that is running, when one is. */
  ghost function Recent(s: State, k: nat): seq<Msg>
    requires Shaped(s) && k < |s.subs|
  {
    if s.poll[k].Handling? && s.handled[k] != [] then [s.handled[k][|s.handled[k]| - 1]] else []
  }

  ghost function Earlier(s: State, k: nat): seq<Msg>
    requires Shaped(s) && k < |s.subs|
  {
    s.handled[k][..|s.handled[k]| - |Recent(s, k)|]
  }

  function Rerouted(route: Route, k: nat, p: nat): Route {
    match route
    case ToBroker => ToBroker
    case Direct(i) => Direct(To(k, p, i))
  }

  /** Subscriber k at position p of the list, with its subscriptions. */
  ghost function Placed(s: State, k: nat, p: nat, subscribed: set<nat>): (s': State)
    requires Shaped(s) && k < |s.subs| && p < |s.subs|
    ensures Shaped(s') && |s'.subs| == |s.subs|
  {
    s.(subs := Moved(s.subs[k := s.subs[k].(subscribed := subscribed)], k, p),
       q := Moved(s.q, k, p), poll := Moved(s.poll, k, p), direct := Moved(s.direct, k, p),
       handled := Moved(s.handled[k := Recent(s, k)], k, p),
       sent := map m | m in s.sent :: Rerouted(s.sent[m], k, p))
  }

  /** The subscriptions of k are masked while it is off the list. */
  ghost function Masked(s: State, k: nat): (s': State)
    requires Shaped(s) && k < |s.subs|
    ensures Shaped(s') && |s'.subs| == |s.subs|
  {
    s.(subs := s.subs[k := s.subs[k].(subscribed := {})])
  }

  ghost predicate Sized(w: World) {
    Shaped(w.s) && |w.off| == |w.past| == |w.s.subs|
  }

  /** Is this a subscription change of a subscriber that is off the list? */
  predicate OffTheList(w: World, step: Step) {
    (step.Subscribe? || step.Unsubscribe?) && step.i < |w.off| && w.off[step.i].Some?
  }

  /** A fifo subscriber is only removed when it has no public message queued or about to be relayed: its
      thread would find its broker pointer cleared. */
  ghost predicate MayLeave(s: State, k: nat)
    requires Shaped(s) && k < |s.subs|
  {
    s.subs[k].rxType.Fifo? ==> forall m :: m in Pre(s.poll[k]) + s.q[k] ==> m.id > s.subs[k].maxPub
  }

  ghost predicate Can(w: World, c: Change)
    requires Sized(w)
  {
    var n := |w.s.subs|;
    match c
    case Do(step) => Enabled(w.s, step)
    case AddSub(k, p) =>
      && w.s.mutex.Unowned? && k < n && p < n && w.off[k].Some?
      && ValidSubs(Placed(w.s, k, p, w.off[k].value).subs)
    case RemoveSub(k) => w.s.mutex.Unowned? && k < n && w.off[k].None? && MayLeave(w.s, k)
  }

  ghost function Changed(w: World, c: Change): (w': World)
    requires Sized(w) && Can(w, c)
    ensures Sized(w') && |w'.s.subs| == |w.s.subs|
  {
    match c
    case Do(step) =>
      if OffTheList(w, step) then
        var ids := w.off[step.i].value;
        w.(off := w.off[step.i := Some(if step.Subscribe? then ids + {step.id} else ids - {step.id})])
      else w.(s := Apply(w.s, step))
    case AddSub(k, p) =>
      World(Placed(w.s, k, p, w.off[k].value), Moved(w.off[k := None], k, p),
            Moved(w.past[k := w.past[k] + Earlier(w.s, k)], k, p))
    case RemoveSub(k) => World(Masked(w.s, k), w.off[k := Some(w.s.subs[k].subscribed)], w.past)
  }

  /** Where the subscriber at position k is after a change. */
  function Where(c: Change, k: nat): nat {
    if c.AddSub? then To(c.k, c.p, k) else k
  }

  /** Every call of the handler of subscriber k so far. */
  ghost function Calls(w: World, k: nat): seq<Msg>
    requires Sized(w) && k < |w.s.subs|
  {
    w.past[k] + w.s.handled[k]
  }

  // ----- what a placement does at one position -----

  ghost predicate CanPlace(s: State, k: nat, p: nat, subscribed: set<nat>)
    requires Shaped(s)
  {
    s.mutex.Unowned? && k < |s.subs| && p < |s.subs| && ValidSubs(Placed(s, k, p, subscribed).subs)
  }

  lemma PlacedAt(s: State, k: nat, p: nat, subscribed: set<nat>, j: nat)
    requires Shaped(s) && CanPlace(s, k, p, subscribed) && j < |s.subs|
    ensures var s', o := Placed(s, k, p, subscribed), From(k, p, j);
            && o < |s.subs| && s'.q[j] == s.q[o] && s'.poll[j] == s.poll[o] && s'.direct[j] == s.direct[o]
            && s'.subs[j].rxType == s.subs[o].rxType && s'.subs[j].maxPub == s.subs[o].maxPub
            && s'.subs[j].subscribed == (if o == k then subscribed else s.subs[o].subscribed)
            && s'.handled[j] == if o == k then Recent(s, k) else s.handled[o]
  {
    ThereAndBack(k, p, j, |s.subs|);
  }

  lemma PlacedTimes(s: State, k: nat, p: nat, subscribed: set<nat>, j: nat, m: Msg)
    requires Shaped(s) && CanPlace(s, k, p, subscribed) && j < |s.subs|
    ensures var s', o := Placed(s, k, p, subscribed), From(k, p, j);
            && o < |s.subs|
            && Times(s', j, m) == Times(s, o, m) - if o == k then Count(Earlier(s, k), m) else 0
  {
    PlacedAt(s, k, p, subscribed, j);
    hide Placed, ValidSubs;
    var s', o := Placed(s, k, p, subscribed), From(k, p, j);
    ArrivedParts(s, o, m);
    ArrivedParts(s', j, m);
    assert s.handled[k] == Earlier(s, k) + Recent(s, k);
    hide Earlier, Recent, Count, Arrived, From;
    CountConcat(Earlier(s, k), Recent(s, k), m);
  }

  lemma PlacedCarries(s: State, k: nat, p: nat, subscribed: set<nat>, j: nat, m: Msg)
    requires Shaped(s) && CanPlace(s, k, p, subscribed) && j < |s.subs|
    ensures From(k, p, j) < |s.subs|
    ensures Carries(Placed(s, k, p, subscribed), j, m) <==> Carries(s, From(k, p, j), m)
  {
    PlacedAt(s, k, p, subscribed, j);
    hide Placed, CanPlace;
  }

  lemma PlacedRoute(s: State, k: nat, p: nat, subscribed: set<nat>, j: nat, m: Msg)
    requires Shaped(s) && CanPlace(s, k, p, subscribed)
    ensures SentDirect(Placed(s, k, p, subscribed), j, m) <==> SentDirect(s, From(k, p, j), m)
    ensures SentBroker(Placed(s, k, p, subscribed), m) <==> SentBroker(s, m)
    ensures m in Placed(s, k, p, subscribed).sent <==> m in s.sent
  {
    if m in s.sent && s.sent[m].Direct? { ThereAndBack(k, p, s.sent[m].i, |s.subs|); }
    ThereAndBack(k, p, j, |s.subs|);
  }

  // ----- counts and program counters: kept by every change -----

  lemma PlacedOwners(s: State, k: nat, p: nat, subscribed: set<nat>, m: Msg)
    requires Shaped(s) && CanPlace(s, k, p, subscribed)
    ensures Owners(Placed(s, k, p, subscribed), m) == Owners(s, m)
  {
    var s', parts := Placed(s, k, p, subscribed), Shares(s, m);
    forall j | 0 <= j < |s.subs| ensures Shares(s', m)[j] == Moved(parts, k, p)[j] {
      PlacedAt(s, k, p, subscribed, j);
    }
    assert Shares(s', m) == Moved(parts, k, p);
    SumMoved(parts, k, p);
    hide Shares, Sum, Moved, CanPlace;
  }

  lemma PlacedStore(s: State, k: nat, p: nat, subscribed: set<nat>)
    requires Shaped(s) && CanPlace(s, k, p, subscribed)
    ensures var s' := Placed(s, k, p, subscribed);
            && SameStore(s, s') && s'.user == s.user && s'.pub == s.pub && s'.taken == s.taken
            && s'.broker == s.broker && s'.mutex == s.mutex
  {
  }

  lemma PlacedKeepsPcInv(s: State, k: nat, p: nat, subscribed: set<nat>)
    requires Shaped(s) && PcInv(s) && CanPlace(s, k, p, subscribed)
    ensures PcInv(Placed(s, k, p, subscribed))
  {
    var s' := Placed(s, k, p, subscribed);
    PlacedStore(s, k, p, subscribed);
    forall j | 0 <= j < |s'.subs| ensures PollInv(s', j) {
      PlacedAt(s, k, p, subscribed, j);
      assert PollInv(s, From(k, p, j));
    }
    hide Placed, SameStore;
  }

  lemma PlacedKeepsInv(s: State, k: nat, p: nat, subscribed: set<nat>)
    requires Inv(s) && CanPlace(s, k, p, subscribed)
    ensures Inv(Placed(s, k, p, subscribed))
  {
    hide PcInv, RefInv, ValidSubs, Placed;
    var s' := Placed(s, k, p, subscribed);
    PlacedStore(s, k, p, subscribed);
    PlacedKeepsPcInv(s, k, p, subscribed);
    forall m ensures Owners(s', m) == Owners(s, m) { PlacedOwners(s, k, p, subscribed, m); }
    KeptByMove(s, s');
  }

  lemma MaskedKeepsInv(s: State, k: nat)
    requires Inv(s) && k < |s.subs|
    ensures Inv(Masked(s, k))
  {
    var s' := Masked(s, k);
    forall m ensures Owners(s', m) == Owners(s, m) { SharesSame(s, s', m); }
    KeptByMove(s, s');
    hide RefInv, Owners;
    assert TypesOf(s'.subs) == TypesOf(s.subs);
    forall i | 0 <= i < |s.subs| ensures PollInv(s', i) { assert PollInv(s, i); }
  }

  lemma ChangeKeepsInv(w: World, c: Change)
    requires Sized(w) && Inv(w.s) && Can(w, c)
    ensures Inv(Changed(w, c).s)
  {
    hide Inv, Placed, Masked, Apply, Enabled;
    match c
    case Do(step) => if !OffTheList(w, step) { StepKeepsInv(w.s, step); }
    case AddSub(k, p) => PlacedKeepsInv(w.s, k, p, w.off[k].value);
    case RemoveSub(k) => MaskedKeepsInv(w.s, k);
  }

  // ----- off the list -----

  /** Subscriber k takes nothing public, carries nothing public, and nothing is being put to it. */
  ghost predicate OffAt(s: State, k: nat)
    requires Shaped(s) && k < |s.subs|
  {
    && s.subs[k].subscribed == {}
    && (forall m {:trigger Carries(s, k, m)} :: Carries(s, k, m) ==> m.id > s.subs[k].maxPub)
    && (forall m :: !Addressed(s, k, m))
  }

  ghost predicate WorldInv(w: World) {
    && Sized(w) && TransitInv(w.s)
    && (forall k :: 0 <= k < |w.off| && w.off[k].Some? ==> OffAt(w.s, k))
  }

  /** A thread about to relay finds its subscriber on the list, so the broker pointer it reads is set. */
  lemma RelayerIsListed(w: World, k: nat)
    requires WorldInv(w) && k < |w.s.subs| && (w.s.poll[k].Got? || w.s.poll[k].Relaying?)
    ensures w.off[k].None?
  {
    assert PollInv(w.s, k) && RelayPublic(w.s, k);
    assert Carries(w.s, k, w.s.poll[k].m);
  }

  lemma StepKeepsOffAt(s: State, step: Step, k: nat)
    requires TransitInv(s) && Enabled(s, step) && k < |s.subs| && OffAt(s, k)
    requires !((step.Subscribe? || step.Unsubscribe?) && step.i == k)
    ensures OffAt(Apply(s, step), k)
  {
    hide Apply, Enabled, TransitInv, Addressed, Carries, Arrival, Open;
    TransitParts(s);
    var s' := Apply(s, step);
    SubscribedSame(s, step, k);
    MaxPubSame(s, step, k);
    forall m ensures !Addressed(s', k, m) { AddressedAfter(s, step, k, m); }
    forall m | Carries(s', k, m) ensures m.id > s'.subs[k].maxPub {
      CarriesAfter(s, step, k, m);
      if !Carries(s, k, m) {
        ArrivalOwed(s, step, k, m);
        ArrivalSource(s, step, k, m);
      }
    }
  }

  lemma PlacedKeepsOffAt(s: State, k: nat, p: nat, subscribed: set<nat>, j: nat)
    requires Shaped(s) && PcInv(s) && CanPlace(s, k, p, subscribed) && j < |s.subs| && j != p
    requires From(k, p, j) < |s.subs| && OffAt(s, From(k, p, j))
    ensures OffAt(Placed(s, k, p, subscribed), j)
  {
    var s' := Placed(s, k, p, subscribed);
    PlacedAt(s, k, p, subscribed, j);
    PlacedStore(s, k, p, subscribed);
    forall m | Carries(s', j, m) ensures m.id > s'.subs[j].maxPub { PlacedCarries(s, k, p, subscribed, j, m); }
    forall m ensures !Addressed(s', j, m) {}
  }

  // ----- forward movement -----

  /** The handler of k is not running, or not with a message that a fifo subscriber in front of position p
      still carries. */
  ghost predicate Calm(s: State, k: nat, p: nat, subscribed: set<nat>)
    requires Shaped(s) && CanPlace(s, k, p, subscribed)
  {
    forall i, m {:trigger Carries(Placed(s, k, p, subscribed), i, m)} ::
      (0 <= i < p && Carries(Placed(s, k, p, subscribed), i, m)
       && m.id <= Placed(s, k, p, subscribed).subs[i].maxPub) ==> m !in Recent(s, k)
  }

  lemma PlacedKeepsPlace(s: State, k: nat, p: nat, subscribed: set<nat>, j: nat, m: Msg)
    requires TransitInv(s) && CanPlace(s, k, p, subscribed) && j < |s.subs|
    ensures var s' := Placed(s, k, p, subscribed); Place(s', j, m) && HandlingInv(s', j) && RelayPublic(s', j)
  {
    var o := From(k, p, j);
    PlacedAt(s, k, p, subscribed, j);
    PlacedTimes(s, k, p, subscribed, j, m);
    PlacedRoute(s, k, p, subscribed, j, m);
    assert MsgTransit(s, m) && Place(s, o, m) && HandlingInv(s, o) && RelayPublic(s, o) && PollInv(s, o);
    hide Placed, CanPlace, Times, SentDirect, Earlier;
  }

  lemma PlacedKeepsSentInv(s: State, k: nat, p: nat, subscribed: set<nat>, m: Msg)
    requires Shaped(s) && CanPlace(s, k, p, subscribed) && SentInv(s, m)
    ensures SentInv(Placed(s, k, p, subscribed), m)
  {
    var s' := Placed(s, k, p, subscribed);
    PlacedStore(s, k, p, subscribed);
    PlacedRoute(s, k, p, subscribed, 0, m);
    forall j | 0 <= j < |s'.subs| ensures Count(s'.direct[j], m) == if SentDirect(s', j, m) then 1 else 0 {
      PlacedAt(s, k, p, subscribed, j);
      PlacedRoute(s, k, p, subscribed, j, m);
    }
    hide Placed, SentDirect;
  }

  lemma PlacedKeepsDirectOnly(s: State, k: nat, p: nat, subscribed: set<nat>, j: nat, m: Msg)
    requires TransitInv(s) && CanPlace(s, k, p, subscribed)
    ensures DirectOnly(Placed(s, k, p, subscribed), j, m)
  {
    var s', o := Placed(s, k, p, subscribed), From(k, p, j);
    PlacedRoute(s, k, p, subscribed, j, m);
    ThereAndBack(k, p, j, |s.subs|);
    if SentDirect(s', j, m) {
      assert MsgTransit(s, m) && DirectOnly(s, o, m);
      if j < |s'.subs| { PlacedAt(s, k, p, subscribed, j); }
      forall i | 0 <= i < |s'.subs| && i != j ensures Times(s', i, m) == 0 {
        PlacedTimes(s, k, p, subscribed, i, m);
        ThereAndBack(k, p, i, |s.subs|);
      }
    }
    hide Placed, ValidSubs, Times, TransitInv;
  }

  lemma PlacedKeepsUnpublished(s: State, k: nat, p: nat, subscribed: set<nat>, m: Msg)
    requires TransitInv(s) && CanPlace(s, k, p, subscribed)
    ensures Unpublished(Placed(s, k, p, subscribed), m) && BrokerFront(Placed(s, k, p, subscribed), m)
  {
    var s' := Placed(s, k, p, subscribed);
    PlacedStore(s, k, p, subscribed);
    PlacedRoute(s, k, p, subscribed, 0, m);
    assert MsgTransit(s, m);
    if m !in s'.sent || m in s'.pub || s'.broker == Taken(m) {
      forall j | 0 <= j < |s'.subs| ensures Times(s', j, m) == 0 { PlacedTimes(s, k, p, subscribed, j, m); }
    }
    hide Placed, ValidSubs, Times, RefInv;
  }

  /** What a fifo subscriber off the list has queued or in hand, no other carries. */
  lemma OffHasItsOwn(s: State, k: nat, o: nat, m: Msg)
    requires TransitInv(s) && k < |s.subs| && OffAt(s, k) && s.subs[k].rxType.Fifo?
    requires o < |s.subs| && o != k && Carries(s, o, m)
    ensures !Carries(s, k, m)
  {
    CarriedIsHere(s, o, m);
    if Carries(s, k, m) {
      CarriedIsHere(s, k, m);
      PrivateIsDirect(s, k, o, m);
    }
    hide TransitInv;
  }

  lemma PrivateIsDirect(s: State, k: nat, o: nat, m: Msg)
    requires TransitInv(s) && k < |s.subs| && o < |s.subs| && o != k
    requires Times(s, k, m) > 0 && m.id > s.subs[k].maxPub
    ensures Times(s, o, m) == 0
  {
    assert MsgTransit(s, m) && Place(s, k, m) && DirectOnly(s, k, m);
  }

  lemma BehindIsFifo(s: State, k: nat, p: nat, subscribed: set<nat>, i: nat)
    requires Shaped(s) && CanPlace(s, k, p, subscribed) && i < p && Placed(s, k, p, subscribed).subs[i].rxType.Fifo?
    ensures s.subs[k].rxType.Fifo? && From(k, p, i) != k
  {
    var s' := Placed(s, k, p, subscribed);
    var types := TypesOf(s'.subs);
    assert Rank(types[i]) <= Rank(types[p]);
    PlacedAt(s, k, p, subscribed, p);
    hide Placed;
  }

  /** What the placed subscriber has queued or in hand, no fifo subscriber in front carries as a public
      message. */
  lemma PlacedBehind(s: State, k: nat, p: nat, subscribed: set<nat>, i: nat, m: Msg)
    requires TransitInv(s) && CanPlace(s, k, p, subscribed) && OffAt(s, k) && i < p
    requires var s' := Placed(s, k, p, subscribed); Carries(s', i, m) && m.id <= s'.subs[i].maxPub
    ensures Times(Placed(s, k, p, subscribed), p, m) == Count(Recent(s, k), m)
  {
    TransitParts(s);
    var s' := Placed(s, k, p, subscribed);
    BehindIsFifo(s, k, p, subscribed, i);
    PlacedCarries(s, k, p, subscribed, i, m);
    OffHasItsOwn(s, k, From(k, p, i), m);
    hide TransitInv, ValidSubs, Placed, OffAt;
    PlacedAt(s, k, p, subscribed, p);
    ArrivedParts(s', p, m);
    CountIn(Pre(s.poll[k]), m);
    CountIn(s.q[k], m);
    hide Arrived, Recent;
  }

  lemma PlacedKeepsCarrierFront(s: State, k: nat, p: nat, subscribed: set<nat>, i: nat, m: Msg)
    requires TransitInv(s) && CanPlace(s, k, p, subscribed) && OffAt(s, k) && Calm(s, k, p, subscribed)
    requires i < |s.subs|
    ensures CarrierFront(Placed(s, k, p, subscribed), i, m)
  {
    hide Placed, Times, ValidSubs, RefInv, PcInv;
    var s', o := Placed(s, k, p, subscribed), From(k, p, i);
    PlacedCarries(s, k, p, subscribed, i, m);
    PlacedAt(s, k, p, subscribed, i);
    if Carries(s', i, m) && m.id <= s'.subs[i].maxPub {
      assert MsgTransit(s, m) && CarrierFront(s, o, m);
      forall j | i < j < |s'.subs| ensures Times(s', j, m) == 0 {
        PlacedTimes(s, k, p, subscribed, j, m);
        if j == p {
          PlacedBehind(s, k, p, subscribed, i, m);
          CountIn(Recent(s, k), m);
        }
      }
    }
    hide TransitInv, Carries;
  }

  lemma PlacedKeepsMsgTransit(s: State, k: nat, p: nat, subscribed: set<nat>, m: Msg)
    requires TransitInv(s) && CanPlace(s, k, p, subscribed) && OffAt(s, k) && Calm(s, k, p, subscribed)
    ensures MsgTransit(Placed(s, k, p, subscribed), m)
  {
    assert SentInv(s, m) by { assert MsgTransit(s, m); }
    hide Placed, ValidSubs, TransitInv, Calm, OffAt;
    hide SentInv, Unpublished, BrokerFront, DirectOnly, Place, CarrierFront;
    TransitParts(s);
    var s' := Placed(s, k, p, subscribed);
    PlacedKeepsSentInv(s, k, p, subscribed, m);
    PlacedKeepsUnpublished(s, k, p, subscribed, m);
    forall j: nat ensures DirectOnly(s', j, m) { PlacedKeepsDirectOnly(s, k, p, subscribed, j, m); }
    forall j | 0 <= j < |s'.subs| ensures Place(s', j, m) && CarrierFront(s', j, m) {
      PlacedKeepsPlace(s, k, p, subscribed, j, m);
      PlacedKeepsCarrierFront(s, k, p, subscribed, j, m);
    }
  }

  /** Placing a subscriber keeps everything that moves moving forward exactly when this is done calmly. */
  lemma PlacedKeepsTransitInvIff(s: State, k: nat, p: nat, subscribed: set<nat>)
    requires TransitInv(s) && CanPlace(s, k, p, subscribed) && OffAt(s, k)
    ensures TransitInv(Placed(s, k, p, subscribed)) <==> Calm(s, k, p, subscribed)
  {
    if Calm(s, k, p, subscribed) {
      PlacedKeepsTransitInv(s, k, p, subscribed);
    } else {
      NotCalm(s, k, p, subscribed);
    }
  }

  lemma NotCalm(s: State, k: nat, p: nat, subscribed: set<nat>)
    requires TransitInv(s) && CanPlace(s, k, p, subscribed) && OffAt(s, k) && !Calm(s, k, p, subscribed)
    ensures !TransitInv(Placed(s, k, p, subscribed))
  {
    var s' := Placed(s, k, p, subscribed);
    var i, m :| 0 <= i < p && Carries(s', i, m) && m.id <= s'.subs[i].maxPub && m in Recent(s, k);
    PlacedBehind(s, k, p, subscribed, i, m);
    CountIn(Recent(s, k), m);
    hide Placed;
    if TransitInv(s') { NotBehindCarrier(s', i, p, m); }
    hide TransitInv, Times;
  }

  lemma NotBehindCarrier(s: State, i: nat, k: nat, m: Msg)
    requires TransitInv(s) && i < k < |s.subs| && Carries(s, i, m) && m.id <= s.subs[i].maxPub
    ensures Times(s, k, m) == 0
  {
    assert MsgTransit(s, m) && CarrierFront(s, i, m);
  }

  lemma PlacedKeepsTransitInv(s: State, k: nat, p: nat, subscribed: set<nat>)
    requires TransitInv(s) && CanPlace(s, k, p, subscribed) && OffAt(s, k) && Calm(s, k, p, subscribed)
    ensures TransitInv(Placed(s, k, p, subscribed))
  {
    TransitParts(s);
    assert s.broker.Putting? ==> s.mutex == ByBroker;
    hide Placed, ValidSubs, TransitInv, Calm, OffAt, MsgTransit, HandlingInv, RelayPublic, PcInv, RefInv;
    var s', m0 := Placed(s, k, p, subscribed), Msg(0, 0, 0);
    PlacedStore(s, k, p, subscribed);
    PlacedKeepsInv(s, k, p, subscribed);
    forall j | 0 <= j < |s'.subs| ensures HandlingInv(s', j) && RelayPublic(s', j) {
      PlacedKeepsPlace(s, k, p, subscribed, j, m0);
    }
    forall m ensures MsgTransit(s', m) { PlacedKeepsMsgTransit(s, k, p, subscribed, m); }
  }

  /** Forward movement does not depend on what anybody subscribes to. */
  lemma SubscriptionsDoNotMatter(s: State, s': State)
    requires TransitInv(s) && Inv(s') && SubsKept(s, s') && s' == s.(subs := s'.subs)
    ensures TransitInv(s')
  {
    forall j | 0 <= j < |s'.subs| ensures HandlingInv(s', j) && RelayPublic(s', j) {
      assert HandlingInv(s, j) && RelayPublic(s, j);
    }
    forall m ensures MsgTransit(s', m) { SameTransit(s, s', m); }
    hide MsgTransit, PcInv, RefInv;
  }

  lemma SameTransit(s: State, s': State, m: Msg)
    requires Shaped(s) && MsgTransit(s, m) && SubsKept(s, s') && s' == s.(subs := s'.subs)
    ensures MsgTransit(s', m)
  {
    forall k | 0 <= k < |s'.subs| ensures Times(s', k, m) == Times(s, k, m) && Place(s', k, m) {
      assert Place(s, k, m);
    }
    forall i: nat ensures DirectOnly(s', i, m) { assert DirectOnly(s, i, m); }
    hide Times;
    forall k | 0 <= k < |s'.subs| ensures CarrierFront(s', k, m) { assert CarrierFront(s, k, m); }
    hide DirectOnly, Place, CarrierFront;
  }

  lemma MaskedKeepsTransitInv(s: State, k: nat)
    requires TransitInv(s) && k < |s.subs|
    ensures TransitInv(Masked(s, k))
  {
    TransitParts(s);
    MaskedKeepsInv(s, k);
    hide TransitInv, Inv;
    SubscriptionsDoNotMatter(s, Masked(s, k));
  }

  lemma MaskedKeepsOffAt(s: State, k: nat, j: nat)
    requires Shaped(s) && PcInv(s) && k < |s.subs| && j < |s.subs| && s.mutex.Unowned?
    requires if j == k then MayLeave(s, k) else OffAt(s, j)
    ensures OffAt(Masked(s, k), j)
  {
    var s' := Masked(s, k);
    forall m ensures !Addressed(s', j, m) {}
    forall m | Carries(s', j, m) ensures m.id > s'.subs[j].maxPub { assert Carries(s, j, m); }
  }

  /** Additions are made calmly. */
  ghost predicate CalmChange(w: World, c: Change)
    requires Sized(w) && Can(w, c)
  {
    c.AddSub? ==> Calm(w.s, c.k, c.p, w.off[c.k].value)
  }

  lemma StepKeepsWorldInv(w: World, step: Step)
    requires WorldInv(w) && Can(w, Do(step))
    ensures WorldInv(Changed(w, Do(step)))
  {
    hide Apply, Enabled, OffAt;
    var w' := Changed(w, Do(step));
    if !OffTheList(w, step) {
      StepKeepsTransitInv(w.s, step);
      forall k | 0 <= k < |w'.off| && w'.off[k].Some? ensures OffAt(w'.s, k) {
        StepKeepsOffAt(w.s, step, k);
      }
    }
    hide TransitInv;
  }

  lemma AddKeepsWorldInv(w: World, k: nat, p: nat)
    requires WorldInv(w) && Can(w, AddSub(k, p)) && CalmChange(w, AddSub(k, p))
    ensures WorldInv(Changed(w, AddSub(k, p)))
  {
    var taken, w' := w.off[k].value, Changed(w, AddSub(k, p));
    TransitParts(w.s);
    PlacedKeepsTransitInv(w.s, k, p, taken);
    forall j | 0 <= j < |w'.off| && w'.off[j].Some? ensures OffAt(w'.s, j) {
      PlacedKeepsOffAt(w.s, k, p, taken, j);
    }
    hide TransitInv, Placed, ValidSubs, OffAt, Calm;
  }

  lemma RemoveKeepsWorldInv(w: World, k: nat)
    requires WorldInv(w) && Can(w, RemoveSub(k))
    ensures WorldInv(Changed(w, RemoveSub(k)))
  {
    var w' := Changed(w, RemoveSub(k));
    TransitParts(w.s);
    MaskedKeepsTransitInv(w.s, k);
    forall j | 0 <= j < |w'.off| && w'.off[j].Some? ensures OffAt(w'.s, j) {
      MaskedKeepsOffAt(w.s, k, j);
    }
    hide TransitInv, Masked, OffAt;
  }

  lemma ChangeKeepsWorldInv(w: World, c: Change)
    requires WorldInv(w) && Can(w, c) && CalmChange(w, c)
    ensures WorldInv(Changed(w, c))
  {
    match c
    case Do(step) => StepKeepsWorldInv(w, step);
    case AddSub(k, p) => AddKeepsWorldInv(w, k, p);
    case RemoveSub(k) => RemoveKeepsWorldInv(w, k);
  }

  // ----- runs -----

  ghost predicate CanRun(w: World, cs: seq<Change>)
    requires Sized(w)
    decreases |cs|
  {
    cs != [] ==> Can(w, cs[0]) && CanRun(Changed(w, cs[0]), cs[1..])
  }

  /** The state after the first k changes. */
  ghost function WorldAt(w: World, cs: seq<Change>, k: nat): (r: World)
    requires Sized(w) && CanRun(w, cs) && k <= |cs|
    ensures Sized(r) && |r.s.subs| == |w.s.subs|
    decreases k
  {
    if k == 0 then w else WorldAt(Changed(w, cs[0]), cs[1..], k - 1)
  }

  ghost predicate CalmRun(w: World, cs: seq<Change>)
    requires Sized(w) && CanRun(w, cs)
    decreases |cs|
  {
    cs != [] ==> CalmChange(w, cs[0]) && CalmRun(Changed(w, cs[0]), cs[1..])
  }

  /** Nothing published yet; the subscribers at the positions in `on` are on the list. */
  ghost function InitWorld(subs: seq<Sub>, pool: set<Block>, on: set<nat>): (w: World)
    requires ValidSubs(subs)
    ensures Sized(w) && |w.s.subs| == |subs|
  {
    OnlyListed(subs, on);
    World(Init(OnList(subs, on), pool),
          seq(|subs|, k requires 0 <= k < |subs| => if k in on then None else Some(subs[k].subscribed)),
          seq(|subs|, _ => []))
  }

  ghost function OnList(subs: seq<Sub>, on: set<nat>): (r: seq<Sub>)
    ensures |r| == |subs|
  {
    seq(|subs|, k requires 0 <= k < |subs| => if k in on then subs[k] else subs[k].(subscribed := {}))
  }

  lemma OnlyListed(subs: seq<Sub>, on: set<nat>)
    requires ValidSubs(subs)
    ensures ValidSubs(OnList(subs, on))
  {
    assert TypesOf(OnList(subs, on)) == TypesOf(subs);
  }

  lemma InitWorldInv(subs: seq<Sub>, pool: set<Block>, on: set<nat>)
    requires ValidSubs(subs)
    ensures WorldInv(InitWorld(subs, pool, on))
  {
    OnlyListed(subs, on);
    InitTransitInv(OnList(subs, on), pool);
    var w := InitWorld(subs, pool, on);
    forall k | 0 <= k < |w.off| && w.off[k].Some? ensures OffAt(w.s, k) {
      assert Pre(w.s.poll[k]) + w.s.q[k] == [];
    }
    hide TransitInv;
  }

  /** In every state of every run, with subscribers put on the list and taken off it and subscriptions
      changing: counts are owners and the pool is conserved. */
  lemma {:induction false} RunKeepsInvAt(w: World, cs: seq<Change>, k: nat)
    requires Sized(w) && Inv(w.s) && CanRun(w, cs) && k <= |cs|
    ensures Inv(WorldAt(w, cs, k).s)
    ensures k < |cs| ==> Can(WorldAt(w, cs, k), cs[k])
    ensures k < |cs| ==> WorldAt(w, cs, k + 1) == Changed(WorldAt(w, cs, k), cs[k])
    decreases k
  {
    hide Changed, Can, Inv;
    if k > 0 {
      ChangeKeepsInv(w, cs[0]);
      RunKeepsInvAt(Changed(w, cs[0]), cs[1..], k - 1);
    } else if cs != [] {
      assert WorldAt(Changed(w, cs[0]), cs[1..], 0) == Changed(w, cs[0]);
    }
  }

  /** And while subscribers are put on it calmly, messages only move forward. */
  lemma {:induction false} RunKeepsTransitInvAt(w: World, cs: seq<Change>, k: nat)
    requires WorldInv(w) && CanRun(w, cs) && CalmRun(w, cs) && k <= |cs|
    ensures WorldInv(WorldAt(w, cs, k))
    ensures k < |cs| ==> Can(WorldAt(w, cs, k), cs[k]) && CalmChange(WorldAt(w, cs, k), cs[k])
    decreases k
  {
    hide Changed, Can, TransitInv, OffAt, CalmChange;
    if k > 0 {
      ChangeKeepsWorldInv(w, cs[0]);
      RunKeepsTransitInvAt(Changed(w, cs[0]), cs[1..], k - 1);
    }
  }

  /** The queueing subscribers that are on the list, or off it with m queued or in their handler. */
  ghost function Holders(w: World, m: Msg): (r: seq<nat>)
    requires Sized(w)
    ensures |r| == |w.s.subs|
  {
    seq(|w.s.subs|, k requires 0 <= k < |w.s.subs| =>
      if w.off[k].Some? && Times(w.s, k, m) == 0 then 0 else Caps(w.s.subs)[k])
  }

  lemma HoldersRoom(w: World, m: Msg)
    requires WorldInv(w)
    ensures RoomFor(w.s, m, Holders(w, m))
  {
    forall i | 0 <= i < |w.s.subs| && (Times(w.s, i, m) > 0 || Addressed(w.s, i, m))
      ensures Holders(w, m)[i] == Caps(w.s.subs)[i]
    {
      if w.off[i].Some? { assert OffAt(w.s, i); }
    }
    hide TransitInv, Caps, Times, Addressed;
  }

  /** A message is at each subscriber at most once since the subscriber was last put on the list, in at most
      one fifo, and its owners are at most one, plus one for each queueing subscriber on the list or with the
      message, plus what the application holds. */
  lemma AtEveryState(cs: seq<Change>, k: nat, subs: seq<Sub>, pool: set<Block>, on: set<nat>, m: Msg)
    requires ValidSubs(subs) && CanRun(InitWorld(subs, pool, on), cs) && CalmRun(InitWorld(subs, pool, on), cs)
    requires k <= |cs|
    ensures var w := WorldAt(InitWorld(subs, pool, on), cs, k);
            && Inv(w.s) && Links(w.s, m) <= 1
            && Owners(w.s, m) <= w.s.user[m] + 1 + Sum(Holders(w, m))
            && (forall i :: 0 <= i < |subs| ==> Count(w.s.handled[i], m) <= Count(Arrived(w.s, i), m) <= 1)
  {
    InitWorldInv(subs, pool, on);
    RunKeepsTransitInvAt(InitWorld(subs, pool, on), cs, k);
    var w := WorldAt(InitWorld(subs, pool, on), cs, k);
    TransitParts(w.s);
    OneLink(w.s, m);
    HoldersRoom(w, m);
    OwnersBoundBy(w.s, m, Holders(w, m));
    forall i | 0 <= i < |subs| ensures Count(w.s.handled[i], m) <= Count(Arrived(w.s, i), m) <= 1 {
      AtMostOnce(w.s, i, m);
    }
    hide TransitInv, Holders, Sum, InitWorld, WorldAt, RoomFor;
  }

  /** No assertion on a reference count fails while those subscribers and the references the application
      holds stay within 254. */
  lemma CountStaysInRangeAt(cs: seq<Change>, k: nat, subs: seq<Sub>, pool: set<Block>, on: set<nat>)
    requires ValidSubs(subs) && CanRun(InitWorld(subs, pool, on), cs) && CalmRun(InitWorld(subs, pool, on), cs)
    requires k < |cs| && cs[k].Do?
    requires var w' := WorldAt(InitWorld(subs, pool, on), cs, k + 1);
             forall m :: w'.s.user[m] + Sum(Holders(w', m)) <= UINT8_MAX - 1
    ensures var w := WorldAt(InitWorld(subs, pool, on), cs, k);
            Enabled(w.s, cs[k].step) && CountAssertsHold(w.s, cs[k].step)
  {
    var w0, step := InitWorld(subs, pool, on), cs[k].step;
    InitWorldInv(subs, pool, on);
    WorldParts(w0);
    hide InitWorld, ValidSubs, WorldInv, CanRun, CalmRun, WorldAt, Changed, Can;
    hide CountAssertsHold, Enabled, Inv, Sum, Holders;
    RunKeepsTransitInvAt(w0, cs, k);
    RunKeepsTransitInvAt(w0, cs, k + 1);
    RunKeepsInvAt(w0, cs, k);
    ChangeStaysInRange(WorldAt(w0, cs, k), step);
  }

  lemma WorldParts(w: World)
    requires WorldInv(w)
    ensures Sized(w) && Inv(w.s)
  {
    TransitParts(w.s);
    hide TransitInv, Inv;
  }

  lemma ChangeStaysInRange(w: World, step: Step)
    requires WorldInv(w) && Can(w, Do(step)) && WorldInv(Changed(w, Do(step)))
    requires var w' := Changed(w, Do(step)); forall m :: w'.s.user[m] + Sum(Holders(w', m)) <= UINT8_MAX - 1
    ensures Enabled(w.s, step) && CountAssertsHold(w.s, step)
  {
    var w' := Changed(w, Do(step));
    if Touched(w.s, step).Some? {
      var t := Touched(w.s, step).value;
      assert w'.s == Apply(w.s, step);
      hide Apply, Enabled, Touched, TransitInv, OffAt, Holders, Sum;
      HoldersRoom(w', t);
      CountStaysInRangeBy(w.s, step, t, Holders(w', t));
    }
  }

  lemma ChangeKeepsGone(w: World, c: Change, m: Msg)
    requires Sized(w) && Can(w, c) && Gone(w.s, m)
    ensures Gone(Changed(w, c).s, m)
  {
    if c.Do? && !OffTheList(w, c.step) { StepKeepsGone(w.s, c.step, m); }
  }

  lemma {:induction false} GoneStaysAt(w: World, cs: seq<Change>, j: nat, k: nat, m: Msg)
    requires Sized(w) && Inv(w.s) && CanRun(w, cs) && j <= k <= |cs| && Gone(WorldAt(w, cs, j).s, m)
    ensures Gone(WorldAt(w, cs, k).s, m)
    decreases k - j
  {
    hide Changed, Can, CanRun, Inv, WorldAt;
    if j < k {
      RunKeepsInvAt(w, cs, j);
      ChangeKeepsGone(WorldAt(w, cs, j), cs[j], m);
      GoneStaysAt(w, cs, j + 1, k, m);
    }
  }

  lemma StepOfChange(w: World, m: Msg)
    requires Sized(w) && Can(w, Do(Free(m)))
    ensures Enabled(w.s, Free(m)) && Changed(w, Do(Free(m))).s == Apply(w.s, Free(m))
  {
  }

  /** An allocation is freed at most once, when nobody owns it, and never used after that, with
      subscribers coming and going. */
  lemma FreedOnceAt(cs: seq<Change>, j: nat, k: nat, subs: seq<Sub>, pool: set<Block>, on: set<nat>, m: Msg)
    requires ValidSubs(subs) && CanRun(InitWorld(subs, pool, on), cs) && j < k < |cs| && cs[j] == Do(Free(m))
    ensures Owners(WorldAt(InitWorld(subs, pool, on), cs, j).s, m) == 0
    ensures var s := WorldAt(InitWorld(subs, pool, on), cs, k).s;
            && !InUse(s, m) && m !in s.user
            && (cs[k].Do? ==>
                  && Enabled(s, cs[k].step) && cs[k].step != Free(m) && Touched(s, cs[k].step) != Some(m)
                  && (HandlerCall(s, cs[k].step).Some? ==> HandlerCall(s, cs[k].step).value.m != m))
  {
    hide Changed, Can, CanRun, Inv, Touched, HandlerCall, InUse, WorldAt, Enabled, Owners, Gone;
    var w0 := InitWorld(subs, pool, on);
    InitWorldInv(subs, pool, on);
    TransitParts(w0.s);
    hide InitWorld, ValidSubs, WorldInv;
    RunKeepsInvAt(w0, cs, j);
    RunKeepsInvAt(w0, cs, k);
    StepOfChange(WorldAt(w0, cs, j), m);
    FreeMakesGone(WorldAt(w0, cs, j).s, m);
    GoneStaysAt(w0, cs, j + 1, k, m);
    GoneIsNotUsed(WorldAt(w0, cs, k), cs[k], m);
  }

  lemma GoneIsNotUsed(w: World, c: Change, m: Msg)
    requires Sized(w) && Inv(w.s) && Gone(w.s, m) && Can(w, c)
    ensures !InUse(w.s, m) && m !in w.s.user
    ensures c.Do? ==>
              && Enabled(w.s, c.step) && c.step != Free(m) && Touched(w.s, c.step) != Some(m)
              && (HandlerCall(w.s, c.step).Some? ==> HandlerCall(w.s, c.step).value.m != m)
  {
    GoneIsUnowned(w.s, m);
    if c.Do? { GoneIsUntouched(w.s, c.step, m); }
    hide Inv, Touched, HandlerCall, InUse;
  }
}
