/** Fan-out: the list positions a published message goes to, first by the broker's loop and then by the
    relays from one fifo subscriber to the next; and what the type order of the list is for. */
module FanOut {
  import opened Types
  import opened Protocol

  /** Where the loop of process_msg delivers, from list position pos on. */
  function BrokerTargets(subs: seq<Sub>, id: nat, pos: nat): seq<nat>
    requires pos <= |subs|
    decreases |subs| - pos
  {
    if pos == |subs| then []
    else if !subs[pos].Wants(id) then BrokerTargets(subs, id, pos + 1)
    else if subs[pos].rxType.Fifo? then [pos]
    else [pos] + BrokerTargets(subs, id, pos + 1)
  }

  /** Where send_to_next_fifo_subscriber passes it on, starting with the subscriber at i. */
  function RelayTargets(subs: seq<Sub>, id: nat, i: nat): (r: seq<nat>)
    requires i < |subs|
    ensures forall k :: k in r ==> i < k < |subs|
    decreases |subs| - i
  {
    var next := NextWanting(subs, i + 1, id);
    if next == |subs| then [] else [next] + RelayTargets(subs, id, next)
  }

  /** The fifo subscriber at which the broker stops, or |subs|. */
  function FirstFifo(subs: seq<Sub>, id: nat, pos: nat): (r: nat)
    requires pos <= |subs|
    ensures pos <= r <= |subs|
    ensures r < |subs| ==> subs[r].Wants(id) && subs[r].rxType.Fifo?
    ensures forall k :: pos <= k < r ==> !(subs[k].Wants(id) && subs[k].rxType.Fifo?)
    decreases |subs| - pos
  {
    if pos == |subs| || (subs[pos].Wants(id) && subs[pos].rxType.Fifo?) then pos
    else FirstFifo(subs, id, pos + 1)
  }

  function RelayedTo(subs: seq<Sub>, id: nat, pos: nat): (r: seq<nat>)
    requires pos <= |subs|
    ensures forall k :: k in r ==> k < |subs|
  {
    var f := FirstFifo(subs, id, pos);
    if f == |subs| then [] else RelayTargets(subs, id, f)
  }

  /** The positions from pos on whose subscriber takes id. */
  function Takers(subs: seq<Sub>, id: nat, pos: nat): seq<nat>
    requires pos <= |subs|
    decreases |subs| - pos
  {
    if pos == |subs| then []
    else if subs[pos].Wants(id) then [pos] + Takers(subs, id, pos + 1)
    else Takers(subs, id, pos + 1)
  }

  /** Each of them once, in list order, and no others. */
  lemma {:induction false} TakersInOrder(subs: seq<Sub>, id: nat, pos: nat)
    requires pos <= |subs|
    ensures forall k :: k in Takers(subs, id, pos) <==> pos <= k < |subs| && subs[k].Wants(id)
    ensures forall i, j :: 0 <= i < j < |Takers(subs, id, pos)| ==> Takers(subs, id, pos)[i] < Takers(subs, id, pos)[j]
    decreases |subs| - pos
  {
    if pos < |subs| {
      TakersInOrder(subs, id, pos + 1);
      var rest := Takers(subs, id, pos + 1);
      assert forall j :: 0 <= j < |rest| ==> rest[j] in rest;
    }
  }

  lemma {:induction false} TakersFrom(subs: seq<Sub>, id: nat, pos: nat)
    requires pos <= |subs|
    ensures var next := NextWanting(subs, pos, id);
            Takers(subs, id, pos) == if next == |subs| then [] else [next] + Takers(subs, id, next + 1)
    decreases |subs| - pos
  {
    if pos < |subs| && !subs[pos].Wants(id) { TakersFrom(subs, id, pos + 1); }
  }

  lemma {:induction false} RelaysReachTheRest(subs: seq<Sub>, id: nat, i: nat)
    requires i < |subs|
    ensures RelayTargets(subs, id, i) == Takers(subs, id, i + 1)
    decreases |subs| - i
  {
    var next := NextWanting(subs, i + 1, id);
    TakersFrom(subs, id, i + 1);
    if next < |subs| { RelaysReachTheRest(subs, id, next); }
  }

  /** Broker and relays together reach every subscriber that takes the message, once, in list order:
      whatever the order of the list. */
  lemma {:induction false} FanOutReachesTakers(subs: seq<Sub>, id: nat, pos: nat)
    requires pos <= |subs|
    ensures BrokerTargets(subs, id, pos) + RelayedTo(subs, id, pos) == Takers(subs, id, pos)
    decreases |subs| - pos
  {
    hide NextWanting, RelayTargets;
    if pos == |subs| {
    } else if !subs[pos].Wants(id) {
      FanOutReachesTakers(subs, id, pos + 1);
      assert RelayedTo(subs, id, pos) == RelayedTo(subs, id, pos + 1);
    } else if subs[pos].rxType.Fifo? {
      RelaysReachTheRest(subs, id, pos);
    } else {
      FanOutReachesTakers(subs, id, pos + 1);
      assert RelayedTo(subs, id, pos) == RelayedTo(subs, id, pos + 1);
      Assoc([pos], BrokerTargets(subs, id, pos + 1), RelayedTo(subs, id, pos + 1));
    }
  }

  /** No msgq or callback subscriber that takes id stands behind a fifo subscriber that does. */
  predicate FifosLast(subs: seq<Sub>, id: nat) {
    forall i, j :: 0 <= i < j < |subs| && subs[i].Wants(id) && subs[j].Wants(id) && subs[i].rxType.Fifo? ==>
      subs[j].rxType.Fifo?
  }

  /** A relay puts into the fifo of the next subscriber without looking at its type. The subscribers it
      reaches all have one exactly when the fifo subscribers stand last. */
  lemma RelaysOnlyToFifosIff(subs: seq<Sub>, id: nat)
    ensures (forall k :: k in RelayedTo(subs, id, 0) ==> subs[k].rxType.Fifo?) <==> FifosLast(subs, id)
  {
    var f := FirstFifo(subs, id, 0);
    if f < |subs| {
      RelaysReachTheRest(subs, id, f);
      TakersInOrder(subs, id, f + 1);
    }
    if forall k :: k in RelayedTo(subs, id, 0) ==> subs[k].rxType.Fifo? {
      forall i, j | 0 <= i < j < |subs| && subs[i].Wants(id) && subs[j].Wants(id) && subs[i].rxType.Fifo?
        ensures subs[j].rxType.Fifo?
      {
        assert f <= i;
        assert j in RelayedTo(subs, id, 0);
      }
    }
  }

  /** A list in type order has them last for every id. */
  lemma TypeOrderPutsFifosLast(subs: seq<Sub>, id: nat)
    requires TypeOrdered(TypesOf(subs))
    ensures FifosLast(subs, id)
  {
    var types := TypesOf(subs);
    forall i, j | 0 <= i < j < |subs| && subs[i].rxType.Fifo? ensures subs[j].rxType.Fifo? {
      assert Rank(types[i]) <= Rank(types[j]);
    }
  }
}
