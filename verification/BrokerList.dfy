/** The broker's subscriber list: a singly linked list threaded through the subscribers and updated in
    place. */
module BrokerList {
  import opened Types
  import opened ListSpec

  class Subscriber {
    const rxType: RxType
    var priority: nat
    var broker: Broker?
    var next: Subscriber?

    /** pub_sub_init_*_subscriber: on no broker, priority 0. */
    constructor (rxType: RxType)
      ensures this.rxType == rxType && priority == 0 && broker == null
    {
      this.rxType, priority, broker, next := rxType, 0, null, null;
    }

    /** A listed subscriber keeps the priority it was inserted with. */
    method SetPriority(priority: nat)
      requires broker == null && priority <= 255
      modifies this`priority
      ensures this.priority == priority
    {
      this.priority := priority;
    }
  }

  class Broker {
    var head: Subscriber?
    ghost var list: seq<Subscriber>
    ghost var entries: seq<Entry>      // what `list` says, and when each was added
    ghost var clock: nat

    ghost function At(i: nat): Subscriber?
      reads this
    {
      if i < |list| then list[i] else null
    }

    /** `list` is what is reached from the head ... */
    ghost predicate Chained()
      reads this, list
    {
      && head == At(0)
      && (forall i {:trigger list[i].next} :: 0 <= i < |list| ==> list[i].next == At(i + 1))
      && (forall i, j :: 0 <= i < j < |list| ==> list[i] != list[j])
    }

    /** ... everything on it knows its broker, and `entries` is what it says. */
    ghost predicate Described()
      reads this, list
    {
      && (forall i {:trigger list[i].broker} :: 0 <= i < |list| ==> list[i].broker == this)
      && |entries| == |list|
      && (forall i {:trigger entries[i]} {:trigger list[i].priority} :: 0 <= i < |list| ==>
            entries[i].rxType == list[i].rxType && entries[i].priority == list[i].priority)
    }

    ghost predicate Linked()
      reads this, list
    {
      Chained() && Described()
    }

    ghost predicate Valid()
      reads this, list
    {
      Linked() && Listed(entries, clock)
    }

    constructor ()
      ensures Valid() && list == [] && entries == [] && clock == 0
    {
      head, list, entries, clock := null, [], [], 0;
    }

    /** Search for the start of the group of `rxType`. */
    method FindGroup(rxType: RxType) returns (prev: Subscriber?, current: Subscriber?)
      requires Linked()
      ensures var p := GroupStart(entries, rxType);
              current == At(p) && prev == if p == 0 then null else list[p - 1]
    {
      prev, current := null, head;
      ghost var p := 0;
      while current != null && current.rxType != rxType
        invariant p <= |list| && current == At(p)
        invariant prev == if p == 0 then null else list[p - 1]
        invariant forall k :: 0 <= k < p ==> entries[k].rxType != rxType
        decreases |list| - p
      {
        assert entries[p].rxType == current.rxType;
        prev, current, p := current, current.next, p + 1;
      }
      assert p < |list| ==> entries[p].rxType == rxType;
    }

    /** Where a new subscriber goes: just after `prev`, or first when there is none. */
    method FindPlace(rxType: RxType, priority: nat) returns (prev: Subscriber?)
      requires Linked()
      ensures var p := InsertAt(entries, rxType, priority);
              prev == if p == 0 then null else list[p - 1]
    {
      var current;
      prev, current := FindGroup(rxType);
      ghost var start := GroupStart(entries, rxType);
      ghost var p := start;
      while current != null && !(current.priority > priority || current.rxType != rxType)
        invariant start <= p <= |list| && current == At(p)
        invariant prev == if p == 0 then null else list[p - 1]
        invariant forall k :: start <= k < p ==> !Stops(entries[k], rxType, priority)
        decreases |list| - p
      {
        assert !Stops(entries[p], rxType, priority);
        prev, current, p := current, current.next, p + 1;
      }
      assert p < |list| ==> Stops(entries[p], rxType, priority);
    }

    /** Link `sub` in after `prev`, the p-th subscriber, or at the head. */
    method InsertAfter(prev: Subscriber?, sub: Subscriber, ghost p: nat)
      requires Linked() && p <= |list| && prev == (if p == 0 then null else list[p - 1])
      requires sub !in list && sub.broker == this
      modifies this`head, this`list, this`entries, sub`next, list`next
      ensures Linked() && list == old(list)[..p] + [sub] + old(list)[p..]
      ensures entries == old(entries)[..p] + [Entry(sub.rxType, sub.priority, clock)] + old(entries)[p..]
    {
      Chain(prev, sub, p);
      entries := entries[..p] + [Entry(sub.rxType, sub.priority, clock)] + entries[p..];
      hide Chained;
    }

    method Chain(prev: Subscriber?, sub: Subscriber, ghost p: nat)
      requires Chained() && p <= |list| && prev == (if p == 0 then null else list[p - 1]) && sub !in list
      modifies this`head, this`list, sub`next, list`next
      ensures Chained() && list == old(list)[..p] + [sub] + old(list)[p..]
    {
      if prev == null {
        sub.next := head;
        head := sub;
      } else {
        sub.next := prev.next;
        prev.next := sub;
      }
      list := list[..p] + [sub] + list[p..];
    }

    /** pub_sub_add_subscriber_to_broker: the other subscribers stay as they were, in their order. */
    method Add(sub: Subscriber)
      requires Valid() && sub.broker == null
      modifies this, sub`broker, sub`next, list`next
      ensures Valid() && sub.broker == this
      ensures var p := InsertAt(old(entries), sub.rxType, sub.priority);
              list == old(list)[..p] + [sub] + old(list)[p..]
      ensures entries == Inserted(old(entries), Entry(sub.rxType, sub.priority, old(clock)))
      ensures clock == old(clock) + 1
    {
      OpKeepsListed(entries, Op.Add(sub.rxType, sub.priority), clock);
      sub.broker := this;
      var prev := FindPlace(sub.rxType, sub.priority);
      InsertAfter(prev, sub, InsertAt(entries, sub.rxType, sub.priority));
      clock := clock + 1;
    }

    /** pub_sub_subscriber_remove_broker: find the subscriber and unlink it. */
    method Remove(sub: Subscriber)
      requires Valid() && sub in list
      modifies this`head, this`list, this`entries, sub`broker, sub`next, list`next
      ensures Valid() && sub.broker == null && sub !in list
      ensures exists p :: 0 <= p < |old(list)| && old(list)[p] == sub &&
                          list == old(list)[..p] + old(list)[p + 1..] &&
                          entries == Do(old(entries), Op.Remove(p), clock)
    {
      ghost var p := 0;
      var prev: Subscriber? := null;
      var current := head;
      while current != sub
        invariant p < |list| && current == list[p] && sub in list[p..]
        invariant prev == if p == 0 then null else list[p - 1]
        decreases |list| - p
      {
        prev, current, p := current, current.next, p + 1;
      }
      RemoveKeepsListed(entries, p, clock);
      Unlink(prev, sub, p);
    }

    method Unlink(prev: Subscriber?, sub: Subscriber, ghost p: nat)
      requires Linked() && p < |list| && list[p] == sub && prev == (if p == 0 then null else list[p - 1])
      modifies this`head, this`list, this`entries, sub`next, sub`broker, list`next
      ensures Linked() && list == old(list)[..p] + old(list)[p + 1..]
      ensures entries == old(entries)[..p] + old(entries)[p + 1..]
      ensures sub.broker == null && sub !in list
    {
      Unchain(prev, sub, p);
      sub.broker := null;
      entries := entries[..p] + entries[p + 1..];
      hide Chained;
    }

    method Unchain(prev: Subscriber?, sub: Subscriber, ghost p: nat)
      requires Chained() && p < |list| && list[p] == sub && prev == (if p == 0 then null else list[p - 1])
      modifies this`head, this`list, sub`next, list`next
      ensures Chained() && list == old(list)[..p] + old(list)[p + 1..] && sub !in list
    {
      if prev == null {
        head := sub.next;
      } else {
        prev.next := sub.next;
      }
      sub.next := null;
      list := list[..p] + list[p + 1..];
    }
  }
}
