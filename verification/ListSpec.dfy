/** The broker's subscriber list as a sequence: where a subscriber is inserted, and what that keeps
    over every sequence of additions and removals. */
module ListSpec {
  import opened Types

  /** A listed subscriber: its type and priority, and when it was added. */
  datatype Entry = Entry(rxType: RxType, priority: nat, stamp: nat)

  // ----- the insertion point -----

  /** The first index at which a subscriber of type t stands, or |list|. */
  function GroupStart(list: seq<Entry>, t: RxType): (r: nat)
    ensures r <= |list|
    ensures r < |list| ==> list[r].rxType == t
    ensures forall k :: 0 <= k < r ==> list[k].rxType != t
  {
    if list == [] || list[0].rxType == t then 0 else 1 + GroupStart(list[1..], t)
  }

  predicate Stops(e: Entry, t: RxType, priority: nat) {
    e.priority > priority || e.rxType != t
  }

  /** The first index at or after `from` with a larger priority value or another type, or |list|. */
  function GroupEnd(list: seq<Entry>, from: nat, t: RxType, priority: nat): (r: nat)
    requires from <= |list|
    ensures from <= r <= |list|
    ensures r < |list| ==> Stops(list[r], t, priority)
    ensures forall k :: from <= k < r ==> !Stops(list[k], t, priority)
    decreases |list| - from
  {
    if from == |list| || Stops(list[from], t, priority) then from
    else GroupEnd(list, from + 1, t, priority)
  }

  function InsertAt(list: seq<Entry>, t: RxType, priority: nat): (r: nat)
    ensures r <= |list|
  {
    GroupEnd(list, GroupStart(list, t), t, priority)
  }

  function InsertedAt(list: seq<Entry>, p: nat, e: Entry): seq<Entry>
    requires p <= |list|
  {
    list[..p] + [e] + list[p..]
  }

  function Inserted(list: seq<Entry>, e: Entry): seq<Entry> {
    InsertedAt(list, InsertAt(list, e.rxType, e.priority), e)
  }

  // ----- what the order of the list means -----

  /** Subscribers of one type stand together. */
  ghost predicate Contiguous(list: seq<Entry>) {
    forall i, j, k :: 0 <= i < j < k < |list| && list[i].rxType == list[k].rxType ==>
      list[j].rxType == list[i].rxType
  }

  ghost predicate Precedes(a: Entry, b: Entry) {
    a.priority < b.priority || (a.priority == b.priority && a.stamp < b.stamp)
  }

  /** Within a type: by priority, and in order of addition for equal priorities. */
  ghost predicate Sorted(list: seq<Entry>) {
    forall i, j :: 0 <= i < j < |list| && list[i].rxType == list[j].rxType ==> Precedes(list[i], list[j])
  }

  ghost function TypesIn(list: seq<Entry>): (r: seq<RxType>)
    ensures |r| == |list| && forall i :: 0 <= i < |list| ==> r[i] == list[i].rxType
  {
    seq(|list|, i requires 0 <= i < |list| => list[i].rxType)
  }

  /** All callbacks before all msgqs before all fifos. */
  ghost predicate InTypeOrder(list: seq<Entry>) {
    TypeOrdered(TypesIn(list))
  }

  /** Where the new entry ends up relative to each old one of its type. */
  lemma InsertPlaces(list: seq<Entry>, e: Entry, k: nat)
    requires Contiguous(list) && Sorted(list) && k < |list| && list[k].rxType == e.rxType
    ensures k < InsertAt(list, e.rxType, e.priority) <==> list[k].priority <= e.priority
  {
    var s, p := GroupStart(list, e.rxType), InsertAt(list, e.rxType, e.priority);
    if p <= k { assert Stops(list[p], e.rxType, e.priority); assert list[s].rxType == e.rxType; }
  }

  lemma InsertKeepsContiguous(list: seq<Entry>, e: Entry)
    requires Contiguous(list)
    ensures Contiguous(Inserted(list, e))
  {
    hide InsertAt;
    var p := InsertAt(list, e.rxType, e.priority);
    var after := Inserted(list, e);
    forall i, j, k | 0 <= i < j < k < |after| && after[i].rxType == after[k].rxType
      ensures after[j].rxType == after[i].rxType
    {
      if j == p {
        NotSplit(list, e, i, k - 1);
      } else if i == p {
        NoneBetween(list, e, j - 1, k - 1);
      } else if k == p {
        NoneBetween(list, e, j, i);
      } else {
        var i', j', k' := if i < p then i else i - 1, if j < p then j else j - 1, if k < p then k else k - 1;
        assert list[j'].rxType == list[i'].rxType;
      }
    }
  }

  /** Between the insertion point and an entry k of the same type there is no other type. */
  lemma NoneBetween(list: seq<Entry>, e: Entry, j: nat, k: nat)
    requires Contiguous(list) && k < |list| && list[k].rxType == e.rxType
    requires var p := InsertAt(list, e.rxType, e.priority); p <= j < k || k < j < p
    ensures list[j].rxType == e.rxType
  {
    assert list[GroupStart(list, e.rxType)].rxType == e.rxType;
  }

  /** The insertion point is never inside the group of another type. */
  lemma NotSplit(list: seq<Entry>, e: Entry, i: nat, k: nat)
    requires Contiguous(list) && i < InsertAt(list, e.rxType, e.priority) <= k < |list|
    requires list[i].rxType == list[k].rxType
    ensures list[i].rxType == e.rxType
  {
  }

  lemma InsertKeepsSorted(list: seq<Entry>, e: Entry)
    requires Contiguous(list) && Sorted(list) && forall k :: 0 <= k < |list| ==> list[k].stamp < e.stamp
    ensures Sorted(Inserted(list, e))
  {
    hide InsertAt, Contiguous;
    var p := InsertAt(list, e.rxType, e.priority);
    var after := Inserted(list, e);
    forall i, j | 0 <= i < j < |after| && after[i].rxType == after[j].rxType
      ensures Precedes(after[i], after[j])
    {
      if i == p {
        InsertPlaces(list, e, j - 1);
      } else if j == p {
        InsertPlaces(list, e, i);
      } else {
        var i', j' := if i < p then i else i - 1, if j < p then j else j - 1;
        assert Precedes(list[i'], list[j']);
      }
    }
  }

  /** Type t is already listed, or no type at or after it is. */
  predicate FitsAtEnd(list: seq<Entry>, t: RxType) {
    || (exists k :: 0 <= k < |list| && list[k].rxType == t)
    || (forall k :: 0 <= k < |list| ==> Rank(list[k].rxType) < Rank(t))
  }

  /** A first subscriber of its type goes to the very end, so the list stays in type order exactly
      when its type is already there or no later type is. */
  lemma InsertKeepsTypeOrderIff(list: seq<Entry>, e: Entry)
    requires InTypeOrder(list)
    ensures InTypeOrder(Inserted(list, e)) <==> FitsAtEnd(list, e.rxType)
  {
    var s, p := GroupStart(list, e.rxType), InsertAt(list, e.rxType, e.priority);
    var after, types := Inserted(list, e), TypesIn(list);
    if s < |list| {
      forall i, j | 0 <= i < j < |after| ensures Rank(after[i].rxType) <= Rank(after[j].rxType) {
        var i', j' := if i < p then i else i - 1, if j < p then j else j - 1;
        assert i != p && j != p ==> Rank(types[i']) <= Rank(types[j']);
        assert i == p ==> Rank(types[s]) <= Rank(types[j']);
        if j == p {
          assert i > s ==> !Stops(list[i], e.rxType, e.priority);
          assert Rank(types[i]) <= Rank(types[s]) || i > s;
        }
      }
      assert list[s].rxType == e.rxType;
    } else {
      assert after == list + [e];
      if k :| 0 <= k < |list| && Rank(list[k].rxType) >= Rank(e.rxType) {
        assert list[k].rxType != e.rxType;
        assert TypesIn(after)[k] == list[k].rxType && TypesIn(after)[|list|] == e.rxType;
      } else {
        forall i, j | 0 <= i < j < |after| ensures Rank(after[i].rxType) <= Rank(after[j].rxType) {
          assert j < |list| ==> Rank(types[i]) <= Rank(types[j]);
        }
      }
    }
  }

  // ----- runs -----

  datatype Op = Add(rxType: RxType, priority: nat) | Remove(index: nat)

  predicate CanDo(list: seq<Entry>, op: Op) {
    op.Remove? ==> op.index < |list|
  }

  /** The list after one operation; `now` is later than every addition so far. */
  function Do(list: seq<Entry>, op: Op, now: nat): seq<Entry>
    requires CanDo(list, op)
  {
    match op
    case Add(t, priority) => Inserted(list, Entry(t, priority, now))
    case Remove(i) => list[..i] + list[i + 1..]
  }

  predicate CanRun(list: seq<Entry>, ops: seq<Op>, now: nat)
    decreases |ops|
  {
    ops == [] || (CanDo(list, ops[0]) && CanRun(Do(list, ops[0], now), ops[1..], now + 1))
  }

  function RunOps(list: seq<Entry>, ops: seq<Op>, now: nat): seq<Entry>
    requires CanRun(list, ops, now)
    decreases |ops|
  {
    if ops == [] then list else RunOps(Do(list, ops[0], now), ops[1..], now + 1)
  }

  ghost predicate Listed(list: seq<Entry>, now: nat) {
    Contiguous(list) && Sorted(list) && forall k :: 0 <= k < |list| ==> list[k].stamp < now
  }

  lemma OpKeepsListed(list: seq<Entry>, op: Op, now: nat)
    requires Listed(list, now) && CanDo(list, op)
    ensures Listed(Do(list, op, now), now + 1)
  {
    match op
    case Add(t, priority) =>
      InsertKeepsContiguous(list, Entry(t, priority, now));
      InsertKeepsSorted(list, Entry(t, priority, now));
    case Remove(i) => RemoveKeepsListed(list, i, now);
  }

  lemma RemoveKeepsListed(list: seq<Entry>, i: nat, now: nat)
    requires Listed(list, now) && i < |list|
    ensures Listed(list[..i] + list[i + 1..], now)
  {
    var after := list[..i] + list[i + 1..];
    forall a, b, c | 0 <= a < b < c < |after| && after[a].rxType == after[c].rxType
      ensures after[b].rxType == after[a].rxType
    {
      var a', b', c' := if a < i then a else a + 1, if b < i then b else b + 1, if c < i then c else c + 1;
      assert list[b'].rxType == list[a'].rxType;
    }
    forall a, b | 0 <= a < b < |after| && after[a].rxType == after[b].rxType
      ensures Precedes(after[a], after[b])
    {
      var a', b' := if a < i then a else a + 1, if b < i then b else b + 1;
      assert Precedes(list[a'], list[b']);
    }
  }

  /** After any additions and removals, types stand together and each type is sorted by priority and,
      for equal priorities, by the order of addition. */
  lemma {:induction false} RunKeepsListed(list: seq<Entry>, ops: seq<Op>, now: nat)
    requires Listed(list, now) && CanRun(list, ops, now)
    ensures Listed(RunOps(list, ops, now), now + |ops|)
    decreases |ops|
  {
    if ops != [] {
      OpKeepsListed(list, ops[0], now);
      RunKeepsListed(Do(list, ops[0], now), ops[1..], now + 1);
    }
  }

  /** No subscriber is the first of its type while a later type is listed. */
  predicate FirstOfTypeInOrder(list: seq<Entry>, ops: seq<Op>, now: nat)
    requires CanRun(list, ops, now)
    decreases |ops|
  {
    ops == [] ||
    ((ops[0].Add? ==> FitsAtEnd(list, ops[0].rxType)) &&
     FirstOfTypeInOrder(Do(list, ops[0], now), ops[1..], now + 1))
  }

  lemma RemoveKeepsTypeOrder(list: seq<Entry>, i: nat)
    requires InTypeOrder(list) && i < |list|
    ensures InTypeOrder(list[..i] + list[i + 1..])
  {
    var after, types := list[..i] + list[i + 1..], TypesIn(list);
    forall a, b | 0 <= a < b < |after| ensures Rank(after[a].rxType) <= Rank(after[b].rxType) {
      var a', b' := if a < i then a else a + 1, if b < i then b else b + 1;
      assert Rank(types[a']) <= Rank(types[b']);
    }
  }

  /** Along a run the list is in type order throughout exactly when every addition finds its own type
      present or no later type listed. */
  ghost predicate InTypeOrderThroughout(list: seq<Entry>, ops: seq<Op>, now: nat)
    requires CanRun(list, ops, now)
    decreases |ops|
  {
    InTypeOrder(list) && (ops != [] ==> InTypeOrderThroughout(Do(list, ops[0], now), ops[1..], now + 1))
  }

  lemma {:induction false} RunKeepsTypeOrderIff(list: seq<Entry>, ops: seq<Op>, now: nat)
    requires InTypeOrder(list) && CanRun(list, ops, now)
    ensures InTypeOrderThroughout(list, ops, now) <==> FirstOfTypeInOrder(list, ops, now)
    decreases |ops|
  {
    if ops != [] {
      var op, rest := ops[0], ops[1..];
      var next := Do(list, op, now);
      if op.Add? {
        InsertKeepsTypeOrderIff(list, Entry(op.rxType, op.priority, now));
        assert InTypeOrder(next) <==> FitsAtEnd(list, op.rxType);
      } else {
        RemoveKeepsTypeOrder(list, op.index);
      }
      assert InTypeOrderThroughout(next, rest, now + 1) ==> InTypeOrder(next);
      if InTypeOrder(next) { RunKeepsTypeOrderIff(next, rest, now + 1); }
    } else {
      assert InTypeOrderThroughout(list, ops, now);
    }
  }

  /** The order of a list can be wrong: a callback subscriber added after a fifo stands behind it. */
  lemma CallbackAfterFifo()
    ensures var ops := [Add(Fifo, 0), Add(Callback, 0)];
            && CanRun([], ops, 0) && TypesIn(RunOps([], ops, 0)) == [Fifo, Callback]
            && !InTypeOrder(RunOps([], ops, 0))
  {
    var a := Do([], Add(Fifo, 0), 0);
    assert a == [Entry(Fifo, 0, 0)];
    assert GroupStart(a[1..], Callback) == 0 && GroupStart(a, Callback) == 1;
    var b := Do(a, Add(Callback, 0), 1);
    assert b == [Entry(Fifo, 0, 0), Entry(Callback, 0, 1)];
    var ops := [Add(Fifo, 0), Add(Callback, 0)];
    assert ops[1..] == [Add(Callback, 0)] && ops[1..][1..] == [];
    assert CanRun(b, [], 2) && CanRun(a, ops[1..], 1) && CanRun([], ops, 0);
    assert RunOps(b, [], 2) == b && RunOps(a, ops[1..], 1) == b;
    assert TypesIn(b)[0] == Fifo && TypesIn(b)[1] == Callback;
  }

  // ----- priorities changed while listed -----

  /** `live` is the list `list` after some of its subscribers' priorities were set again. */
  ghost predicate Reprioritised(list: seq<Entry>, live: seq<Entry>) {
    |live| == |list| && forall k :: 0 <= k < |list| ==> live[k].rxType == list[k].rxType
  }

  /** Every listed subscriber the new one should go behind, by the priorities at the time of addition,
      still has a value as small as its own, and the one it should go in front of a larger one. */
  ghost predicate StillOrdered(list: seq<Entry>, live: seq<Entry>, t: RxType, priority: nat)
    requires Reprioritised(list, live)
  {
    var s, p := GroupStart(list, t), InsertAt(list, t, priority);
    && (forall k :: s <= k < p ==> live[k].priority <= priority)
    && (p < |list| && list[p].rxType == t ==> live[p].priority > priority)
  }

  /** The insertion compares the priorities of the moment. A new subscriber goes where those at the time
      of addition would put it exactly when these still order it the same way. */
  lemma ChangedPriorityHarmlessIff(list: seq<Entry>, live: seq<Entry>, t: RxType, priority: nat)
    requires Reprioritised(list, live)
    ensures InsertAt(live, t, priority) == InsertAt(list, t, priority) <==> StillOrdered(list, live, t, priority)
  {
    var s, p, q := GroupStart(list, t), InsertAt(list, t, priority), InsertAt(live, t, priority);
    assert GroupStart(live, t) == s;
    if p == q {
      forall k | s <= k < p ensures live[k].priority <= priority {
        assert !Stops(list[k], t, priority) && !Stops(live[k], t, priority);
      }
    } else if q < p {
      assert !Stops(list[q], t, priority) && Stops(live[q], t, priority);
      assert live[q].priority > priority;
    } else {
      assert Stops(list[p], t, priority) && !Stops(live[p], t, priority);
    }
  }

  /** In a list sorted by the priorities at the time of addition there is no second place for e. */
  lemma OtherPlaceUnsorted(list: seq<Entry>, live: seq<Entry>, e: Entry)
    requires Reprioritised(list, live) && forall k :: 0 <= k < |list| ==> list[k].stamp < e.stamp
    requires InsertAt(live, e.rxType, e.priority) != InsertAt(list, e.rxType, e.priority)
    ensures !Sorted(InsertedAt(list, InsertAt(live, e.rxType, e.priority), e))
  {
    var p, q := InsertAt(list, e.rxType, e.priority), InsertAt(live, e.rxType, e.priority);
    assert GroupStart(live, e.rxType) == GroupStart(list, e.rxType);
    var after := InsertedAt(list, q, e);
    if q < p {
      assert !Stops(list[q], e.rxType, e.priority);
      assert after[q] == e && after[q + 1] == list[q] && !Precedes(e, list[q]);
    } else {
      assert Stops(list[p], e.rxType, e.priority) && !Stops(live[p], e.rxType, e.priority);
      assert after[p] == list[p] && after[q] == e && !Precedes(list[p], e);
    }
  }

  /** An addition, a removal, or a priority set again while listed. */
  datatype Change = ListOp(op: Op) | SetPriority(index: nat, priority: nat)

  predicate CanChange(list: seq<Entry>, c: Change) {
    match c
    case ListOp(op) => CanDo(list, op)
    case SetPriority(i, _) => i < |list|
  }

  /** The listed subscribers with their priorities at the time of addition after a change; additions
      go by the priorities of the moment. */
  function ChangeAdded(list: seq<Entry>, live: seq<Entry>, c: Change, now: nat): seq<Entry>
    requires |live| == |list| && CanChange(list, c)
  {
    match c
    case ListOp(Add(t, priority)) => InsertedAt(list, InsertAt(live, t, priority), Entry(t, priority, now))
    case ListOp(Remove(i)) => list[..i] + list[i + 1..]
    case SetPriority(_, _) => list
  }

  /** ... and with the priorities of the moment. */
  function ChangeLive(live: seq<Entry>, c: Change, now: nat): seq<Entry>
    requires CanChange(live, c)
  {
    match c
    case ListOp(op) => Do(live, op, now)
    case SetPriority(i, priority) => live[i := live[i].(priority := priority)]
  }

  predicate CanRunChanges(list: seq<Entry>, live: seq<Entry>, cs: seq<Change>, now: nat)
    requires |live| == |list|
    decreases |cs|
  {
    cs == [] ||
    (CanChange(list, cs[0]) &&
     CanRunChanges(ChangeAdded(list, live, cs[0], now), ChangeLive(live, cs[0], now), cs[1..], now + 1))
  }

  ghost predicate SortedThroughout(list: seq<Entry>, live: seq<Entry>, cs: seq<Change>, now: nat)
    requires |live| == |list| && CanRunChanges(list, live, cs, now)
    decreases |cs|
  {
    Sorted(list) &&
    (cs != [] ==>
       SortedThroughout(ChangeAdded(list, live, cs[0], now), ChangeLive(live, cs[0], now), cs[1..], now + 1))
  }

  ghost predicate AdditionsStillOrdered(list: seq<Entry>, live: seq<Entry>, cs: seq<Change>, now: nat)
    requires Reprioritised(list, live) && CanRunChanges(list, live, cs, now)
    decreases |cs|
  {
    cs == [] ||
    ((cs[0].ListOp? && cs[0].op.Add? ==> StillOrdered(list, live, cs[0].op.rxType, cs[0].op.priority)) &&
     (ChangeKeepsReprioritised(list, live, cs[0], now);
      AdditionsStillOrdered(ChangeAdded(list, live, cs[0], now), ChangeLive(live, cs[0], now), cs[1..], now + 1)))
  }

  lemma ChangeKeepsReprioritised(list: seq<Entry>, live: seq<Entry>, c: Change, now: nat)
    requires Reprioritised(list, live) && CanChange(list, c)
    ensures Reprioritised(ChangeAdded(list, live, c, now), ChangeLive(live, c, now))
  {
  }

  lemma ChangeKeepsListed(list: seq<Entry>, live: seq<Entry>, c: Change, now: nat)
    requires Listed(list, now) && Reprioritised(list, live) && CanChange(list, c)
    requires c.ListOp? && c.op.Add? ==> StillOrdered(list, live, c.op.rxType, c.op.priority)
    ensures Listed(ChangeAdded(list, live, c, now), now + 1)
  {
    if c.ListOp? {
      if c.op.Add? { ChangedPriorityHarmlessIff(list, live, c.op.rxType, c.op.priority); }
      OpKeepsListed(list, c.op, now);
      assert ChangeAdded(list, live, c, now) == Do(list, c.op, now);
    }
  }

  /** Over any additions, removals and changes of listed priorities: each type stays sorted by priority
      at the time of addition, and by time for equal ones, exactly when every addition finds the
      priorities of the moment in the same order. */
  lemma {:induction false} RunKeepsSortedIff(list: seq<Entry>, live: seq<Entry>, cs: seq<Change>, now: nat)
    requires Listed(list, now) && Reprioritised(list, live) && CanRunChanges(list, live, cs, now)
    ensures SortedThroughout(list, live, cs, now) <==> AdditionsStillOrdered(list, live, cs, now)
    decreases |cs|
  {
    if cs == [] {
      assert SortedThroughout(list, live, cs, now);
    } else {
      hide Sorted, StillOrdered, Listed, Reprioritised, InsertAt;
      var c := cs[0];
      var list', live' := ChangeAdded(list, live, c, now), ChangeLive(live, c, now);
      ChangeKeepsReprioritised(list, live, c, now);
      ListedIsSorted(list, now);
      if c.ListOp? && c.op.Add? && !StillOrdered(list, live, c.op.rxType, c.op.priority) {
        ChangedPriorityHarmlessIff(list, live, c.op.rxType, c.op.priority);
        OtherPlaceUnsorted(list, live, Entry(c.op.rxType, c.op.priority, now));
        assert !SortedThroughout(list', live', cs[1..], now + 1);
      } else {
        ChangeKeepsListed(list, live, c, now);
        RunKeepsSortedIff(list', live', cs[1..], now + 1);
      }
    }
  }

  lemma ListedIsSorted(list: seq<Entry>, now: nat)
    requires Listed(list, now)
    ensures Sorted(list) && forall k :: 0 <= k < |list| ==> list[k].stamp < now
  {
  }

  lemma SetStillOrderedIff(list: seq<Entry>, k: nat, value: nat, priority: nat)
    requires Contiguous(list) && k < |list|
    ensures var live, p := list[k := list[k].(priority := value)], InsertAt(list, list[k].rxType, priority);
            && Reprioritised(list, live)
            && (StillOrdered(list, live, list[k].rxType, priority)
                <==> (k < p ==> value <= priority) && (k == p ==> value > priority))
  {
  }

  lemma OneAddition(list: seq<Entry>, live: seq<Entry>, rxType: RxType, priority: nat, now: nat)
    requires Reprioritised(list, live)
    ensures var cs := [ListOp(Add(rxType, priority))];
            && CanRunChanges(list, live, cs, now)
            && (AdditionsStillOrdered(list, live, cs, now) <==> StillOrdered(list, live, rxType, priority))
  {
    var add := ListOp(Add(rxType, priority));
    assert [add][1..] == [];
    var list', live' := ChangeAdded(list, live, add, now), ChangeLive(live, add, now);
    ChangeKeepsReprioritised(list, live, add, now);
    assert CanRunChanges(list', live', [], now + 1) && AdditionsStillOrdered(list', live', [], now + 1);
    hide StillOrdered, InsertAt;
  }

  /** The priority of any listed subscriber set again, and then a subscriber of its type added: the list stays
      sorted exactly when the change leaves the first on the same side of the second. */
  lemma SetThenAddIff(list: seq<Entry>, k: nat, value: nat, priority: nat, now: nat)
    requires Listed(list, now) && k < |list|
    ensures var cs := [SetPriority(k, value), ListOp(Add(list[k].rxType, priority))];
            var p := InsertAt(list, list[k].rxType, priority);
            && CanRunChanges(list, list, cs, now)
            && (SortedThroughout(list, list, cs, now)
                <==> (k < p ==> value <= priority) && (k == p ==> value > priority))
  {
    var e, change := list[k], SetPriority(k, value);
    var add := ListOp(Add(e.rxType, priority));
    var live := ChangeLive(list, change, now);
    SetStillOrderedIff(list, k, value, priority);
    hide StillOrdered, InsertAt, SortedThroughout, Sorted, Contiguous;
    assert [change, add][1..] == [add];
    OneAddition(list, live, e.rxType, priority, now + 1);
    assert Reprioritised(list, list);
    RunKeepsSortedIff(list, list, [change, add], now);
  }

  /** Such a change can put a new subscriber in front of one added with a smaller value. */
  lemma ChangedPriorityMatters()
    ensures var list, live := [Entry(Fifo, 0, 0), Entry(Fifo, 5, 1)], [Entry(Fifo, 9, 0), Entry(Fifo, 5, 1)];
            && Listed(list, 2) && Reprioritised(list, live)
            && InsertAt(list, Fifo, 7) == 2 && InsertAt(live, Fifo, 7) == 0
  {
    var list := [Entry(Fifo, 0, 0), Entry(Fifo, 5, 1)];
    assert !Stops(list[0], Fifo, 7) && !Stops(list[1], Fifo, 7);
    assert GroupEnd(list, 1, Fifo, 7) == 2;
  }
}
