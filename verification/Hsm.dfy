/** The hierarchical state machine engine: it knows the hierarchy only through the replies of the
    state functions, one scratch field, and an array of fixed size. */
module Hsm {
  import opened Types
  import opened HsmSpec

  datatype Ret = RetConsumed | RetParent | RetTopState | RetTransition

  function CountMsg(calls: seq<Call>, msg: nat): nat {
    if calls == [] then 0
    else CountMsg(calls[..|calls| - 1], msg) + if calls[|calls| - 1].msg == msg then 1 else 0
  }

  lemma CountAppend(calls: seq<Call>, c: Call, msg: nat)
    ensures CountMsg(calls + [c], msg) == CountMsg(calls, msg) + if c.msg == msg then 1 else 0
  {
    assert (calls + [c])[..|calls|] == calls;
  }

  /** All calls since `before` were made with messages of the engine's own: WALK, ENTRY or EXIT. */
  ghost predicate OwnSince(before: seq<Call>, after: seq<Call>) {
    before <= after && forall i :: |before| <= i < |after| ==> after[i].msg >= MSG_EXIT
  }

  lemma OwnTwice(a: seq<Call>, b: seq<Call>, c: seq<Call>)
    requires OwnSince(a, b) && OwnSince(b, c)
    ensures OwnSince(a, c)
  {
    forall i | |a| <= i < |c| ensures c[i].msg >= MSG_EXIT {
      if i < |b| { assert c[i] == b[i]; }
    }
  }

  function Values(slots: seq<Option<StateId>>): (r: seq<StateId>)
    requires forall j :: 0 <= j < |slots| ==> slots[j].Some?
    ensures |r| == |slots| && forall j :: 0 <= j < |r| ==> slots[j] == Some(r[j])
  {
    seq(|slots|, j requires 0 <= j < |slots| => slots[j].value)
  }

  // ----- the walks, as facts about paths -----

  /** How many states of a path fit the array, its first state included. */
  function Depth(path: seq<StateId>, max: nat): nat {
    if |path| <= max then |path| else max
  }

  /** The state above index k of a path. */
  function Above(path: seq<StateId>, k: nat): Option<StateId> {
    if k + 1 < |path| then Some(path[k + 1]) else None
  }

  /** Walking up a path: the first `count + 1` slots are filled, and while there is more to walk `tmp`
      is the state to ask next. */
  ghost predicate Walking(path: seq<StateId>, stop: Option<StateId>, max: nat, slots: seq<Option<StateId>>,
                          count: int, stopAt: int, more: bool, tmp: Option<StateId>)
  {
    && -1 <= count < |slots| && count < |path|
    && (forall j :: 0 <= j < count ==> slots[j] == Above(path, j) != stop)
    && (if more then
          && count + 1 < |path| && tmp == Some(path[count + 1])
          && (count >= 0 ==> slots[count] == Above(path, count) != stop)
        else 0 <= count && Walked(path, stop, max, count, stopAt))
  }

  /** Where the walk ends: at `stop`, at the top state, or at the end of the array. */
  ghost predicate Walked(path: seq<StateId>, stop: Option<StateId>, max: nat, count: nat, stopAt: int) {
    var up := Above(path, count);
    if stopAt >= 0 then up.Some? && up == stop
    else count == Depth(path, max) - 1 && (up.Some? ==> up != stop)
  }

  lemma WalkStep(path: seq<StateId>, stop: Option<StateId>, max: nat, slots: seq<Option<StateId>>,
                 count: int, tmp: Option<StateId>, up: Option<StateId>)
    requires |slots| == max && count + 1 < max
    requires Walking(path, stop, max, slots, count, -1, true, tmp) && up == Above(path, count + 1)
    ensures var stopAt := if stop.Some? && up == stop then count + 1 else -1;
            var more := up.Some? && stopAt == -1 && count + 1 < max - 1;
            Walking(path, stop, max, slots[count + 1 := up], count + 1, stopAt, more, up)
  {
  }

  /** The proper ancestors on a path, in order: all that fit, or those below `stop`. */
  ghost predicate Collected(path: seq<StateId>, stop: Option<StateId>, max: nat,
                            parents: seq<Option<StateId>>, num: nat, stopAt: int)
  {
    && num <= |parents| && num < |path|
    && (forall j :: 0 <= j < num ==> parents[j] == Above(path, j) != stop)
    && Walked(path, stop, max, num, stopAt)
  }

  ghost predicate Absent(parents: seq<Option<StateId>>, num: nat, s: StateId)
    requires num <= |parents|
  {
    forall j :: 0 <= j < num ==> parents[j] != Some(s)
  }

  /** Exiting along a path: `nest` states are exited, and while there is more to exit `tmp` is the
      next one. */
  ghost predicate Exiting(path: seq<StateId>, max: nat, parents: seq<Option<StateId>>, num: nat, nest: nat,
                          common: int, more: bool, tmp: Option<StateId>)
    requires num <= |parents| && -1 <= common < num
  {
    && nest <= |path| && nest <= max
    && (forall k :: 0 < k < nest ==> Absent(parents, num, path[k]))
    && (if more then
          nest < |path| && tmp == Some(path[nest]) && (nest > 0 ==> Absent(parents, num, path[nest]))
        else if common >= 0 then nest < |path| && parents[common] == Some(path[nest])
        else nest == Depth(path, max) && (nest < |path| ==> Absent(parents, num, path[nest])))
  }

  lemma ExitStart(path: seq<StateId>, max: nat, parents: seq<Option<StateId>>, num: nat, before: seq<Call>)
    requires num <= |parents| && path != []
    ensures Exiting(path, max, parents, num, 0, -1, true, Some(path[0]))
    ensures before == before + Calls(path[..0], MSG_EXIT)
  {
  }

  lemma ExitStep(path: seq<StateId>, max: nat, parents: seq<Option<StateId>>, num: nat, nest: nat,
                 s: StateId, up: Option<StateId>, common: int)
    requires num <= |parents| && -1 <= common < num && nest < max
    requires Exiting(path, max, parents, num, nest, -1, true, Some(s)) && up == Above(path, nest)
    requires common >= 0 ==> up.Some? && parents[common] == up
    requires common == -1 && up.Some? ==> Absent(parents, num, up.value)
    ensures Exiting(path, max, parents, num, nest + 1, common,
                    up.Some? && common == -1 && nest + 1 < max, up)
  {
  }

  lemma ExitTrace(path: seq<StateId>, nest: nat, before: seq<Call>)
    requires nest < |path|
    ensures before + Calls(path[..nest], MSG_EXIT) + Calls([path[nest]], MSG_EXIT)
         == before + Calls(path[..nest + 1], MSG_EXIT)
  {
    assert path[..nest + 1] == path[..nest] + [path[nest]];
    CallsConcat(path[..nest], [path[nest]], MSG_EXIT);
    Assoc(before, Calls(path[..nest], MSG_EXIT), Calls([path[nest]], MSG_EXIT));
  }

  /** None of the first `count` parents on `to` is s. */
  ghost predicate NotAbove(to: seq<StateId>, count: nat, s: StateId) {
    forall j :: 0 <= j < count ==> Above(to, j) != Some(s)
  }

  /** The search ended at a state that is on both paths ... */
  ghost predicate Met(from: seq<StateId>, to: seq<StateId>, max: nat, count: nat, e: nat) {
    && e < |from| && e <= max && Above(to, count) == Some(from[e])
    && (if e == 0 then count < max else count + 1 < Depth(to, max))
  }

  /** ... or it exited as many states as it could, and met none. */
  ghost predicate NotMet(from: seq<StateId>, to: seq<StateId>, max: nat, count: nat, e: nat)
    requires 0 < |from|
  {
    && e == Depth(from, max) && count + 1 == Depth(to, max)
    && Above(to, count) != Some(from[0])
    && (e < |from| ==> NotAbove(to, count, from[e]))
  }

  /** e states of `from` are left, and parents[..count] are those to enter again below `to[0]`. */
  ghost predicate Searched(from: seq<StateId>, to: seq<StateId>, max: nat, parents: seq<Option<StateId>>,
                           count: nat, e: nat)
  {
    && 0 < |from| && e <= |from| && count < |to| && count <= |parents|
    && (forall j :: 0 <= j < count ==> parents[j] == Above(to, j))
    && (forall k :: 0 <= k < e ==> NotAbove(to, count, from[k]))
    && (Met(from, to, max, count, e) || NotMet(from, to, max, count, e))
  }

  lemma SearchedAtOnce(from: seq<StateId>, to: seq<StateId>, max: nat, parents: seq<Option<StateId>>, num: nat)
    requires 0 < |from| && num < max
    requires Collected(to, Some(from[0]), max, parents, num, num)
    ensures Searched(from, to, max, parents, num, 0)
  {
  }

  lemma SearchedAfterExit(from: seq<StateId>, to: seq<StateId>, max: nat, parents: seq<Option<StateId>>,
                          num: nat, e: nat, common: int, tmp: Option<StateId>)
    requires -1 <= common < num <= |parents| && 0 < |from|
    requires Collected(to, Some(from[0]), max, parents, num, -1)
    requires 0 < e && Exiting(from, max, parents, num, e, common, false, tmp)
    ensures Searched(from, to, max, parents, if common == -1 then num else common, e)
  {
    forall k | 0 <= k < e ensures NotAbove(to, num, from[k]) {
      assert k > 0 ==> Absent(parents, num, from[k]);
    }
    if common == -1 && e < |from| { assert Absent(parents, num, from[e]); }
  }

  /** Where the search ended is where the paths part exactly when what there is to exit and to enter
      fits the array. */
  lemma SearchFits(from: seq<StateId>, to: seq<StateId>, max: nat, parents: seq<Option<StateId>>,
                   count: nat, e: nat, x: nat, n: nat)
    requires Searched(from, to, max, parents, count, e)
    requires x <= |from| && 1 <= n <= |to|
    requires if x < |from| then Above(to, n - 1) == Some(from[x]) else n == |to|
    requires Met(from, to, max, count, e) ==> x <= e && n <= count + 1 && e - x == count + 1 - n
    ensures e == x && count + 1 == n <==>
              x <= max && n <= max && (x < |from| && n == max ==> x == 0 || x == max)
  {
    if x < e { assert NotAbove(to, count, from[x]); }
  }

  lemma SearchFitsIff(h: Hierarchy, cur: StateId, target: StateId, max: nat,
                      parents: seq<Option<StateId>>, count: nat, e: nat, x: nat, n: nat)
    requires Acyclic(h) && Searched(Path(h, cur), Path(h, target), max, parents, count, e)
    requires Parting(h, cur, target, x, n)
    ensures e == x && count + 1 == n <==> Fits(h, cur, target, max)
  {
    hide Path, FirstIn, Fits, CommonParent, PathBelow;
    var from, to := Path(h, cur), Path(h, target);
    PartingDecides(h, cur, target, max, x, n);
    if Met(from, to, max, count, e) { FirstMeeting(h, cur, target, e, count + 1, x, n); }
    SearchFits(from, to, max, parents, count, e, x, n);
  }

  /** What the engine did is what the transition should do exactly when that fits the array. */
  lemma SearchIsRightIff(h: Hierarchy, cur: StateId, target: StateId, max: nat,
                         parents: seq<Option<StateId>>, count: nat, e: nat, inner: seq<StateId>, before: seq<Call>)
    requires Acyclic(h) && Searched(Path(h, cur), Path(h, target), max, parents, count, e)
    requires |inner| == count && forall j :: 0 <= j < count ==> parents[j] == Some(inner[j])
    ensures var trace := before + Calls(Path(h, cur)[..e], MSG_EXIT)
                                + Calls(Reverse([target] + inner), MSG_ENTRY);
            trace == before + TransitionTrace(h, cur, target) <==> Fits(h, cur, target, max)
  {
    var from, to := Path(h, cur), Path(h, target);
    assert [target] + inner == to[..count + 1];
    hide Path, Fits, Searched, Parting, TransitionTrace;
    var x, n := PartingPoint(h, cur, target);
    SearchFitsIff(h, cur, target, max, parents, count, e, x, n);
    PartingTrace(h, cur, target, x, n);
    TraceIsRightIff(from, to, e, count + 1, x, n, before);
  }

  lemma TraceIsRightIff(from: seq<StateId>, to: seq<StateId>, e: nat, m: nat, x: nat, n: nat, before: seq<Call>)
    requires e <= |from| && x <= |from| && 1 <= m <= |to| && 1 <= n <= |to|
    ensures before + Calls(from[..e], MSG_EXIT) + Calls(Reverse(to[..m]), MSG_ENTRY)
         == before + (Calls(from[..x], MSG_EXIT) + Calls(Reverse(to[..n]), MSG_ENTRY))
         <==> e == x && m == n
  {
    var a := Calls(from[..e], MSG_EXIT) + Calls(Reverse(to[..m]), MSG_ENTRY);
    var b := Calls(from[..x], MSG_EXIT) + Calls(Reverse(to[..n]), MSG_ENTRY);
    SameTraceIff(from, to, e, m, x, n);
    Assoc(before, Calls(from[..e], MSG_EXIT), Calls(Reverse(to[..m]), MSG_ENTRY));
    hide Calls, Reverse;
    PrefixSame(before, a, b);
  }

  /** What is known of a machine between two messages. */
  datatype Moment = Moment(calls: seq<Call>, state: StateId)

  class Machine {
    const maxNested: nat          // CONFIG_HSM_MAX_NESTED_STATES
    const fns: StateFns
    ghost const h: Hierarchy      // the hierarchy the state functions follow, when they follow one
    var currentState: StateId
    var tmpState: Option<StateId>
    var calls: seq<Call>          // every call of a state function so far

    /** hsm_init. */
    constructor (fns: StateFns, maxNested: nat, ghost h: Hierarchy, initialState: StateId)
      ensures this.fns == fns && this.maxNested == maxNested && this.h == h
      ensures currentState == initialState && calls == []
    {
      this.fns, this.maxNested, this.h := fns, maxNested, h;
      currentState, tmpState, calls := initialState, None, [];
    }

    /** The state functions follow the hierarchy, however deep it is. */
    ghost predicate Obeyed() {
      maxNested >= 1 && Asserted(fns) && Follows(fns, h)
    }

    ghost predicate WellFormed() {
      Obeyed() && NestsAtMost(h, maxNested)
    }

    /** The ENTRY and EXIT messages so far have entered exactly the current state and its parents. */
    ghost predicate Settled()
      requires Acyclic(h)
      reads this
    {
      Replay(h, Trace(calls), []) == Some(Path(h, currentState))
    }

    /** Call a state function; the reply macros store the state they name in tmp_state. */
    method Send(s: StateId, msg: nat) returns (ret: Ret)
      modifies this`tmpState, this`calls
      ensures calls == old(calls) + [Call(s, msg)]
      ensures msg >= MSG_EXIT ==> OwnSince(old(calls), calls)
      ensures if msg == MSG_ENTRY || msg == MSG_EXIT then Trace(calls) == Trace(old(calls)) + [Call(s, msg)]
              else Trace(calls) == Trace(old(calls))
      ensures CountMsg(calls, MSG_EXIT) == CountMsg(old(calls), MSG_EXIT) + if msg == MSG_EXIT then 1 else 0
      ensures CountMsg(calls, MSG_ENTRY) == CountMsg(old(calls), MSG_ENTRY) + if msg == MSG_ENTRY then 1 else 0
      ensures match fns(old(calls), s, msg)
              case Consumed => ret == RetConsumed && tmpState == old(tmpState)
              case Parent(p) => ret == RetParent && tmpState == Some(p)
              case Top => ret == RetTopState && tmpState == None
              case Transition(t) => ret == RetTransition && tmpState == Some(t)
    {
      var reply := fns(calls, s, msg);
      TraceAppend(calls, Call(s, msg));
      CountAppend(calls, Call(s, msg), MSG_EXIT);
      CountAppend(calls, Call(s, msg), MSG_ENTRY);
      calls := calls + [Call(s, msg)];
      match reply
      case Consumed => ret := RetConsumed;
      case Parent(p) => ret, tmpState := RetParent, Some(p);
      case Top => ret, tmpState := RetTopState, None;
      case Transition(t) => ret, tmpState := RetTransition, Some(t);
    }

    /** One turn of the loop below: ask the state in tmp_state for its parent and store the answer. */
    method CollectOne(ghost s: StateId, stop: Option<StateId>, parents: array<Option<StateId>>, count: nat)
      returns (stopAt: int, more: bool)
      requires parents.Length == maxNested && Asserted(fns) && count < maxNested && tmpState.Some?
      requires Obeyed() ==> Walking(Path(h, s), stop, maxNested, parents[..], count - 1, -1, true, tmpState)
      modifies parents, this`tmpState, this`calls
      ensures parents[..] == old(parents[..])[count := tmpState]
      ensures stopAt == if stop.Some? && tmpState == stop then count else -1
      ensures more ==> tmpState.Some? && stopAt == -1 && count < maxNested - 1
      ensures OwnSince(old(calls), calls) && |calls| == |old(calls)| + 1
      ensures Trace(calls) == Trace(old(calls))
      ensures CountMsg(calls, MSG_EXIT) == CountMsg(old(calls), MSG_EXIT)
      ensures CountMsg(calls, MSG_ENTRY) == CountMsg(old(calls), MSG_ENTRY)
      ensures Obeyed() ==> Walking(Path(h, s), stop, maxNested, parents[..], count, stopAt, more, tmpState)
    {
      ghost var slots, from := parents[..], tmpState;
      var ret := Send(tmpState.value, MSG_WALK);
      stopAt := if stop.Some? && tmpState == stop then count else -1;
      parents[count] := tmpState;
      more := ret == RetParent && stopAt == -1 && count < maxNested - 1;
      assert parents[..] == slots[count := tmpState];
      hide CountMsg, Trace, OwnSince;
      if Obeyed() {
        PathStep(h, s, count);
        WalkStep(Path(h, s), stop, maxNested, slots, count - 1, from, tmpState);
        hide Walking, Path;
      }
    }

    /** The parents of `s` in order, up to the top state, to `stop`, or to the end of the array. The
        slot after the last parent of a top state holds no state. */
    method CollectParents(s: StateId, stop: Option<StateId>, parents: array<Option<StateId>>)
      returns (num: nat, stopAt: int)
      requires maxNested >= 1 && parents.Length == maxNested && Asserted(fns)
      modifies parents, this`tmpState, this`calls
      ensures num < maxNested && (stopAt == -1 || stopAt == num)
      ensures forall j :: 0 <= j < num ==> parents[j].Some?
      ensures stopAt >= 0 <==> parents[num].Some? && parents[num] == stop
      ensures OwnSince(old(calls), calls) && |calls| <= |old(calls)| + maxNested
      ensures Trace(calls) == Trace(old(calls))
      ensures CountMsg(calls, MSG_EXIT) == CountMsg(old(calls), MSG_EXIT)
      ensures CountMsg(calls, MSG_ENTRY) == CountMsg(old(calls), MSG_ENTRY)
      ensures Obeyed() ==> Collected(Path(h, s), stop, maxNested, parents[..], num, stopAt)
    {
      hide CountMsg, Trace, Path, Asserted, Walked;
      stopAt := -1;
      tmpState := Some(s);
      var count := -1;
      var more := true;
      while more
        invariant -1 <= count < maxNested && (more ==> count < maxNested - 1)
        invariant count == -1 ==> more
        invariant more ==> tmpState.Some? && stopAt == -1
        invariant stopAt == -1 || stopAt == count
        invariant forall j :: 0 <= j < count ==> parents[..][j].Some?
        invariant count >= 0 && more ==> parents[..][count].Some?
        invariant count >= 0 ==> (stopAt >= 0 <==> parents[..][count].Some? && parents[..][count] == stop)
        invariant OwnSince(old(calls), calls) && |calls| == |old(calls)| + count + 1
        invariant Trace(calls) == Trace(old(calls))
        invariant CountMsg(calls, MSG_EXIT) == CountMsg(old(calls), MSG_EXIT)
        invariant CountMsg(calls, MSG_ENTRY) == CountMsg(old(calls), MSG_ENTRY)
        invariant Obeyed() ==> Walking(Path(h, s), stop, maxNested, parents[..], count, stopAt, more, tmpState)
        decreases more, maxNested - count
      {
        count := count + 1;
        stopAt, more := CollectOne(s, stop, parents, count);
      }
      num := count;
    }

    /** One turn of the loop below: exit state s, and look its parent up in `parents[..num]`. */
    method ExitOne(parents: array<Option<StateId>>, num: nat, s: StateId, nest: nat, ghost before: seq<Call>)
      returns (common: int, more: bool)
      requires Asserted(fns) && num < parents.Length && nest < maxNested && tmpState == Some(s)
      requires Obeyed() ==>
                 && Exiting(Path(h, currentState), maxNested, parents[..], num, nest, -1, true, tmpState)
                 && Trace(calls) == before + Calls(Path(h, currentState)[..nest], MSG_EXIT)
      modifies this`tmpState, this`calls
      ensures -1 <= common < num
      ensures more ==> tmpState.Some? && common == -1 && nest + 1 < maxNested
      ensures OwnSince(old(calls), calls) && |calls| <= |old(calls)| + 2
      ensures CountMsg(calls, MSG_EXIT) == CountMsg(old(calls), MSG_EXIT) + 1
      ensures CountMsg(calls, MSG_ENTRY) == CountMsg(old(calls), MSG_ENTRY)
      ensures Obeyed() ==>
                && nest < h.level(currentState)
                && Exiting(Path(h, currentState), maxNested, parents[..], num, nest + 1, common, more, tmpState)
                && Trace(calls) == before + Calls(Path(h, currentState)[..nest + 1], MSG_EXIT)
    {
      common := -1;
      var ret := SendExit(s);
      if ret == RetParent {
        common := FindLast(parents, num, tmpState);
      }
      more := ret == RetParent && common == -1 && nest + 1 < maxNested;
      if Obeyed() {
        PathStep(h, currentState, nest);
        ExitStep(Path(h, currentState), maxNested, parents[..], num, nest, s, tmpState, common);
        ExitTrace(Path(h, currentState), nest, before);
      }
    }

    /** Send EXIT to the current state and its parents until one of `parents[..num]` is reached; its
        index is the result, or -1. A state that consumes the EXIT is asked for its parent. */
    method ExitStates(parents: array<Option<StateId>>, num: nat) returns (common: int, ghost e: nat)
      requires maxNested >= 1 && num < parents.Length && Asserted(fns)
      modifies this`tmpState, this`calls
      ensures -1 <= common < num
      ensures OwnSince(old(calls), calls) && |calls| <= |old(calls)| + 2 * maxNested
      ensures CountMsg(calls, MSG_EXIT) <= CountMsg(old(calls), MSG_EXIT) + maxNested
      ensures CountMsg(calls, MSG_ENTRY) == CountMsg(old(calls), MSG_ENTRY)
      ensures Obeyed() ==>
                && 0 < e <= h.level(currentState)
                && Exiting(Path(h, currentState), maxNested, parents[..], num, e, common, false, tmpState)
                && Trace(calls) == Trace(old(calls)) + Calls(Path(h, currentState)[..e], MSG_EXIT)
    {
      hide CountMsg, Trace, Exiting, Path, Asserted;
      common := -1;
      var nestCount := 0;
      tmpState := Some(currentState);
      if Obeyed() { ExitStart(Path(h, currentState), maxNested, parents[..], num, Trace(calls)); }
      var more := true;
      while more
        invariant 0 <= nestCount <= maxNested && (more ==> nestCount < maxNested)
        invariant nestCount == 0 ==> more
        invariant more ==> tmpState.Some? && common == -1
        invariant -1 <= common < num
        invariant OwnSince(old(calls), calls) && |calls| <= |old(calls)| + 2 * nestCount
        invariant CountMsg(calls, MSG_EXIT) == CountMsg(old(calls), MSG_EXIT) + nestCount
        invariant CountMsg(calls, MSG_ENTRY) == CountMsg(old(calls), MSG_ENTRY)
        invariant Obeyed() ==>
                    && nestCount <= h.level(currentState)
                    && Exiting(Path(h, currentState), maxNested, parents[..], num, nestCount, common, more, tmpState)
                    && Trace(calls) == Trace(old(calls)) + Calls(Path(h, currentState)[..nestCount], MSG_EXIT)
        decreases more, maxNested - nestCount
      {
        common, more := ExitOne(parents, num, tmpState.value, nestCount, Trace(old(calls)));
        nestCount := nestCount + 1;
      }
      e := nestCount;
    }

    /** Exit one state and find out its parent: an EXIT, and a WALK if the state consumed it. */
    method SendExit(s: StateId) returns (ret: Ret)
      requires Asserted(fns) && tmpState == Some(s)
      modifies this`tmpState, this`calls
      ensures ret == RetParent || ret == RetTopState
      ensures ret == RetParent ==> tmpState.Some?
      ensures OwnSince(old(calls), calls) && |calls| <= |old(calls)| + 2
      ensures Trace(calls) == Trace(old(calls)) + Calls([s], MSG_EXIT)
      ensures CountMsg(calls, MSG_EXIT) == CountMsg(old(calls), MSG_EXIT) + 1
      ensures CountMsg(calls, MSG_ENTRY) == CountMsg(old(calls), MSG_ENTRY)
      ensures Obeyed() ==> tmpState == h.up(s) && (ret == RetParent <==> h.up(s).Some?)
    {
      hide CountMsg, Trace, OwnSince, Calls;
      ret := Send(s, MSG_EXIT);
      if ret == RetConsumed {
        ghost var exited := calls;
        ret := Send(tmpState.value, MSG_WALK);
        OwnTwice(old(calls), exited, calls);
      }
      assert Calls([s], MSG_EXIT) == [Call(s, MSG_EXIT)];
    }

    /** The last index below `num` at which `s` is stored, or -1. */
    method FindLast(parents: array<Option<StateId>>, num: nat, s: Option<StateId>) returns (found: int)
      requires num <= parents.Length
      ensures -1 <= found < num
      ensures found >= 0 ==> parents[found] == s
      ensures forall i :: found < i < num ==> parents[i] != s
    {
      found := -1;
      for i := 0 to num
        invariant -1 <= found < i
        invariant found >= 0 ==> parents[found] == s
        invariant forall k :: found < k < i ==> parents[k] != s
      {
        if parents[i] == s {
          found := i;
        }
      }
    }

    /** Send ENTRY to parents[count - 1] down to parents[0] and then to `target`. */
    method EnterStates(parents: array<Option<StateId>>, count: nat, target: StateId)
      requires count <= parents.Length && forall j :: 0 <= j < count ==> parents[j].Some?
      modifies this`tmpState, this`calls
      ensures OwnSince(old(calls), calls) && |calls| == |old(calls)| + count + 1
      ensures Trace(calls) == Trace(old(calls)) + Calls(Reverse([target] + Values(parents[..count])), MSG_ENTRY)
      ensures CountMsg(calls, MSG_ENTRY) == CountMsg(old(calls), MSG_ENTRY) + count + 1
      ensures CountMsg(calls, MSG_EXIT) == CountMsg(old(calls), MSG_EXIT)
    {
      hide CountMsg, Trace, Calls, Reverse;
      ghost var inner := Values(parents[..count]);
      for i := count downto 0
        invariant OwnSince(old(calls), calls) && |calls| == |old(calls)| + count - i
        invariant Trace(calls) == Trace(old(calls)) + Calls(Reverse(inner[i..]), MSG_ENTRY)
        invariant CountMsg(calls, MSG_ENTRY) == CountMsg(old(calls), MSG_ENTRY) + count - i
        invariant CountMsg(calls, MSG_EXIT) == CountMsg(old(calls), MSG_EXIT)
      {
        assert parents[..count][i] == Some(inner[i]);
        assert inner[i..] == [inner[i]] + inner[i + 1..];
        ghost var entered := calls;
        SendEntry(parents[i].value, inner[i + 1..], Trace(old(calls)));
        OwnTwice(old(calls), entered, calls);
      }
      assert inner[0..] == inner;
      ghost var above := calls;
      SendEntry(target, inner, Trace(old(calls)));
      OwnTwice(old(calls), above, calls);
    }

    /** Enter s after all of `inner` have been entered, innermost last. */
    method SendEntry(s: StateId, ghost inner: seq<StateId>, ghost before: seq<Call>)
      requires Trace(calls) == before + Calls(Reverse(inner), MSG_ENTRY)
      modifies this`tmpState, this`calls
      ensures OwnSince(old(calls), calls) && |calls| == |old(calls)| + 1
      ensures Trace(calls) == before + Calls(Reverse([s] + inner), MSG_ENTRY)
      ensures CountMsg(calls, MSG_ENTRY) == CountMsg(old(calls), MSG_ENTRY) + 1
      ensures CountMsg(calls, MSG_EXIT) == CountMsg(old(calls), MSG_EXIT)
    {
      var _ := Send(s, MSG_ENTRY);
      EnterOneMore(s, inner);
      Assoc(before, Calls(Reverse(inner), MSG_ENTRY), [Call(s, MSG_ENTRY)]);
    }

    /** Exit what has to be left for `newState`; parents[..count] is what has to be entered again. */
    method LeaveFor(newState: StateId, parents: array<Option<StateId>>) returns (count: nat, ghost e: nat)
      requires maxNested >= 1 && Asserted(fns) && parents.Length == maxNested
      modifies parents, this`tmpState, this`calls
      ensures count < maxNested && forall j :: 0 <= j < count ==> parents[j].Some?
      ensures OwnSince(old(calls), calls) && |calls| <= |old(calls)| + 3 * maxNested
      ensures CountMsg(calls, MSG_EXIT) <= CountMsg(old(calls), MSG_EXIT) + maxNested
      ensures CountMsg(calls, MSG_ENTRY) == CountMsg(old(calls), MSG_ENTRY)
      ensures Obeyed() ==>
                && Searched(Path(h, currentState), Path(h, newState), maxNested, parents[..], count, e)
                && Trace(calls) == Trace(old(calls)) + Calls(Path(h, currentState)[..e], MSG_EXIT)
    {
      var num, common := CollectParents(newState, Some(currentState), parents);
      e := 0;
      if common == -1 {
        common, e := ExitStates(parents, num);
        if Obeyed() {
          SearchedAfterExit(Path(h, currentState), Path(h, newState), maxNested, parents[..], num, e, common,
                            tmpState);
        }
      } else if Obeyed() {
        SearchedAtOnce(Path(h, currentState), Path(h, newState), maxNested, parents[..], num);
      }
      if common == -1 {
        common := num;
      }
      count := common;
    }

    /** Leave the current state for `newState`: on a hierarchy, exactly the EXITs and ENTRYs a transition
        should make if and only if they fit the array, and so always when every path does; and whatever
        the state functions reply, at most maxNested of each and no other messages but WALKs. */
    method TransitionState(newState: StateId)
      requires maxNested >= 1 && Asserted(fns)
      modifies this`currentState, this`tmpState, this`calls
      ensures currentState == newState
      ensures OwnSince(old(calls), calls) && |calls| <= |old(calls)| + 4 * maxNested
      ensures CountMsg(calls, MSG_EXIT) <= CountMsg(old(calls), MSG_EXIT) + maxNested
      ensures CountMsg(calls, MSG_ENTRY) <= CountMsg(old(calls), MSG_ENTRY) + maxNested
      ensures Obeyed() ==>
                (Trace(calls) == Trace(old(calls)) + TransitionTrace(h, old(currentState), newState)
                 <==> Fits(h, old(currentState), newState, maxNested))
      ensures WellFormed() ==>
                Trace(calls) == Trace(old(calls)) + TransitionTrace(h, old(currentState), newState)
    {
      var parents := new Option<StateId>[maxNested];
      ghost var e;
      var count;
      count, e := LeaveFor(newState, parents);
      EnterStates(parents, count, newState);
      if Obeyed() {
        SearchIsRightIff(h, currentState, newState, maxNested, parents[..], count, e,
                         Values(parents[..count]), Trace(old(calls)));
        if WellFormed() { ShallowFits(h, currentState, newState, maxNested); }
      }
      currentState := newState;
    }

    /** Enter the initial state: its top state first. All of its path is entered exactly when it fits
        the array; otherwise the states above are left out. */
    method Start()
      requires maxNested >= 1 && Asserted(fns)
      modifies this`tmpState, this`calls
      ensures OwnSince(old(calls), calls) && |calls| <= |old(calls)| + 2 * maxNested
      ensures CountMsg(calls, MSG_EXIT) == CountMsg(old(calls), MSG_EXIT)
      ensures CountMsg(calls, MSG_ENTRY) <= CountMsg(old(calls), MSG_ENTRY) + maxNested
      ensures Obeyed() ==>
                var path := Path(h, currentState);
                Trace(calls) == Trace(old(calls)) + Calls(Reverse(path[..Depth(path, maxNested)]), MSG_ENTRY)
      ensures Obeyed() && Trace(old(calls)) == [] ==> (Settled() <==> h.level(currentState) <= maxNested)
    {
      var parents := new Option<StateId>[maxNested];
      var num, _ := CollectParents(currentState, None, parents);
      EnterStates(parents, num, currentState);
      if Obeyed() { StartIsRight(parents[..], num, Values(parents[..num]), Trace(old(calls))); }
    }

    lemma StartIsRight(parents: seq<Option<StateId>>, num: nat, inner: seq<StateId>, before: seq<Call>)
      requires Obeyed() && num <= |parents| && Collected(Path(h, currentState), None, maxNested, parents, num, -1)
      requires |inner| == num && forall j :: 0 <= j < num ==> parents[j] == Some(inner[j])
      ensures [currentState] + inner == Path(h, currentState)[..Depth(Path(h, currentState), maxNested)]
      ensures before == [] ==>
                var replayed := Replay(h, before + Calls(Reverse([currentState] + inner), MSG_ENTRY), []);
                replayed == Some(Path(h, currentState)) <==> h.level(currentState) <= maxNested
    {
      var path, d := Path(h, currentState), Depth(Path(h, currentState), maxNested);
      assert [currentState] + inner == path[..d];
      if before == [] {
        assert before + Calls(Reverse(path[..d]), MSG_ENTRY) == Calls(Reverse(path[..d]), MSG_ENTRY);
        if d == |path| {
          ReplayEntries(h, currentState, d);
          assert path[d..] == [];
        } else {
          PartialEntryFails(h, currentState, d);
        }
      }
    }

    /** The reply that is acted on: that of the current state or, as long as the message is passed
        on, of the next parent. */
    ghost function Answer(before: seq<Call>, s: StateId, msg: nat): (r: (seq<Call>, Reply))
      requires Obeyed()
      ensures !r.1.Parent?
      decreases h.level(s)
    {
      var after := before + [Call(s, msg)];
      var reply := fns(before, s, msg);
      if reply.Parent? then
        assert h.up(s) == Some(reply.p);
        Answer(after, reply.p, msg)
      else (after, reply)
    }

    /** The calls made once s and its next parents, k states in all, have been asked. */
    ghost function Asked(before: seq<Call>, s: StateId, msg: nat, k: nat): seq<Call>
      requires Acyclic(h) && k <= |Path(h, s)|
    {
      before + Calls(Path(h, s)[..k], msg)
    }

    lemma AskedFromParent(before: seq<Call>, s: StateId, p: StateId, msg: nat, k: nat)
      requires Acyclic(h) && h.up(s) == Some(p) && 0 < k <= |Path(h, s)|
      ensures k - 1 <= |Path(h, p)|
      ensures Asked(before, s, msg, k) == Asked(before + [Call(s, msg)], p, msg, k - 1)
    {
      assert Path(h, s)[..k] == [s] + Path(h, p)[..k - 1];
    }

    /** The state acted on is the nearest of s and its ancestors that does not pass the message on. */
    lemma {:induction false} AnswerIsNearest(before: seq<Call>, s: StateId, msg: nat) returns (k: nat)
      requires Obeyed()
      ensures k < |Path(h, s)|
      ensures forall j :: 0 <= j < k ==> fns(Asked(before, s, msg, j), Path(h, s)[j], msg).Parent?
      ensures Answer(before, s, msg).0 == Asked(before, s, msg, k + 1)
      ensures Answer(before, s, msg).1 == fns(Asked(before, s, msg, k), Path(h, s)[k], msg)
      decreases h.level(s)
    {
      assert Asked(before, s, msg, 0) == before;
      var reply := fns(before, s, msg);
      if reply.Parent? {
        assert h.up(s) == Some(reply.p);
        var k' := AnswerIsNearest(before + [Call(s, msg)], reply.p, msg);
        k := k' + 1;
        AskedFromParent(before, s, reply.p, msg, k);
        AskedFromParent(before, s, reply.p, msg, k + 1);
        forall j | 0 < j < k ensures fns(Asked(before, s, msg, j), Path(h, s)[j], msg).Parent? {
          AskedFromParent(before, s, reply.p, msg, j);
        }
      } else {
        k := 0;
        assert Path(h, s)[..1] == [s];
        assert Calls([s], msg) == [Call(s, msg)];
      }
    }

    /** Ask the current state and then its parents, until one does not pass the message on. */
    method Dispatch(msg: nat) returns (ret: Ret)
      requires Obeyed() && msg < MSG_EXIT
      modifies this`tmpState, this`calls
      ensures calls == Answer(old(calls), currentState, msg).0 && Trace(calls) == Trace(old(calls))
      ensures match Answer(old(calls), currentState, msg).1
              case Transition(t) => ret == RetTransition && tmpState == Some(t)
              case _ => ret != RetTransition
    {
      tmpState := Some(currentState);
      ret := RetParent;
      while ret == RetParent
        invariant ret == RetParent ==>
                    tmpState.Some? && Answer(calls, tmpState.value, msg) == Answer(old(calls), currentState, msg)
        invariant ret != RetParent ==> calls == Answer(old(calls), currentState, msg).0
        invariant ret != RetParent ==>
                    match Answer(old(calls), currentState, msg).1
                    case Transition(t) => ret == RetTransition && tmpState == Some(t)
                    case _ => ret != RetTransition
        invariant Trace(calls) == Trace(old(calls))
        decreases ret == RetParent, if ret == RetParent then h.level(tmpState.value) else 0
      {
        ghost var before, s := calls, tmpState.value;
        ret := Send(tmpState.value, msg);
        assert fns(before, s, msg).Parent? ==> h.up(s) == Some(fns(before, s, msg).p);
      }
    }

    ghost function Now(): Moment
      reads this
    {
      Moment(calls, currentState)
    }

    /** What handling one message does: the current state and its parents are asked until one does not
        pass the message on, and no state gets the message but these. If that one asked for a transition
        to another state it is taken, relative to the current state, with messages of the engine's own. */
    ghost predicate Handled(before: Moment, msg: nat, after: Moment)
      requires Obeyed()
    {
      var (asked, reply) := Answer(before.calls, before.state, msg);
      if reply.Transition? && reply.t != before.state then
        && after.state == reply.t && OwnSince(asked, after.calls)
        && CountMsg(after.calls, MSG_EXIT) <= CountMsg(asked, MSG_EXIT) + maxNested
        && CountMsg(after.calls, MSG_ENTRY) <= CountMsg(asked, MSG_ENTRY) + maxNested
        && (Trace(after.calls) == Trace(before.calls) + TransitionTrace(h, before.state, reply.t)
            <==> Fits(h, before.state, reply.t, maxNested))
      else after == Moment(asked, before.state) && Trace(after.calls) == Trace(before.calls)
    }

    /** The engine's message handler: dispatch, and a transition relative to the current state. */
    method MsgHandler(msg: nat)
      requires Obeyed() && msg < MSG_EXIT
      modifies this`currentState, this`tmpState, this`calls
      ensures Handled(old(Now()), msg, Now())
      ensures old(Settled()) && Fits(h, old(currentState), currentState, maxNested) ==> Settled()
      ensures old(Settled()) && currentState == old(currentState) ==> Settled()
    {
      var ret := Dispatch(msg);
      if ret == RetTransition && tmpState != Some(currentState) {
        if old(Settled()) { TransitionKeepsSettled(tmpState.value, Trace(calls)); }
        TransitionState(tmpState.value);
      }
    }

    lemma TransitionKeepsSettled(target: StateId, trace: seq<Call>)
      requires Acyclic(h) && Replay(h, trace, []) == Some(Path(h, currentState))
      ensures Replay(h, trace + TransitionTrace(h, currentState, target), []) == Some(Path(h, target))
    {
      TransitionReplays(h, currentState, target);
      ReplayConcat(h, trace, TransitionTrace(h, currentState, target), []);
    }

    method HandleOne(msg: nat)
      requires WellFormed() && Settled() && msg < MSG_EXIT
      modifies this`currentState, this`tmpState, this`calls
      ensures Handled(old(Now()), msg, Now()) && Settled()
    {
      hide Handled, Trace, Replay;
      ghost var from := currentState;
      MsgHandler(msg);
      ShallowFits(h, from, currentState, maxNested);
    }

    /** The first n messages have been handled, one after the other, from moment to moment. */
    ghost predicate HandledInTurn(moments: seq<Moment>, msgs: seq<nat>, n: nat)
      requires Obeyed()
    {
      && n <= |msgs| && |moments| == n + 1
      && forall i :: 0 <= i < n ==> Handled(moments[i], msgs[i], moments[i + 1])
    }

    lemma OneMoreHandled(moments: seq<Moment>, msgs: seq<nat>, n: nat, now: Moment)
      requires Obeyed() && n < |msgs| && HandledInTurn(moments, msgs, n) && Handled(moments[n], msgs[n], now)
      ensures HandledInTurn(moments + [now], msgs, n + 1)
    {
      hide Handled;
    }

    /** After the start and any messages, each message has been handled in its turn, and the states entered
        and not exited are exactly the current state and its parents. */
    method Run(msgs: seq<nat>) returns (ghost moments: seq<Moment>)
      requires WellFormed() && calls == [] && forall i :: 0 <= i < |msgs| ==> msgs[i] < MSG_EXIT
      modifies this`currentState, this`tmpState, this`calls
      ensures HandledInTurn(moments, msgs, |msgs|) && moments[|msgs|] == Now()
      ensures moments[0].state == old(currentState) && OwnSince([], moments[0].calls)
      ensures Settled()
    {
      Begin();
      ghost var first := Now();
      moments := [first];
      for i := 0 to |msgs|
        invariant Settled()
        invariant HandledInTurn(moments, msgs, i) && moments[i] == Now() && moments[0] == first
      {
        ghost var before := moments;
        HandleOne(msgs[i]);
        moments := before + [Now()];
        OneMoreHandled(before, msgs, i, Now());
        hide HandledInTurn, Replay, Trace;
      }
    }

    method Begin()
      requires WellFormed() && calls == []
      modifies this`tmpState, this`calls
      ensures Settled() && OwnSince([], calls)
    {
      assert Trace(calls) == [] && h.level(currentState) <= maxNested;
      hide Trace, Replay, Path;
      Start();
    }
  }

  lemma PrefixSame(a: seq<Call>, b: seq<Call>, c: seq<Call>)
    ensures a + b == a + c <==> b == c
  {
    assert (a + b)[|a|..] == b && (a + c)[|a|..] == c;
  }

  lemma EnterOneMore(s: StateId, states: seq<StateId>)
    ensures Calls(Reverse([s] + states), MSG_ENTRY) == Calls(Reverse(states), MSG_ENTRY) + [Call(s, MSG_ENTRY)]
  {
    assert ([s] + states)[1..] == states;
    CallsConcat(Reverse(states), [s], MSG_ENTRY);
    assert Calls([s], MSG_ENTRY) == [Call(s, MSG_ENTRY)];
  }
}
