/** Hierarchical state machines, specified: a hierarchy of states, what a transition should do to it,
    and how to replay ENTRY and EXIT messages on a stack of entered states. */
module HsmSpec {
  import opened Types

  /** A state function, known by its address. */
  type StateId = nat

  const MSG_WALK := 0xFFFF
  const MSG_ENTRY := MSG_WALK - 1
  const MSG_EXIT := MSG_ENTRY - 1

  /** What a state function answers; the macros in hsm.h also store the named state in tmp_state. */
  datatype Reply = Consumed | Parent(p: StateId) | Top | Transition(t: StateId)

  datatype Call = Call(state: StateId, msg: nat)

  /** The state functions of a machine. A reply may depend on every call made so far, since state
      functions keep data of their own. */
  type StateFns = (seq<Call>, StateId, nat) -> Reply

  /** The replies the engine asserts: WALK is never handled, and EXIT never asks for a transition. */
  ghost predicate Asserted(fns: StateFns) {
    && (forall calls, s :: fns(calls, s, MSG_WALK).Parent? || fns(calls, s, MSG_WALK).Top?)
    && (forall calls, s :: !fns(calls, s, MSG_EXIT).Transition?)
  }

  /** `up` is the parent of a state, `level` the length of its path to a top state. */
  datatype Hierarchy = Hierarchy(up: StateId -> Option<StateId>, level: StateId -> nat)

  ghost predicate Acyclic(h: Hierarchy) {
    forall s :: h.level(s) == match h.up(s)
                              case None => 1
                              case Some(p) => h.level(p) + 1
  }

  /** The state functions describe hierarchy h: WALK answers give the parent, and a message that is
      not handled is passed to the parent. */
  ghost predicate Follows(fns: StateFns, h: Hierarchy) {
    && Acyclic(h)
    && (forall calls, s, msg ::
          match fns(calls, s, msg)
          case Parent(p) => h.up(s) == Some(p)
          case Top => h.up(s) == None
          case Consumed => true
          case Transition(_) => true)
  }

  /** No state is nested deeper than `max`, itself included. */
  ghost predicate NestsAtMost(h: Hierarchy, max: nat) {
    forall s :: h.level(s) <= max
  }

  // ----- paths -----

  /** From s up to its top state. */
  ghost function Path(h: Hierarchy, s: StateId): (r: seq<StateId>)
    requires Acyclic(h)
    ensures |r| == h.level(s) && r[0] == s
    decreases h.level(s)
  {
    match h.up(s)
    case None => [s]
    case Some(p) => [s] + Path(h, p)
  }

  lemma {:induction false} PathStep(h: Hierarchy, s: StateId, k: nat)
    requires Acyclic(h) && k < |Path(h, s)|
    ensures Path(h, s)[k..] == Path(h, Path(h, s)[k])
    ensures h.up(Path(h, s)[k]) == if k + 1 < |Path(h, s)| then Some(Path(h, s)[k + 1]) else None
    decreases k
  {
    if k > 0 {
      PathStep(h, h.up(s).value, k - 1);
    }
  }

  /** No state is its own ancestor. */
  lemma PathDistinct(h: Hierarchy, s: StateId, i: nat, j: nat)
    requires Acyclic(h) && i < j < |Path(h, s)|
    ensures Path(h, s)[i] != Path(h, s)[j]
  {
    PathStep(h, s, i);
    PathStep(h, s, j);
    assert |Path(h, s)[i..]| != |Path(h, s)[j..]|;
  }

  // ----- what a transition should do -----

  /** The least index of an element of `path` that is in `others`, or |path|. */
  ghost function FirstIn(path: seq<StateId>, others: seq<StateId>): (e: nat)
    ensures e <= |path|
    ensures e < |path| ==> path[e] in others
    ensures forall k :: 0 <= k < e ==> path[k] !in others
  {
    if path == [] || path[0] in others then 0 else 1 + FirstIn(path[1..], others)
  }

  /** The deepest state that is `cur` or an ancestor of it and also a proper ancestor of `target`. */
  ghost function CommonParent(h: Hierarchy, cur: StateId, target: StateId): Option<StateId>
    requires Acyclic(h)
  {
    var e := FirstIn(Path(h, cur), Path(h, target)[1..]);
    if e < |Path(h, cur)| then Some(Path(h, cur)[e]) else None
  }

  /** From s up to just below `stop`; all the way up when there is none. */
  ghost function PathBelow(h: Hierarchy, s: StateId, stop: Option<StateId>): seq<StateId>
    requires Acyclic(h)
  {
    if stop.Some? then Path(h, s)[..FirstIn(Path(h, s), [stop.value])] else Path(h, s)
  }

  function Calls(states: seq<StateId>, msg: nat): (r: seq<Call>)
    ensures |r| == |states| && forall i :: 0 <= i < |r| ==> r[i] == Call(states[i], msg)
  {
    if states == [] then [] else [Call(states[0], msg)] + Calls(states[1..], msg)
  }

  function Reverse(s: seq<StateId>): (r: seq<StateId>)
    ensures |r| == |s| && forall i :: 0 <= i < |s| ==> r[i] == s[|s| - 1 - i]
  {
    if s == [] then [] else Reverse(s[1..]) + [s[0]]
  }

  /** Exit from `cur` up to just below the common parent, then enter from there down to `target`. */
  ghost function TransitionTrace(h: Hierarchy, cur: StateId, target: StateId): seq<Call>
    requires Acyclic(h)
  {
    var c := CommonParent(h, cur, target);
    Calls(PathBelow(h, cur, c), MSG_EXIT) + Calls(Reverse(PathBelow(h, target, c)), MSG_ENTRY)
  }

  /** Any state that is common is the common parent or an ancestor of it. */
  lemma CommonParentIsDeepest(h: Hierarchy, cur: StateId, target: StateId, s: StateId)
    requires Acyclic(h) && s in Path(h, cur) && s in Path(h, target)[1..]
    ensures CommonParent(h, cur, target).Some?
    ensures s in Path(h, CommonParent(h, cur, target).value)
    ensures CommonParent(h, cur, target).value in Path(h, cur)
    ensures CommonParent(h, cur, target).value in Path(h, target)[1..]
  {
    var path := Path(h, cur);
    var e := FirstIn(path, Path(h, target)[1..]);
    var k :| 0 <= k < |path| && path[k] == s;
    PathStep(h, cur, e);
    assert path[e..][k - e] == s;
  }

  lemma PathBelowIndex(h: Hierarchy, s: StateId, k: nat)
    requires Acyclic(h) && k < |Path(h, s)|
    ensures PathBelow(h, s, Some(Path(h, s)[k])) == Path(h, s)[..k]
  {
    var c := Path(h, s)[k];
    var e := FirstIn(Path(h, s), [c]);
    if e < k { PathDistinct(h, s, e, k); }
  }

  /** Only the target can be both exited and entered. */
  lemma OnlyTargetReenters(h: Hierarchy, cur: StateId, target: StateId, s: StateId)
    requires Acyclic(h)
    requires var c := CommonParent(h, cur, target);
             s in PathBelow(h, cur, c) && s in PathBelow(h, target, c)
    ensures s == target
  {
    var c := CommonParent(h, cur, target);
    var path, others := Path(h, cur), Path(h, target)[1..];
    var e := FirstIn(path, others);
    if c.Some? { PathBelowIndex(h, cur, e); }
    assert PathBelow(h, cur, c) == path[..e];
    assert s !in others;
    assert Path(h, target) == [target] + others;
  }

  // ----- replaying a trace -----

  /** The ENTRY and EXIT messages among the calls. */
  function Trace(calls: seq<Call>): seq<Call> {
    if calls == [] then []
    else
      var c := calls[|calls| - 1];
      Trace(calls[..|calls| - 1]) + if c.msg == MSG_ENTRY || c.msg == MSG_EXIT then [c] else []
  }

  lemma TraceAppend(calls: seq<Call>, c: Call)
    ensures Trace(calls + [c]) == Trace(calls) + if c.msg == MSG_ENTRY || c.msg == MSG_EXIT then [c] else []
  {
    assert (calls + [c])[..|calls|] == calls;
  }

  /** Replay a trace on a stack of entered states, innermost first. An EXIT must hit the innermost
      state, an ENTRY must go to a child of it, or to a top state when nothing is entered. */
  ghost function Replay(h: Hierarchy, trace: seq<Call>, stack: seq<StateId>): Option<seq<StateId>> {
    if trace == [] then Some(stack)
    else
      var c := trace[0];
      if c.msg == MSG_EXIT then
        if stack != [] && stack[0] == c.state then Replay(h, trace[1..], stack[1..]) else None
      else
        var inner := if stack == [] then None else Some(stack[0]);
        if h.up(c.state) == inner then Replay(h, trace[1..], [c.state] + stack) else None
  }

  lemma {:induction false} ReplayConcat(h: Hierarchy, a: seq<Call>, b: seq<Call>, stack: seq<StateId>)
    requires Replay(h, a, stack).Some?
    ensures Replay(h, a + b, stack) == Replay(h, b, Replay(h, a, stack).value)
    decreases |a|
  {
    if a == [] {
      assert a + b == b;
    } else {
      assert (a + b)[1..] == a[1..] + b;
      var c := a[0];
      ReplayConcat(h, a[1..], b, if c.msg == MSG_EXIT then stack[1..] else [c.state] + stack);
    }
  }

  lemma {:induction false} ReplayExits(h: Hierarchy, states: seq<StateId>, below: seq<StateId>)
    ensures Replay(h, Calls(states, MSG_EXIT), states + below) == Some(below)
    decreases |states|
  {
    if states == [] {
      assert states + below == below;
    } else {
      assert (states + below)[1..] == states[1..] + below;
      ReplayExits(h, states[1..], below);
    }
  }

  lemma CallsConcat(a: seq<StateId>, b: seq<StateId>, msg: nat)
    ensures Calls(a + b, msg) == Calls(a, msg) + Calls(b, msg)
  {
  }

  /** The k-th state of a path is entered when exactly the states above it have been. */
  lemma ReplayEntry(h: Hierarchy, s: StateId, k: nat)
    requires Acyclic(h) && 0 < k <= |Path(h, s)|
    ensures Replay(h, Calls([Path(h, s)[k - 1]], MSG_ENTRY), Path(h, s)[k..]) == Some(Path(h, s)[k - 1..])
  {
    var path := Path(h, s);
    PathStep(h, s, k - 1);
    assert [path[k - 1]] + path[k..] == path[k - 1..];
    assert Calls([path[k - 1]], MSG_ENTRY) == [Call(path[k - 1], MSG_ENTRY)];
  }

  lemma EntriesSplit(h: Hierarchy, s: StateId, k: nat)
    requires Acyclic(h) && 0 < k <= |Path(h, s)|
    ensures Calls(Reverse(Path(h, s)[..k]), MSG_ENTRY)
         == Calls([Path(h, s)[k - 1]], MSG_ENTRY) + Calls(Reverse(Path(h, s)[..k - 1]), MSG_ENTRY)
  {
    var path := Path(h, s);
    assert Reverse(path[..k]) == [path[k - 1]] + Reverse(path[..k - 1]);
    CallsConcat([path[k - 1]], Reverse(path[..k - 1]), MSG_ENTRY);
  }

  /** Entering a path from its k-th state down, with the rest of the path already entered. */
  lemma {:induction false} ReplayEntries(h: Hierarchy, s: StateId, k: nat)
    requires Acyclic(h) && k <= |Path(h, s)|
    ensures Replay(h, Calls(Reverse(Path(h, s)[..k]), MSG_ENTRY), Path(h, s)[k..]) == Some(Path(h, s))
    decreases k
  {
    var path := Path(h, s);
    if k == 0 {
      assert path[0..] == path;
    } else {
      hide Replay, Calls, Reverse, Path;
      EntriesSplit(h, s, k);
      ReplayEntry(h, s, k);
      ReplayConcat(h, Calls([path[k - 1]], MSG_ENTRY), Calls(Reverse(path[..k - 1]), MSG_ENTRY), path[k..]);
      ReplayEntries(h, s, k - 1);
    }
  }

  /** Entering only part of a path fails at once: its outermost state is not a top state. */
  lemma PartialEntryFails(h: Hierarchy, s: StateId, k: nat)
    requires Acyclic(h) && 0 < k < |Path(h, s)|
    ensures Replay(h, Calls(Reverse(Path(h, s)[..k]), MSG_ENTRY), []) == None
  {
    PathStep(h, s, k - 1);
    assert Reverse(Path(h, s)[..k])[0] == Path(h, s)[k - 1];
  }

  /** The two paths part after x states have been exited and n entered; the rest is shared. */
  ghost predicate Parting(h: Hierarchy, cur: StateId, target: StateId, x: nat, n: nat)
    requires Acyclic(h)
  {
    var from, to, c := Path(h, cur), Path(h, target), CommonParent(h, cur, target);
    && x <= |from| && 1 <= n <= |to|
    && x == FirstIn(from, to[1..])
    && (if x < |from| then n < |to| && to[n] == from[x] else n == |to|)
    && PathBelow(h, cur, c) == from[..x] && PathBelow(h, target, c) == to[..n]
    && from[x..] == to[n..]
  }

  lemma PartingPoint(h: Hierarchy, cur: StateId, target: StateId) returns (x: nat, n: nat)
    requires Acyclic(h)
    ensures Parting(h, cur, target, x, n)
  {
    var c := CommonParent(h, cur, target);
    var from, to := Path(h, cur), Path(h, target);
    x := FirstIn(from, to[1..]);
    n := |to|;
    if c.Some? {
      n := 1 + FirstIn(to[1..], [c.value]);
      assert to[n] == c.value;
      PathBelowIndex(h, cur, x);
      PathBelowIndex(h, target, n);
      PathStep(h, cur, x);
      PathStep(h, target, n);
      hide Path, FirstIn, PathBelow;
    }
  }

  /** What a transition does, in terms of where the paths part. */
  lemma PartingTrace(h: Hierarchy, cur: StateId, target: StateId, x: nat, n: nat)
    requires Acyclic(h) && Parting(h, cur, target, x, n)
    ensures TransitionTrace(h, cur, target)
         == Calls(Path(h, cur)[..x], MSG_EXIT) + Calls(Reverse(Path(h, target)[..n]), MSG_ENTRY)
  {
    hide Path, FirstIn, CommonParent, PathBelow, Calls, Reverse;
  }

  lemma MeetingOnPaths(from: seq<StateId>, to: seq<StateId>, e: nat, m: nat, x: nat, n: nat)
    requires x <= |from| && 1 <= n <= |to| && from[x..] == to[n..]
    requires forall k :: 0 <= k < x ==> from[k] !in to[1..]
    requires forall i, j :: 0 <= i < j < |to| ==> to[i] != to[j]
    requires e < |from| && 1 <= m < |to| && from[e] == to[m]
    ensures x <= e && n <= m && e - x == m - n
  {
    assert to[1..][m - 1] == from[e];
    assert to[n..][e - x] == from[x..][e - x];
    assert to[n + e - x] == to[m];
  }

  /** A state e states up from `cur`, m states up from `target`, is where the paths part unless the
      paths have parted before; a state they share beyond a shared one is higher on both. */
  lemma FirstMeeting(h: Hierarchy, cur: StateId, target: StateId, e: nat, m: nat, x: nat, n: nat)
    requires Acyclic(h) && Parting(h, cur, target, x, n)
    requires e < |Path(h, cur)| && 1 <= m < |Path(h, target)| && Path(h, cur)[e] == Path(h, target)[m]
    ensures x <= e && n <= m && e - x == m - n
  {
    hide Path, FirstIn, CommonParent, PathBelow;
    var from, to := Path(h, cur), Path(h, target);
    forall i, j | 0 <= i < j < |to| ensures to[i] != to[j] {
      PathDistinct(h, target, i, j);
    }
    MeetingOnPaths(from, to, e, m, x, n);
  }

  /** The engine's array holds what a transition exits and enters: no more than `max` of either, and
      room for the state where the paths part, unless the search never compares with it. */
  ghost predicate Fits(h: Hierarchy, cur: StateId, target: StateId, max: nat)
    requires Acyclic(h)
  {
    var c := CommonParent(h, cur, target);
    var x, n := |PathBelow(h, cur, c)|, |PathBelow(h, target, c)|;
    x <= max && n <= max && (c.Some? && n == max ==> x == 0 || x == max)
  }

  lemma PartingDecides(h: Hierarchy, cur: StateId, target: StateId, max: nat, x: nat, n: nat)
    requires Acyclic(h) && Parting(h, cur, target, x, n)
    ensures Fits(h, cur, target, max) <==>
              x <= max && n <= max && (x < |Path(h, cur)| && n == max ==> x == 0 || x == max)
  {
  }

  lemma ShallowFits(h: Hierarchy, cur: StateId, target: StateId, max: nat)
    requires Acyclic(h) && NestsAtMost(h, max)
    ensures Fits(h, cur, target, max)
  {
    var x, n := PartingPoint(h, cur, target);
    assert h.level(cur) <= max && h.level(target) <= max;
  }

  /** The numbers of EXITs and ENTRYs determine the trace. */
  lemma SameTraceIff(from: seq<StateId>, to: seq<StateId>, e: nat, m: nat, x: nat, n: nat)
    requires e <= |from| && x <= |from| && 1 <= m <= |to| && 1 <= n <= |to|
    ensures var a := Calls(from[..e], MSG_EXIT) + Calls(Reverse(to[..m]), MSG_ENTRY);
            var b := Calls(from[..x], MSG_EXIT) + Calls(Reverse(to[..n]), MSG_ENTRY);
            a == b <==> e == x && m == n
  {
    var a := Calls(from[..e], MSG_EXIT) + Calls(Reverse(to[..m]), MSG_ENTRY);
    var b := Calls(from[..x], MSG_EXIT) + Calls(Reverse(to[..n]), MSG_ENTRY);
    assert |a| == e + m && |b| == x + n;
    assert a[e].msg == MSG_ENTRY && b[x].msg == MSG_ENTRY;
    assert x < e ==> a[x].msg == MSG_EXIT;
    assert e < x ==> b[e].msg == MSG_EXIT;
  }

  /** A transition takes the path of the current state to the path of the target. */
  lemma TransitionReplays(h: Hierarchy, cur: StateId, target: StateId)
    requires Acyclic(h)
    ensures Replay(h, TransitionTrace(h, cur, target), Path(h, cur)) == Some(Path(h, target))
  {
    hide Replay, Calls, Reverse, Path, TransitionTrace, FirstIn, CommonParent, PathBelow;
    var from, to := Path(h, cur), Path(h, target);
    var e, m := PartingPoint(h, cur, target);
    PartingTrace(h, cur, target, e, m);
    assert from[..e] + from[e..] == from;
    ReplayExits(h, from[..e], from[e..]);
    ReplayEntries(h, target, m);
    ReplayConcat(h, Calls(from[..e], MSG_EXIT), Calls(Reverse(to[..m]), MSG_ENTRY), from);
  }
}
