/** The subscriptions bit array: one bit per public message id, 32 to a word (an atomic variable is
    taken to be 32 bits wide). A word is the sequence of its bits, which the kernel's atomic bit
    operations test, set and clear one at a time. */
module Subscriptions {

  type Word = seq<bool>

  const WORD_BITS := 32

  /** ATOMIC_BITMAP_SIZE(maxPub + 1): the words needed for one bit per id up to the maximum. */
  function WordsFor(maxPub: nat): nat {
    (maxPub + 1 + WORD_BITS - 1) / WORD_BITS
  }

  /** The test of one bit; the buffer holds the word it is in. */
  predicate TestBit(words: seq<Word>, id: nat)
    requires id / WORD_BITS < |words| && |words[id / WORD_BITS]| == WORD_BITS
  {
    words[id / WORD_BITS][id % WORD_BITS]
  }

  class SubsBits {
    const words: array<Word>
    const maxPub: nat

    ghost predicate Valid()
      reads words
    {
      && words.Length == WordsFor(maxPub)
      && (forall i :: 0 <= i < words.Length ==> |words[i]| == WORD_BITS)
    }

    /** The set of ids subscribed to. */
    ghost function Ids(): set<nat>
      requires Valid()
      reads words
    {
      set id: nat | id <= maxPub && TestBit(words[..], id)
    }

    /** common_subscriber_init: all words are cleared. */
    constructor (maxPub: nat)
      ensures Valid() && this.maxPub == maxPub && Ids() == {}
    {
      this.maxPub := maxPub;
      words := new Word[WordsFor(maxPub)](_ => seq(WORD_BITS, _ => false));
    }

    /** pub_sub_subscribe: the word written is inside the buffer for every id up to the maximum. */
    method Subscribe(id: nat)
      requires Valid() && id <= maxPub
      modifies words
      ensures Valid() && Ids() == old(Ids()) + {id}
    {
      var i, b := id / WORD_BITS, id % WORD_BITS;
      words[i] := words[i][b := true];
    }

    /** pub_sub_unsubscribe. */
    method Unsubscribe(id: nat)
      requires Valid() && id <= maxPub
      modifies words
      ensures Valid() && Ids() == old(Ids()) - {id}
    {
      var i, b := id / WORD_BITS, id % WORD_BITS;
      words[i] := words[i][b := false];
    }

    /** The test made by the broker and the relay: a bit is only read for an id within range. */
    method IsSubscribed(id: nat) returns (yes: bool)
      requires Valid()
      ensures yes <==> id in Ids()
    {
      yes := id <= maxPub && TestBit(words[..], id);
    }
  }

  // ----- runs -----

  datatype Op = Subscribe(id: nat) | Unsubscribe(id: nat)

  function Wanted(ids: set<nat>, ops: seq<Op>): set<nat> {
    if ops == [] then ids
    else
      var before := Wanted(ids, ops[..|ops| - 1]);
      match ops[|ops| - 1]
      case Subscribe(id) => before + {id}
      case Unsubscribe(id) => before - {id}
  }

  /** After any subscriptions and unsubscriptions the array holds the set they describe. */
  method RunOps(bits: SubsBits, ops: seq<Op>)
    requires bits.Valid() && forall k :: 0 <= k < |ops| ==> ops[k].id <= bits.maxPub
    modifies bits.words
    ensures bits.Valid() && bits.Ids() == Wanted(old(bits.Ids()), ops)
  {
    for k := 0 to |ops|
      invariant bits.Valid() && bits.Ids() == Wanted(old(bits.Ids()), ops[..k])
    {
      assert ops[..k + 1][..k] == ops[..k];
      match ops[k]
      case Subscribe(id) => bits.Subscribe(id);
      case Unsubscribe(id) => bits.Unsubscribe(id);
    }
    assert ops[..|ops|] == ops;
  }

  /** A subscriber is subscribed to x exactly when the last operation on x subscribed it. */
  lemma {:induction false} LastOpDecides(ids: set<nat>, ops: seq<Op>, x: nat)
    ensures x in Wanted(ids, ops) <==>
              (exists k :: 0 <= k < |ops| && ops[k] == Op.Subscribe(x) &&
                           forall j :: k < j < |ops| ==> ops[j] != Op.Unsubscribe(x)) ||
              (x in ids && forall j :: 0 <= j < |ops| ==> ops[j] != Op.Unsubscribe(x))
  {
    if ops != [] {
      var last := |ops| - 1;
      var before := ops[..last];
      LastOpDecides(ids, before, x);
      assert ops == before + [ops[last]];
      if k :| 0 <= k < |before| && before[k] == Op.Subscribe(x) &&
              (forall j :: k < j < |before| ==> before[j] != Op.Unsubscribe(x)) &&
              ops[last] != Op.Unsubscribe(x) {
        assert ops[k] == Op.Subscribe(x);
      }
      if k :| 0 <= k < |ops| && ops[k] == Op.Subscribe(x) &&
              (forall j :: k < j < |ops| ==> ops[j] != Op.Unsubscribe(x)) {
        if k < last { assert before[k] == Op.Subscribe(x); }
      }
    }
  }
}
