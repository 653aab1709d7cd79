/** Declarations shared by the publish/subscribe modules: message ids, subscriber kinds and what a
    subscriber looks like to the code that routes messages. */
module Types {

  datatype Option<+T> = None | Some(value: T)

  /** `enum pub_sub_rx_type`. */
  datatype RxType = Callback | Msgq | Fifo

  const MAX_MSG_ID := 0xFFFF

  /** The type order the broker's list is meant to have: callbacks, then msgq, then fifo. */
  function Rank(t: RxType): nat {
    match t
    case Callback => 0
    case Msgq => 1
    case Fifo => 2
  }

  ghost predicate TypeOrdered(types: seq<RxType>) {
    forall i, j :: 0 <= i < j < |types| ==> Rank(types[i]) <= Rank(types[j])
  }

  /** A listed subscriber: `subscribed` is the content of its bit array, `capacity` the length of
      its message queue (only meaningful for a msgq subscriber). */
  datatype Sub = Sub(rxType: RxType, maxPub: nat, subscribed: set<nat>, capacity: nat)
  {
    /** The test made by the broker and by the fifo relay. */
    predicate Wants(id: nat) {
      id <= maxPub && id in subscribed
    }

    function Wanted(): set<nat> {
      set id | id in subscribed && id <= maxPub
    }
  }

  lemma Assoc<T>(a: seq<T>, b: seq<T>, c: seq<T>)
    ensures a + b + c == a + (b + c)
  {
  }
}
