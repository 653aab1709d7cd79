# A verified model of the Zephyr publish/subscribe framework and its state machine engine

The project models two libraries and proves what they are for.

**Publish/subscribe.** A message is a block of memory with a packed header (16-bit id, 8-bit allocator
id, 8-bit reference count). The broker's work item takes published messages from a fifo and walks its
subscriber list: callbacks are called, message queues and the first fifo subscriber get a reference, and
each fifo subscriber relays a public message to the next one before handling it. Whoever drops the last
reference gives the block back to the allocator it came from.

* `Protocol` is the transition system: every atomic operation of the broker, of each polling thread, of
  the application and of whoever frees a block is one step, and steps of different threads interleave
  freely. `Enabled` and `Apply` follow the C code operation by operation.
  `Frames` says what each kind of step leaves alone.
* `RefCount`, `RefSafety`, `Lifetime`: the count in memory is the number of owners, in every state of
  every run, even while subscriptions change; nothing is used after it is freed or freed twice.
* `Transit`: even while subscriptions change, a message only moves forward through the list, so it reaches
  each subscriber at most once and is in at most one fifo. `CountBound` and `BoundReached`: when the 8-bit
  count can overflow or underflow, and when it cannot.
* `OnTheWay`: in any reachable state a message has reached a subscriber or is on its way to it, or it never
  will, and only its publication and the subscriber's own subscription to its id change that. `Intended` says
  whom a message is meant for, from the steps of a run alone: the last subscription or unsubscription of its id,
  and how it was published. `Completion`: a message is handled exactly once by each subscriber that the steps
  made before it was handed out made it one for, whatever else is subscribed to, and freed only after that.
* `Drain`: no deadlock, every schedule ends, and then everything has been delivered exactly once and nothing
  has leaked. `Threads`: the same when one thread polls several subscribers, and exactly when they can deadlock.
* `Logs`, `Order`, `Delivery`, `PublishOrder`: with a fixed list and fixed subscriptions, what each subscriber
  has received, in which order, and when the advertised publish order really holds.
* `ListChange` adds to the steps of the protocol that subscribers are taken off the list and put on it again
  under the list mutex, while messages are in transit; they keep their identity, their queue and their thread.
  What is proved of counts, freed memory and forward movement holds there too. `Listed` says whom a message is
  meant for from the changes alone; leaving the list and coming back touches nobody's subscriptions. `Relisted`:
  what is proved of delivery holds too, for a subscriber that stays where it is while the message is handed out
  to it.
  `SecondDelivery`: exactly when a subscriber that is put back gets a message a second time. In the runs of the
  modules above the list does not change.
* `Runtime` is the code of `process_msg`, `publish_work_handler`, `pub_sub_handle_queued_msg`,
  `send_to_next_fifo_subscriber`, `pub_sub_release_msg` and `pub_sub_publish_to_subscriber` as methods of
  a class with the real queues, mutex, header words and free list. Between any two operations the other
  threads may take any steps they like. Every change the methods make is a step of the protocol.
* `ListSpec` and `BrokerList` (the linked list, pointer by pointer), `FanOut`, `Header`, `Subscriptions`,
  `Allocators` and `Delayable` cover the remaining parts.

**State machine engine.** `HsmSpec` says what a transition should do to a hierarchy of states; `Hsm` is
the engine, which knows the hierarchy only through the replies of opaque state functions, one scratch
field and an array of fixed size. State functions may answer differently each time they are called.

What the application must respect is stated as hypotheses: a message is published once in its lifetime
(README.md:38-40), it is published or released only by somebody who owns a reference, each subscriber has a
polling thread of its own (except in `Threads`), and a fifo subscriber is taken off the list only when it has
no public message queued or about to be relayed. The results on forward movement and delivery in `ListChange`,
`Relisted` and `SecondDelivery` further ask that a subscriber is not put on the list while its handler is
running with a message that a fifo subscriber in front still carries
(`ListChange.PlacedKeepsTransitInvIff`). The theorems about order (`Order`, `Delivery`, `PublishOrder`) and
the code in `Runtime` are about runs in which neither the list nor the subscriptions change.

## Where the code and its documentation differ

The model follows the code.

* README.md:5-6 promises messages in publish order. Of its public messages a subscriber receives a prefix
  in publish order in every run if and only if it is not a fifo subscriber, or each earlier fifo subscriber
  takes either all of its ids or none of them (`PublishOrder.PublicInOrderIff`; id by id it always holds).
  A message published directly bypasses the publish fifo and can arrive before public messages published
  earlier, callback and msgq subscribers included. Of all messages meant for it, public and private, a
  subscriber receives a prefix in publish order in every run if and only if, besides, it has subscribed to
  no public id or there are no private ids for it (`PublishOrder.InPublishOrderIff`,
  `PublishOrder.PublishedPastBroker`). With a single block for messages the order always holds, because the
  block is freed only when everybody has handled its message.
* lib/pub_sub/broker.c:32-33 promises the order callbacks, msgq, fifo. It is kept if and only if every
  subscriber added finds its own type present or no later type listed (`ListSpec.RunKeepsTypeOrderIff`;
  `ListSpec.CallbackAfterFifo` is a failing run). The relay depends on it (`FanOut.RelaysOnlyToFifosIff`).
* README.md:108-110 and include/pub_sub/subscriber.h:178-180 say that a priority is only looked at when
  its subscriber is added. The insertion compares the listed subscribers' present priorities, and the list
  stays sorted by the priorities at the time of addition if and only if every addition finds them still in
  that order (`ListSpec.RunKeepsSortedIff`, `ListSpec.ChangedPriorityMatters`).
* include/pub_sub/msg.h:38 says the count is initialised to 1; it is initialised to 0, and
  `pub_sub_new_msg` acquires the first reference.
* lib/pub_sub/Kconfig:16-19 sets no limit on the number of runtime allocators; their ids stay clear of the
  special ones if and only if there are at most 124 (`Allocators.RuntimeIdsFitIff`).
* include/pub_sub/delayable_msg.h:109-115: after an abort that returned 0 the message can still be delivered
  without being started again, if and only if its timer was running while an earlier delivery was still
  queued; after one that failed it is delivered only if it was queued, not if it was just being handled
  (`Delayable.DeliveredAfterAbortIff`, `Delayable.UnguardedAbortIsNotFinal`).
* include/pub_sub/delayable_msg.h:89-91 says that after an update that did not return 0 the message is received
  twice. It is received once more than it is queued: twice if and only if it was not just being handled
  (`Delayable.UpdateDelivers`; `Delayable.UpdatedInHandler` is a run in which it is received once).
* README.md:108-110 has a subscriber removed and added back to change its priority. A fifo subscriber that is put back
  behind one that still carries a message it has handled gets that message again, if it takes its id
  (`SecondDelivery.SecondDeliveryIff`, `SecondDelivery.SecondCallWhenDrained`). Any two fifo subscribers with a
  common id will do (`SecondDelivery.HandledTwice`).
* README.md:130-131 says that a fifo subscriber cannot block the broker. It can when its thread also polls a
  msgq subscriber (include/pub_sub/subscriber.h:210): the broker holds the list mutex while it waits for room
  in the msgq, and the thread that should make room waits for the mutex to relay. The threads can deadlock if
  and only if a thread polls both kinds and the msgq is shorter than the pool (`Threads.DeadlockIff`).
* A state machine transition to an ancestor of the current state exits and enters that ancestor again; a
  transition to the current state does nothing (lib/hsm/hsm.c:59).
* A state nested deeper than `CONFIG_HSM_MAX_NESTED_STATES`, itself included, is started without its
  outermost parents (`Hsm.Machine.Start`), and a transition makes exactly the right EXITs and ENTRYs if and
  only if they fit the array (`HsmSpec.Fits`, `Hsm.Machine.TransitionState`); nothing reports it.
* include/pub_sub/subscriber.h documents `-ENOMSG` for a timeout; a msgq subscriber that has waited gets
  the kernel's `-EAGAIN` (lib/pub_sub/subscriber.c:78, `Runtime.Framework.HandleQueuedMsg`).

## Model

| member | source | states |
|---|---|---|
| Protocol.NextWanting | lib/pub_sub/subscriber.c:152-161 | the relay's search finds the first later subscriber that takes the id, and skips none |
| RefCount.OwnersOfStep | lib/pub_sub/subscriber.c:66-132 | the number of owners, all queues and threads counted, changes by exactly what the step acquires or releases, for every step |
| RefCount.OwnersOfPut | lib/pub_sub/broker.c:100-112 | a put hands the acquired reference over to the queue |
| RefCount.OwnersOfRelayPut | lib/pub_sub/subscriber.c:155-160 | a relay put keeps the relaying thread's own reference and hands over the acquired one |
| RefCount.OwnersOfPublishDirect | lib/pub_sub/subscriber.c:109-132 | the publisher's reference moves to the queue, or is dropped after the callback |
| RefSafety.InitInv | include/pub_sub/msg.h:49-54 | the invariant holds before anything is allocated |
| RefSafety.TouchedIsOwned | lib/pub_sub/msg_alloc.c:17-21 | only an owner, or a handler lent a reference, ever changes a count |
| RefSafety.StepKeepsRefInv | lib/pub_sub/msg_alloc.c:17-44 | each step keeps: count in memory = number of owners, live blocks disjoint, pool = free + live |
| RefSafety.StepKeepsPcInv | lib/pub_sub/broker.c:89-122 | each step keeps: the list mutex is held exactly by the thread between its lock and unlock, and relays point at later fifo subscribers |
| RefSafety.RunKeepsInv | lib/pub_sub/broker.c:85-124 | both hold in every state of every interleaving, with subscriptions changing on the way |
| RefSafety.RunKeepsQueuesFit | lib/pub_sub/broker.c:100-104 | in every run no message queue ever holds more than its length, whoever puts into it |
| Lifetime.FreeIffUnowned | lib/pub_sub/msg_alloc.c:20-28 | a block is on the free list if and only if nobody owns or is freeing what is in it |
| Lifetime.NoUseAfterFree | lib/pub_sub/subscriber.c:78-101 | whoever has a message queued, in hand or in a handler finds it allocated, with its id, and counted |
| Lifetime.FreedOnce | lib/pub_sub/msg_alloc.c:17-44 | in any run an allocation is freed at most once, when nobody owns it, and from then on no handler gets it and no count of it changes |
| Lifetime.RetainedStays | include/pub_sub/msg_alloc.h:60-66 | in every run a message the application has a reference to stays allocated, with its id, until it gives one up |
| Lifetime.HandlerMayRetain | README.md:48-51 | a handler may acquire a reference at any moment while it runs, and then the message outlives the call in whatever run follows |
| Logs.VisitLogs | lib/pub_sub/broker.c:90-99 | what a turn of the broker's loop adds to every subscriber's arrivals and handler calls |
| Logs.PutLogs | lib/pub_sub/broker.c:100-119 | what a put adds, and for which positions it settles the message |
| Logs.RelayPutLogs | lib/pub_sub/subscriber.c:145-163 | a relay is an arrival at the next subscriber and a handler call at this one |
| RefSafety.AfterFifo | lib/pub_sub/broker.c:114-116 | in a type-ordered list only fifo subscribers follow a fifo subscriber |
| Order.IdInMemory | include/pub_sub/msg.h:125-130 | the id read from the header of an owned message is the one it was allocated with |
| Order.ArrivalExpected | lib/pub_sub/broker.c:91-92 | whatever arrives is subscribed to, or private and published directly |
| Order.BrokerMatch | lib/pub_sub/broker.c:89-121 | a callback or msgq subscriber gets what the broker settles for it, and only that |
| Order.FirstMatch | lib/pub_sub/broker.c:105-119 | so does the first fifo subscriber for a set of ids |
| Order.ChainMatch | lib/pub_sub/subscriber.c:145-163 | a later fifo subscriber gets a message exactly when its predecessor goes on to handle it |
| Order.DirectMatch | lib/pub_sub/subscriber.c:109-132 | private messages are never relayed or broadcast |
| Order.StepKeepsOrderInv | lib/pub_sub/subscriber.c:66-163 | every step keeps the relation of all arrival logs to the publish order and to each other |
| Delivery.StepKeepsSentInv | README.md:38-40 | the publish logs hold each published message once, in the log of its route |
| Delivery.RunKeepsDeliveryInv | lib/pub_sub/broker.c:70-124 | the delivery invariant holds in every state of every run with fixed subscriptions |
| Delivery.FifoFed | lib/pub_sub/subscriber.c:145-163 | where the ids of a fifo subscriber enter the relay chain |
| Delivery.FifoBehind | lib/pub_sub/subscriber.c:93-98 | a later fifo subscriber only ever has, in order, what an earlier one for the id has relayed |
| Delivery.BrokerFedOrder | README.md:5-6 | callback and msgq subscribers handle a prefix of all their subscribed messages in publish order |
| Delivery.FifoOrder | README.md:5-6 | fifo subscribers handle a prefix of the publish order for each id, and for any ids that earlier fifo subscribers take all or none of |
| Delivery.DirectOrder | lib/pub_sub/subscriber.c:123-130 | private messages are handled in the order published to the subscriber |
| Delivery.ArrivesAtMostOnce | lib/pub_sub/broker.c:106-119 | a message reaches a subscriber at most once, and only if meant for it |
| Delivery.HandledAtMostOnce | lib/pub_sub/subscriber.c:99-101 | and its handler is called with it at most once |
| Delivery.EarlierFirst | README.md:112-130 | a published message is at a subscriber only after it is at every earlier one that takes it: callbacks before msgqs before fifos |
| Transit.NoArrivalAhead | lib/pub_sub/broker.c:90-119 | while the broker is in its loop with a message, the message reaches nobody ahead of it and no fifo, whatever else happens |
| Transit.NoArrivalBehind | lib/pub_sub/subscriber.c:150-161 | what a fifo subscriber carries reaches nobody further down the list before it is relayed |
| Transit.StepKeepsTransitInv | lib/pub_sub/subscriber.c:145-163 | every step of every thread, subscribing included, moves messages forward only |
| Transit.RunKeepsTransitInv | lib/pub_sub/broker.c:85-124 | and so does every run |
| Transit.AtMostOnce | lib/pub_sub/broker.c:105-119 | with subscriptions changing at any time, a handler is called at most once with a message, and with a private message only if it was published to it |
| Transit.OneLink | include/pub_sub/msg.h:160-184 | with subscriptions changing at any time, a message is linked in at most one fifo, so one link word is enough |
| OnTheWay.FeederSource | lib/pub_sub/broker.c:105-119 | a fifo subscriber that starts to carry a message got it from the broker's loop or from an earlier carrier, so what is behind it was already open |
| OnTheWay.AddressedAfter | lib/pub_sub/subscriber.c:152-157 | a reference is only acquired for a subscriber that takes the id, when the message is before it |
| OnTheWay.StepKeepsOwed | lib/pub_sub/broker.c:85-124 | whether a message has reached a subscriber or will reach it is changed by no step of any thread, except the publication of the message and the subscriber's own subscription to its id |
| OnTheWay.OwedIsHandled | README.md:65-69 | when a message is in no queue and nobody's hand, exactly those it was owed to have handled it, once |
| Intended.SubscribedIff | include/pub_sub/subscriber.h:118-142 | in every run of all threads a subscriber takes an id if and only if its last subscription or unsubscription of the id was a subscription, or there was none and it took it at first |
| Intended.RunFillsBits | include/pub_sub/subscriber.h:110-142 | and its subscriptions are what its bit array stands for after the subscribes and unsubscribes of the run |
| Intended.Resubscribed | include/pub_sub/subscriber.h:118-142 | at any time a subscriber may subscribe and unsubscribe, can go from any subscriptions to any others, and nothing else changes |
| Intended.SentIff | lib/pub_sub/subscriber.c:109-132 | in every run what counts as published, to the broker and to each subscriber, is exactly what somebody published there |
| Intended.IntendedIsDue | lib/pub_sub/broker.c:91-92 | so what is meant for a subscriber at the end of a run is what the steps of the run made so |
| Completion.StepKeepsDueIsOwed | lib/pub_sub/broker.c:91-92 | a subscriber is owed what is meant for it, as long as it does not change its subscription to the id while the message is handed out |
| Completion.HandedOutKeepsOwed | include/pub_sub/subscriber.h:126-136 | while a message is handed out no step changes what a subscriber is owed; once it cannot come to the subscriber any more neither do its own subscriptions, and it still gets what is in its queue |
| Completion.OwedIsIntended | lib/pub_sub/broker.c:85-124 | over any run what a subscriber is owed in the end is decided by the steps made before the message was handed out |
| Completion.EachDueOnce | README.md:65-69 | from any state in which the broker has not started to hand out a message, over any run, a subscriber that keeps its subscription to the id while the message may still come to it handles it exactly once if the steps made before made it one for it (published to the broker and last subscribed to, or published to it), and otherwise not |
| Completion.UnownedIsHandled | lib/pub_sub/msg_alloc.c:17-28 | when nobody owns a message, each such subscriber it was meant for has handled it exactly once, and no other |
| Completion.FreedIsDelivered | README.md:18-19 | so in every run, with subscriptions changing, a message is released back to its allocator only after those subscribers, and no others, have handled it |
| PublishOrder.InPublishOrderIff | README.md:5-6 | a subscriber receives a prefix of everything published for it, public and private, in publish order in every run if and only if there is at most one block, or its fifo predecessors each take all or none of its ids and it takes no public id or there is no private one |
| PublishOrder.OneBlockInOrder | README.md:18-19 | messages that share one block never overtake each other |
| PublishOrder.PublicInOrderIff | README.md:5-6 | of its public messages, in every run if and only if there is at most one block, or it is not a fifo subscriber, or its fifo predecessors each take all or none of its ids |
| PublishOrder.PublishedPastBroker | lib/pub_sub/subscriber.c:109-132 | otherwise a private message published later is handled while the public one is still on its way, whatever the type of the subscriber |
| PublishOrder.Overtaking | lib/pub_sub/subscriber.c:145-163 | otherwise a run exists in which a later message overtakes an earlier one |
| PublishOrder.TwoPublished | include/pub_sub/broker.h:67-72 | the start of that run: two messages published and nothing handled |
| CountBound.PutTargetEmpty | lib/pub_sub/broker.c:100-109 | the broker only acquires for a subscriber that has not had the message |
| CountBound.RelayGoesForward | lib/pub_sub/subscriber.c:93-98 | only public messages are relayed, strictly forward, to a fifo subscriber for which they are public and that has not had them |
| CountBound.OwnersBound | include/pub_sub/msg.h:81-84 | a count never exceeds one, plus one for each msgq and fifo subscriber, plus the application's references |
| CountBound.CountStaysInRange | include/pub_sub/msg.h:87-112 | with subscribers and application references within 254 neither the overflow nor the underflow assertion can fail, subscriptions changing or not |
| BoundReached.HaltedOwners | lib/pub_sub/broker.c:100-119 | when all steps that drop no reference have been taken, a message everybody takes is owned by the broker and by the handler of each queueing subscriber |
| BoundReached.BoundIsReached | include/pub_sub/msg.h:81-84 | for every list and any number of retained references, at least one, or two when nobody queues, there is a run in which the owners are as many as the bound allows |
| BoundReached.CountFitsIff | include/pub_sub/msg.h:87-112 | so no run that retains at most r references to a message fails a count assertion if and only if r and the queueing subscribers are at most 254 |
| CountBound.OwnersBoundBy | include/pub_sub/msg.h:81-84 | the same bound with only the subscribers the message has reached or is being put to |
| ListChange.ChangeKeepsInv | lib/pub_sub/broker.c:22-68 | taking a subscriber off the list or putting it on, while messages are in transit, keeps counts equal to owners and the pool conserved |
| ListChange.PlacedKeepsTransitInvIff | lib/pub_sub/broker.c:44-55 | putting a subscriber on the list keeps every message moving forward if and only if its handler is not running with one that a fifo subscriber in front still carries |
| ListChange.RunKeepsInvAt | lib/pub_sub/broker.c:22-124 | counts are owners in every state of every run with subscribers coming and going |
| ListChange.RunKeepsTransitInvAt | lib/pub_sub/broker.c:22-124 | and messages move forward, additions being made as said |
| ListChange.RelayerIsListed | lib/pub_sub/subscriber.c:148-149 | a thread that is about to relay finds its subscriber's broker pointer set |
| ListChange.AtEveryState | include/pub_sub/msg.h:160-184 | in those runs a message is at a subscriber at most once since it was last put on the list, in at most one fifo, and its count is bounded |
| ListChange.CountStaysInRangeAt | include/pub_sub/msg.h:87-112 | and no count assertion fails within 254 |
| ListChange.FreedOnceAt | lib/pub_sub/msg_alloc.c:17-44 | in every run an allocation is freed at most once, unowned, and not used afterwards |
| Listed.RunDecides | lib/pub_sub/broker.c:22-68 | in every run with list changes the last change decides whether a subscriber takes an id, is on the list, and what has been published to it, wherever it has been moved |
| Listed.SubscribedAtIff | lib/pub_sub/broker.c:59-68 | in particular only its own subscribing and unsubscribing, on the list or off it, changes what a subscriber is subscribed to; being removed and added back does not |
| Listed.AtFirst | README.md:100-104 | a subscriber configured before it is added has the subscriptions it was configured with |
| Listed.BackAgain | README.md:108-110 | a listed subscriber can be removed and added back in any place the type order allows, and nothing but the order of the list has changed: subscriptions, queue, thread and calls are its own |
| Relisted.ChangeKeepsOwed | lib/pub_sub/broker.c:22-68 | changes of the list, too, leave alone what other subscribers are owed |
| Relisted.HadIsIntended | lib/pub_sub/broker.c:22-124 | what a subscriber has had or is owed in the end, over all its times on the list, is decided by the changes made before the message was handed out |
| Relisted.EachDueOnceAt | README.md:65-69 | with subscribers coming and going before, meanwhile and after, one that keeps its subscription and its place while a message may still come to it handles it exactly once, over all its times on the list, if the changes made before made it one for it (published, on the list and last subscribed to, or published to it), and otherwise not |
| Relisted.FreedIsDeliveredAt | README.md:18-19 | and a message is released back to its allocator only after that |
| Relisted.AtMostOncePerSubscriber | lib/pub_sub/broker.c:22-68 | over all its times on the list a subscriber's handler is called at most once with a message, unless it has had it and is put back behind a carrier of it |
| SecondDelivery.SecondDeliveryIff | lib/pub_sub/subscriber.c:145-163 | a subscriber that has had a message and is put back gets it again in some continuation if and only if a fifo subscriber in front still carries it as a public message |
| SecondDelivery.SecondCallWhenDrained | lib/pub_sub/subscriber.c:145-163 | and by any schedule, left alone, if and only if it also takes the id |
| SecondDelivery.HandledTwice | lib/pub_sub/broker.c:44-53 | for any list with two fifo subscribers of a common id such a run exists |
| Drain.HolderCanMove | lib/pub_sub/broker.c:100-103 | the mutex holder can go on, or the thread that empties the full queue it waits for can |
| Drain.AppNeverWaits | include/pub_sub/broker.h:67-72 | whether the application can take a step never depends on what the broker and the polling threads are doing; only a message queue without room keeps a publisher waiting |
| Drain.SomeThreadCanMove | lib/pub_sub/broker.c:89-123 | no deadlock: while anything is undelivered some framework step is enabled |
| Drain.StepWorks | lib/pub_sub/subscriber.c:76-104 | every framework step uses up work |
| Drain.EveryScheduleEnds | lib/pub_sub/broker.c:75-80 | no schedule of framework steps is longer than the work there is |
| Drain.DrainAll | lib/pub_sub/broker.c:70-83 | from every reachable state a schedule delivers all that no paused thread holds up |
| Drain.NoLeak | README.md:18-19 | when all is quiet the counts are the retained references, and with none retained every block is back |
| Drain.FifoComplete | lib/pub_sub/subscriber.c:145-163 | when all is quiet each fifo subscriber has the whole publish order of each id it takes |
| Drain.AllDelivered | README.md:65-69 | and each subscriber that kept its subscription to the id has handled exactly what was meant for it, once |
| Drain.EveryScheduleDelivers | README.md:12-19 | from every reachable state, whatever has been subscribed to, any schedule run until nothing can move has ended in that state: everybody has handled exactly what it was owed, without leaks |
| Drain.EveryRunDelivers | README.md:12-19 | so in every run, subscriptions changing, a message is in the end handled once by each subscriber that the steps before the hand-out made it one for, and by no other, for those that kept their subscription to its id while it could still come to them |
| Threads.FullNeedsBlocks | lib/pub_sub/broker.c:100-104 | a full msgq with one more message to come needs a pool larger than its length |
| Threads.SomeThreadRuns | include/pub_sub/subscriber.h:207-218 | with threads that poll several subscribers each, no deadlock unless one of them polls a fifo subscriber together with such a msgq |
| Threads.DeadlockIff | lib/pub_sub/subscriber.c:145-163 | the threads deadlock in some run if and only if one polls a fifo subscriber together with a msgq subscriber whose queue is shorter than the pool |
| Threads.ThreadsDeliver | README.md:12-19 | otherwise any schedule of these threads delivers everything owed |
| Runtime.OthersUndisturbing | lib/pub_sub/broker.c:34-56 | however long other threads run they leave alone what a thread is working on |
| Runtime.CountInMemory | include/pub_sub/msg.h:90-109 | what the code finds in the header when it is about to change a count |
| Runtime.TakenIsAtTargets | lib/pub_sub/broker.c:85-124 | a message the broker is done with is at every callback, msgq and first fifo subscriber that takes it |
| Runtime.HandledIsRelayed | lib/pub_sub/subscriber.c:88-101 | a public message handled by a fifo subscriber is at the next one that takes it |
| Runtime.Framework.constructor | lib/pub_sub/broker.c:10-20 | the initial state is the protocol's |
| Runtime.Framework.OthersStep | lib/pub_sub/broker.c:70-83 | the interference: any run of steps by other threads |
| Runtime.Framework.IncRefCnt | include/pub_sub/msg.h:87-93 | the word decodes to one reference more and the same ids, other headers are unchanged; requires what the code asserts |
| Runtime.Framework.DecRefCnt | include/pub_sub/msg.h:106-112 | one reference less and the same ids, and the previous count is returned; requires what the code asserts |
| Runtime.Framework.AcquireMsg | include/pub_sub/msg_alloc.h:66-70 | the overflow assertion holds and the header words stay those of the protocol |
| Runtime.Framework.ReleaseMsg | lib/pub_sub/msg_alloc.c:17-28 | the underflow assertion holds, and the last release puts the block on the free list |
| Runtime.Framework.PutMsgq | lib/pub_sub/broker.c:100-104 | waits for room, then puts and goes on to the next subscriber; while it waits another thread can move |
| Runtime.Framework.PutFifo | lib/pub_sub/broker.c:105-119 | puts and ends the loop |
| Runtime.Framework.ProcessMsg | lib/pub_sub/broker.c:85-124 | when it returns, the message is at all its broker targets, only protocol steps have been made, and the broker's reference is released; while it is blocked another thread can move |
| Runtime.Framework.PublishWorkHandler | lib/pub_sub/broker.c:70-83 | when it returns, the publish fifo is empty and every message ever published is at its targets; otherwise another thread can move or more than `budget` messages have been taken |
| Runtime.Framework.GetMsgId | include/pub_sub/msg.h:125-130 | an owner reads the id the message was allocated with |
| Runtime.Framework.FindNext | lib/pub_sub/subscriber.c:150-161 | the loop over the rest of the list finds the next subscriber that takes the id |
| Runtime.Framework.SendToNextFifo | lib/pub_sub/subscriber.c:145-163 | relays to the next fifo subscriber that takes the id, if any, and leaves the handler call to be made; while it waits for the mutex another thread can move |
| Runtime.Framework.HandleMsg | lib/pub_sub/subscriber.c:78-101 | one more handler call, with the message dequeued; if public on a fifo, the next taker has it too; while it is blocked another thread can move |
| Runtime.Framework.HandleQueuedMsg | lib/pub_sub/subscriber.c:66-107 | -EPERM for a callback subscriber, -EAGAIN only to a msgq subscriber that has waited, -ENOMSG only without waiting or on a fifo, both only if nothing is queued before and after the wait, else the first queued message is handled once and relayed |
| Runtime.Framework.PublishToBroker | include/pub_sub/broker.h:67-72 | the message goes to the end of the publish fifo with the publisher's reference |
| Runtime.Framework.PublishToSubscriber | lib/pub_sub/subscriber.c:109-132 | a private message is handled by that subscriber at once, or is in its queue; while blocked the caller keeps its reference and another thread can move |
| Runtime.LockWaitEnds | lib/pub_sub/broker.c:88 | whenever the list mutex keeps a thread waiting, some other thread can move |
| Runtime.RoomWaitEnds | lib/pub_sub/broker.c:100-103 | whenever a full queue keeps a thread waiting, so can the thread that empties it |
| ListSpec.InsertPlaces | lib/pub_sub/broker.c:44-53 | a new subscriber goes behind exactly those of its type with a value as small as its own |
| ListSpec.InsertKeepsContiguous | lib/pub_sub/broker.c:36-43 | equal types stay together, whatever the list |
| ListSpec.InsertKeepsSorted | lib/pub_sub/broker.c:44-55 | each type stays sorted by priority, equal priorities in order of addition |
| ListSpec.InsertKeepsTypeOrderIff | lib/pub_sub/broker.c:32-43 | type order is kept if and only if the type is present or no later type is |
| ListSpec.RunKeepsListed | lib/pub_sub/broker.c:22-68 | contiguity and sorting hold after every sequence of additions and removals |
| ListSpec.RunKeepsTypeOrderIff | lib/pub_sub/broker.c:32-33 | the list is in type order throughout a run if and only if every addition meets that condition |
| ListSpec.CallbackAfterFifo | lib/pub_sub/broker.c:37-43 | a run in which the promised order fails |
| ListSpec.ChangedPriorityHarmlessIff | lib/pub_sub/broker.c:47-48 | a new subscriber goes where the priorities at the time of addition put it if and only if those of the moment still order it the same way |
| ListSpec.RunKeepsSortedIff | README.md:108-110 | over any additions, removals and changes of listed priorities the list stays sorted by priority at addition if and only if every addition meets that condition |
| ListSpec.SetThenAddIff | README.md:108-110 | the priority of any listed subscriber set again and then a subscriber of its type added: the list stays sorted if and only if the first stays on the same side of the second |
| ListSpec.OtherPlaceUnsorted | lib/pub_sub/broker.c:44-53 | any other place leaves the list unsorted |
| ListSpec.ChangedPriorityMatters | README.md:108-110 | a change that does not |
| BrokerList.Broker.FindGroup | lib/pub_sub/broker.c:36-43 | the first loop stops at the start of the group of the type, or at the end |
| BrokerList.Broker.FindPlace | lib/pub_sub/broker.c:44-53 | the second loop stops at the insertion point of the specification |
| BrokerList.Broker.InsertAfter | lib/pub_sub/broker.c:55 | the links are those of the list with the node inserted there |
| BrokerList.Broker.Add | lib/pub_sub/broker.c:22-57 | insertion conserves all other nodes and their order and keeps the list sorted in its groups |
| BrokerList.Broker.Remove | lib/pub_sub/broker.c:59-68 | removal takes out that node only |
| FanOut.RelaysReachTheRest | lib/pub_sub/subscriber.c:145-163 | the relays from a fifo subscriber reach exactly the later takers, in list order |
| FanOut.FanOutReachesTakers | lib/pub_sub/broker.c:90-121 | broker and relays together reach each taker once, in list order, whatever the list |
| FanOut.TakersInOrder | lib/pub_sub/broker.c:90-92 | the takers are exactly the subscribers whose test the id passes, each once |
| FanOut.RelaysOnlyToFifosIff | lib/pub_sub/subscriber.c:144-161 | the relays only reach fifo subscribers if and only if no other taker stands behind a fifo taker |
| FanOut.TypeOrderPutsFifosLast | lib/pub_sub/broker.c:114-116 | which type order guarantees for every id |
| Header.PackUnpack | include/pub_sub/msg.h:14-21 | unpacking gives back what was packed, and the count starts at 0 |
| Header.IncKeepsIdsIff | include/pub_sub/msg.h:87-93 | an increment leaves the ids alone if and only if the count is not 255 |
| Header.DecKeepsIdsIff | include/pub_sub/msg.h:106-112 | a decrement leaves the ids alone if and only if the count is not 0 |
| Header.RunDecodes | include/pub_sub/msg.h:49-148 | after any increments and decrements in bounds the word decodes to its ids and to increments minus decrements |
| Header.NewWord | include/pub_sub/msg_alloc.h:112-113 | a new message has its ids and one reference |
| Header.InitialWord | include/pub_sub/msg.h:49-54 | initialised ids, count 0 |
| Subscriptions.SubsBits.constructor | lib/pub_sub/subscriber.c:134-142 | no subscriptions, in an array sized by include/pub_sub/subscriber.h:42-43 |
| Subscriptions.SubsBits.Subscribe | include/pub_sub/subscriber.h:118-124 | adds one id to the set the bit array stands for, within the array |
| Subscriptions.SubsBits.Unsubscribe | include/pub_sub/subscriber.h:136-142 | removes one id |
| Subscriptions.SubsBits.IsSubscribed | lib/pub_sub/broker.c:91-92 | the test of broker and relay is membership, for ids in and out of range |
| Subscriptions.RunOps | include/pub_sub/subscriber.h:110-142 | after any subscribes and unsubscribes the bit array holds the set they describe |
| Subscriptions.LastOpDecides | include/pub_sub/subscriber.h:110-142 | an id is subscribed if and only if the last operation on it was a subscribe |
| Allocators.RuntimeIdsFitIff | include/pub_sub/msg_alloc.h:15-24 | runtime ids are distinct and clear of the other ranges if and only if there are at most 124 |
| Allocators.Allocation.AddRuntimeAllocator | lib/pub_sub/msg_alloc.c:47-61 | fails exactly when the table is full; only this allocator gets an id, the next one, and no id already given changes meaning |
| Allocators.Allocation.NewMsg | include/pub_sub/msg_alloc.h:96-116 | a free block with the header of its allocator and one reference, or nothing if the slab is empty |
| Allocators.Allocation.AllocateFromSlab | lib/pub_sub/msg_alloc_mem_slab.c:17-25 | takes one block off the free list |
| Allocators.Allocation.FreeForSlab | lib/pub_sub/msg_alloc_mem_slab.c:27-34 | puts it back |
| Allocators.Allocation.InitSpecial | include/pub_sub/static_msg.h:90-120 | static and callback messages belong to no slab and start with count 0 |
| Allocators.Allocation.AcquireMsg | include/pub_sub/msg_alloc.h:66-70 | one reference more on that message only, its ids unchanged |
| Allocators.Allocation.ReleaseMsg | lib/pub_sub/msg_alloc.c:17-44 | the last release returns the block to the allocator it came from and to no other, or calls the callback |
| Allocators.Allocation.SlabConserved | lib/pub_sub/msg_alloc_mem_slab.c:17-34 | free and used blocks add up to the pool of each slab |
| Delayable.RunCounts | lib/pub_sub/delayable_msg.c:57-67 | the count is what is queued or handled, starts are accounted for, and it stays at most 1 if and only if each delivery is handled in time |
| Delayable.LastDecidesTimer | lib/pub_sub/delayable_msg.c:26-55 | the timer runs if and only if the message was started or updated and neither aborted nor expired since |
| Delayable.RunTallies | lib/pub_sub/delayable_msg.c:57-67 | each expiry queues the message with one reference, each dequeue starts a handler call, each return releases it, and nothing else does |
| Delayable.LeftAloneDelivers | lib/pub_sub/delayable_msg.c:26-33 | left alone until nothing is to be delivered, the subscriber takes the message once for each time it is queued, and once more if the timer is running |
| Delayable.UpdateDelivers | include/pub_sub/delayable_msg.h:82-91 | an update is possible at any time, the timer then expires once and the message is taken once more than it is queued, in every run left alone, and there is one in which each delivery is handled in time; after a failed update it is taken twice if and only if it was not being handled |
| Delayable.UpdatedInHandler | include/pub_sub/delayable_msg.h:89-91 | a timely run in which a failed update is followed by one delivery |
| Delayable.AbortFailsIff | lib/pub_sub/delayable_msg.c:43-55 | abort fails if and only if the timer is idle and a delivery is unfinished |
| Delayable.DeliveredAfterAbortIff | include/pub_sub/delayable_msg.h:109-115 | after an abort that returned 0 some run without another start delivers the message if and only if the timer was running and the message queued; after a failed one, if and only if it was queued |
| Delayable.SilentUntilStart | lib/pub_sub/delayable_msg.c:26-33 | with the timer idle and nothing queued, nothing expires and nothing is delivered until the next start |
| Delayable.GuardedAbortIsFinal | README.md:191-198 | with starts only when unused or from the handler, a successful abort is final until the next start |
| Delayable.UnguardedAbortIsNotFinal | include/pub_sub/delayable_msg.h:109-115 | otherwise it need not be |
| Delayable.DelayableMsg.Abort | lib/pub_sub/delayable_msg.c:43-55 | the result, in terms of timer, queue and handler; the timer is idle and nothing else changes |
| Delayable.DelayableMsg.UpdateTimeout | lib/pub_sub/delayable_msg.c:35-41 | the timer runs afterwards, and queue, handler and count are as before; the result says whether an earlier delivery was unfinished with the timer idle |
| Delayable.DelayableMsg.Start | lib/pub_sub/delayable_msg.c:26-33 | the timer runs, and nothing else changes |
| Delayable.DelayableMsg.TimerExpired | lib/pub_sub/delayable_msg.c:57-67 | the timer is idle, the message is queued once more with one reference, given count 0 as the code asserts |
| HsmSpec.PathDistinct | lib/hsm/hsm.c:72-86 | no state of a well-formed hierarchy is its own ancestor |
| HsmSpec.CommonParentIsDeepest | lib/hsm/hsm.c:106-114 | the common parent is the deepest state that is current or an ancestor of it and a proper ancestor of the target |
| HsmSpec.OnlyTargetReenters | lib/hsm/hsm.c:80-120 | only the target can be both exited and entered |
| HsmSpec.FirstMeeting | lib/hsm/hsm.c:88-126 | wherever a search upwards meets the path of the target, it is at the common parent or as far above it on both paths |
| HsmSpec.ShallowFits | lib/hsm/hsm.c:72-86 | what a transition exits and enters fits the array when no state is nested deeper than it |
| Hsm.SearchFits | lib/hsm/hsm.c:72-126 | the search ends where the paths part if and only if what there is to exit and to enter fits the array |
| Hsm.SearchIsRightIff | lib/hsm/hsm.c:65-143 | so the messages sent are those of the transition if and only if they fit the array |
| HsmSpec.TransitionReplays | lib/hsm/hsm.c:65-143 | the EXITs and ENTRYs of a transition, replayed on a stack, lead from the path of the current state to that of the target |
| Hsm.Machine.Send | include/hsm/hsm.h:33-39 | what each reply does to the scratch field |
| Hsm.Machine.CollectParents | lib/hsm/hsm.c:72-86 | for any replies to WALK: terminates, in bounds, no EXIT or ENTRY; on a hierarchy: the ancestors in order, up to the current state if it is one |
| Hsm.Machine.ExitStates | lib/hsm/hsm.c:91-120 | at most MAX EXITs for any replies; on a hierarchy exactly the states below the common parent |
| Hsm.Machine.SendExit | lib/hsm/hsm.c:95-105 | the parent is found whether or not the state consumes the EXIT |
| Hsm.Machine.FindLast | lib/hsm/hsm.c:108-114 | the search through the collected parents |
| Hsm.Machine.EnterStates | lib/hsm/hsm.c:132-139 | ENTRYs from the outermost state to be entered down to the target |
| Hsm.Machine.TransitionState | lib/hsm/hsm.c:65-143 | however deep the hierarchy, exactly the specified EXITs and ENTRYs if and only if they fit the array; at most MAX of each, within the array, on any reply table, even a cyclic one; no state gets any other message but WALK, and there are at most 4 MAX calls |
| HsmSpec.PartialEntryFails | lib/hsm/hsm.c:36-44 | entering only the lower part of a path is not a correct start |
| Hsm.Machine.Start | lib/hsm/hsm.c:19-47 | enters the initial state from the top down, correctly if and only if its path fits the array; no other message but WALK, and the same bounds for any replies |
| Hsm.Machine.AnswerIsNearest | lib/hsm/hsm.c:53-57 | the reply acted on is that of the nearest self-or-ancestor that does not pass the message on |
| Hsm.Machine.Dispatch | lib/hsm/hsm.c:49-57 | dispatch terminates with that reply, having called exactly the states up to that one |
| Hsm.Machine.MsgHandler | lib/hsm/hsm.c:49-63 | the message goes to the current state and its ancestors up to the first that does not pass it on, and to no other state, before or after; a transition is taken relative to the current state whoever asked for it, and not at all if it is to the current state |
| Hsm.Machine.Run | lib/hsm/hsm.c:19-63 | after the start and any messages each message has been handled so in its turn, and replaying all EXITs and ENTRYs never fails and leaves exactly the path of the current state |

## Left out

- Runtime.Framework.ProcessMsg: promises its result only when it returns; while the mutex or a full queue keeps it waiting beyond `patience` looks it promises a reachable state in which another thread can move. That such a wait ends is Drain.StepWorks and Drain.EveryScheduleEnds, for a scheduler that lets the others run.
- Runtime.Framework.PutMsgq: the same, while it waits for room.
- Runtime.Framework.PublishToSubscriber: the same, while it waits for room; no priority or timeout of the kernel is modelled.
- Runtime.Framework.SendToNextFifo: the same, while it waits for the list mutex; the handler call of a relayed message is recorded when the mutex is released, without an interleaving point in between.
- Runtime.Framework.HandleMsg: the same, through Runtime.Framework.SendToNextFifo.
- Runtime.Framework.HandleQueuedMsg: the same, through Runtime.Framework.HandleMsg; which messages the kernel queues while it waits is left to the other threads.
- Runtime.Framework.PublishWorkHandler: the same, through Runtime.Framework.ProcessMsg; of a publish fifo that is never found empty within `budget` messages it says only how many were taken.
- RefSafety.RunKeepsInv: the list is fixed during the run; runs in which it changes are ListChange.RunKeepsInvAt.
- BrokerList.Broker.Remove: does not say what happens to messages queued at the removed subscriber; the relay reads a broker field that removal clears, so a removed fifo subscriber is taken to have no public one (as in ListChange).
- BrokerList.Subscriber.SetPriority: models the call before a subscriber is listed; changes while listed are ListSpec.RunKeepsSortedIff, on sequences.
- Kernel objects (k_fifo, k_msgq, k_mutex, k_poll, k_work_poll, timeouts, k_mem_slab) are a sequence, a bounded sequence, an owner field, an always ready work item, an active flag and a set of free blocks; their source is not part of this model.
- The reset and resubmission of the broker's poll event, pub_sub_populate_poll_evt, the default broker, SYS_INIT hooks and static-definition macros.
- Pointer arithmetic between a message and its header, linker sections (an index stands for a link-section allocator) and the size checks of slab allocations.
- Static and callback messages that are published again in the same lifetime: the protocol publishes each allocation once. Allocators covers their last release, Delayable the repeated publication of a delayed message.
- A delayable message of a callback subscriber: expiry, dequeue and return then happen in one go. Starting a message whose timer is running is not modelled, as the kernel does not allow it.
- The protocol has one slab; the way back from a header to one of several allocators is Allocators.
- Handlers that add or remove subscribers, or send messages to the machine they run in; handlers may acquire references and publish.
- Atomic variables are 32 bits wide, both for the header word and for the words of the subscription bit array; a wider one leaves its upper bits unused.
- Interrupt context, time, thread priorities and weak memory: operations on a header word and on a queue are atomic and interleaved.
- The order of delivery while the list or the subscriptions change. Delivery itself is Completion, Drain and Relisted: of a message whose id a subscriber subscribes to or unsubscribes from, or that is put on or taken off the list, just while the message is handed out and may still come to it, OnTheWay says in each state whether it comes, but nothing is specified.
- The gap between unlinking a removed subscriber and clearing its broker pointer, and between setting the pointer and linking it in: each is one step with the list change.
