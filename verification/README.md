# Verification model of the Synthetix Go SDK

This project models the concurrent and arithmetic cores of the SDK in Dafny and proves what
they promise, for every input or for every run.

Concurrent code is modelled as a transition system: one step per critical section, channel
action or environment event, a program counter per goroutine, and history variables that no
step looks at. `Exec(steps)` is the state after a schedule, or `None` when one of its steps was
not enabled, so a lemma over `Exec(steps)` speaks of every interleaving. The environment (lost
sockets, server replies, timeouts, cancelled contexts, the clock) is whatever the step says it is.
Beside each machine a class updates the same fields in place, one method per critical section,
proved against the functions the machine is made of.

| files | what they model |
|---|---|
| `Registry`, `RegistryProtocol`, `RegistrySafety`, `KeyGrants`, `RegistryListing`, `RegistryHistory`, `RegistryExample` | the public stream client: reference-counted subscriptions, connection generations, replay after reconnect, who is listed and receives what |
| `PublicClient` | its locked fields as an object, and the fan-out over them |
| `SerialRegistry`, `SerialReference` | the same critical sections run one call at a time, against a server that holds a plain set |
| `InfoRequests`, `InfoOutcomes`, `InfoExample`, `ReplyTable` | request and reply correlation of the public client, and the pending-reply map both clients share |
| `TradeProtocol`, `TradeSafety`, `TradeLoss`, `TradeOutcomes`, `TradeExample`, `TradeClient` | the authenticated client: authentication over reconnects, the condition variable, request correlation, and its fields as an object |
| `Ring`, `FanoutProtocol` | a subscriber's ring buffer, and its wake-token protocol |
| `Subscription`, `Text` | the deduplication key, the wire parameters and notification matching |
| `MarketCache` | the market TTL cache: double-checked locking with the fetch under the write lock |
| `Precision` | flooring a decimal to a market increment through shopspring/decimal's rounded division |
| `Envelope`, `EnvelopeAgreement`, `EnvelopeFlattening`, `EnvelopeCommitment`, `EnvelopePosted` | signed actions: the typed data, the REST envelope and the flattened websocket frame; what is posted agrees with what is signed, what a signature commits to, and what is posted besides |
| `SignatureCodec` | splitting, printing and parsing a 65-byte signature |
| `Nonce`, `Backoff` | the nonce counter and expiry, and the reconnect delay |
| `Int64`, `Float64`, `Arithmetic`, `Wrappers` | Go's 64-bit integers, integers that pass through a float64 (read, and printed as the shortest decimal), and facts about products |

Where the code falls short of its own documentation or of the obvious expectation, the code is
modelled as it is, and the exact condition under which it does meet it is proved:

- `wsinfo/client.go:339` says that exactly one call per key and generation writes. Of *grants*
  that is true up to what ends one: between two for a key in a generation a send failed, or the
  key was unsubscribed and tracked again (`GrantUniquePerKey`). Of *frames* it is not: a sender that
  claimed one generation may write to the next connection, beside the replay's own frame
  (`StaleSendDuplicates`). Without a failure or an unsubscribe in between, a second frame for a key
  on a connection always comes with such a stale grant (`DuplicateFramesPerKey`).
- A `wsinfo` request that polled for a connection may be told that its connection was lost while
  it is healthy: the replies of an earlier one were failed after it registered
  (`LossOnHealthyConnection`). `SpuriousLoss` says exactly when; `wstrade` has no such case
  (`TradeLoss.ConnectionLostMeans`).
- The key trims all white space, matching trims only blanks: a spec and its canonical form, which
  always share a key, match the same notifications if and only if the spec's padding is plain
  (`SharingNeedsPlainPadding`); a newline after the symbol is a case (`NewlineBreaksMatching`).
- A `|` followed by one of the key's tags in a free string lets two different requests share a key
  (`BarBreaksKey`); any other `|` is harmless (`KeyFaithful`).
- Flooring can pick the multiple above; `FlooringIsExact` says exactly when, and
  `FlooringUpAboveBound` that the bound 2·10^16 is tight.
- Cancelling an order id of 2^63 or more signs something else than it posts (`RestAgrees`). Over
  the websocket (`WebsocketAgrees`) so does `removeDelegatedSigner` unless the delegate is the
  signer itself, and any action with an integer that its passage through a float64 changes. Being a
  float is not enough: 2^60 is one, and is printed as another number (`LargeNonceIsChanged`).
- An order's `postOnly`, expiry, time in force and TWAP timing are posted but not signed; everything
  else of every action is committed to (`SignatureCommits`).
- The nonce counter wraps after 2^63 - 1. The nonce, its uint64, still rises then, to 2^63; it
  falls on the first later call that reads a time that is not negative, or steps past -1
  (`NoncesRise`, `NonceFalls`).
- An expiry past 2^63 precedes its nonce (`ExpiryIsAfterNonce`), and the backoff overflows when a
  setting reaches 2^62 ns (`ClosedForm`); `wstrade` recovers from that by itself, `wsinfo` stops
  sleeping (`NonPositiveBase`).
- `RecoverSigner` refuses a signature cut short, but takes one followed by other characters
  (`AcceptedTexts`).

## Model

| member | source | states |
|---|---|---|
| RegistrySafety.NoSubscriptionLost | wsinfo/client.go:259-301 | in every interleaving, once the replay of a generation is over and its connection is current, each tracked key nobody is about to send for carries this generation's mark with its frame on this connection, or its present subscription was granted this generation and a send for it failed after that; callers whose wait timed out are no exception |
| RegistrySafety.GrantUnique | wsinfo/client.go:343-374 | two grants to one subscription object in one generation are always separated by a failed send for that key and generation |
| KeyGrants.GrantUniquePerKey | wsinfo/client.go:335-374 | two grants for one key in one generation, whatever the objects, have a failed send for that key and generation or an unsubscribe of the key between them |
| KeyGrants.DuplicateFramesPerKey | wsinfo/client.go:335-374 | two frames for one key on one connection, with neither such a failure nor an unsubscribe between their grants, include one whose grant is older than the connection |
| RegistrySafety.MarkOnlyClearedByOwnFailure | wsinfo/client.go:364-372 | a mark never exceeds the generation; a step changes it only by a newer claim or by the failure of a send claimed in the mark's own generation, so an old failure never clears a newer mark |
| RegistrySafety.DuplicateFramesAreStale | wsinfo/client.go:389-440 | each grant is written at most once and never to an older connection; two frames for one subscription on one connection without a failure between include one whose grant is older than that connection |
| RegistryExample.StaleSendDuplicates | wsinfo/client.go:335-374 | a concrete schedule in which two frames for one key reach one connection although nothing failed |
| RegistrySafety.EachSubscriberListedOnce | wsinfo/client.go:264-273 | in every reachable state each tracked subscription has a subscriber, and each subscriber is listed only under its own key and only once |
| RegistrySafety.UnsubscribeTwice | wsinfo/client.go:306-333 | calling an unsubscribe function again, after any further steps, leaves the registry as it is and sends nothing |
| RegistrySafety.RunKeepsInv | wsinfo/runloop.go:26-103 | coverage, grant separation, mark and delivery invariants hold after every schedule of callers, unsubscribers, Close and the run loop |
| RegistrySafety.RetryIsPossible | wsinfo/client.go:364-372 | after any failed send the key no longer carries that send's mark, and in the same generation the next call can claim it |
| RegistryListing.ListedExactly | wsinfo/client.go:259-333 | after any schedule the listed subscribers are exactly those that a Subscribe call made and that no unsubscribe, no failure of their own call and no Close has taken off: nobody loses a place to another caller |
| RegistryListing.SubscribeIsRefusedOnlyWhenClosed | wsinfo/client.go:259-273 | in any reachable state a Subscribe is refused if and only if the client is closed, and otherwise lists a new subscriber beside all the others |
| RegistryListing.EveryoneReceivesTheirOwn | wsinfo/runloop.go:225-264 | the fan-out of any notification reaches exactly the live subscribers whose own spec matches it, whoever shares their subscription and whoever came first, as long as the specs can share a key |
| RegistryListing.SpecStays | wsinfo/client.go:264-268 | a tracked key keeps the spec of the call that first tracked it |
| RegistryListing.FailedCallsTakeBack | wsinfo/client.go:281-301 | a Subscribe call takes its subscriber back if and only if its own send failed; timing out or finding the key claimed leaves it listed |
| RegistryListing.CallCanReturn | wsinfo/client.go:281-301 | from any reachable state a Subscribe call can return by at most five of its own steps |
| RegistryListing.UnsubscribeTakesOff | wsinfo/client.go:304-333 | the unsubscribe function of any subscriber ever made can be called at any time, and takes off that one and nobody else |
| RegistryListing.CloseLetsAllGo | wsinfo/client.go:222-240 | Close can be called at any time; afterwards nobody is listed and no Subscribe gets in |
| RegistryListing.RunLoopGoesRound | wsinfo/runloop.go:26-139 | dialling bumps the generation, the snapshot is all tracked keys, the replay looks only at keys of the snapshot and at each once, and ends with the last |
| RegistryListing.CanAlwaysReconnect | wsinfo/runloop.go:26-139 | from any reachable state the run loop's own steps get through the replay and, the connection lost, back to dialling |
| RegistryListing.DialConnects | wsinfo/client.go:444-460 | after a successful dial the next look of a waiting Subscribe call finds the connection |
| RegistryHistory.LogIsTrue | wsinfo/client.go:343-374 | the log the results above speak of has an entry for every mark set, every failed send and every key its last subscriber leaves, and no others |
| RegistryHistory.WiresAreTrue | wsinfo/client.go:364-364 | its record of frames grows with each write, by the sender's own claim on the connection the sender had read |
| RegistryHistory.TargetIsLive | wsinfo/client.go:393-416 | a sender reads at most one connection, the live one |
| Registry.RegisterKeeps | wsinfo/client.go:259-273 | after a registration every tracked key still has a subscriber, each listed once under its own key with a fresh id, and no mark runs ahead of the generation |
| Registry.RegisterLists | wsinfo/client.go:264-271 | a registration lists the new subscriber and keeps every one that was listed |
| Registry.DropUnlists | wsinfo/client.go:306-325 | a removal takes that subscriber off its list and nobody else off any |
| Registry.DropKeeps | wsinfo/client.go:306-325 | after a removal every key still tracked has a subscriber left, each listed once under its own key |
| Registry.WithoutDistinct | wsinfo/client.go:314-319 | the splice takes out exactly that subscriber and keeps the others distinct |
| Registry.DropAgain | wsinfo/client.go:306-333 | removing a subscriber that is not listed changes nothing and asks for no upstream unsubscribe |
| PublicClient.Client.AddSubscriber | wsinfo/client.go:259-273 | the section in place: refused exactly when closed, else the registry after registration, invariant kept |
| PublicClient.Client.ClaimGeneration | wsinfo/client.go:344-362 | the section in place: the generation claimed, if any, and the registry after the claim |
| PublicClient.Client.ResetGeneration | wsinfo/client.go:364-371 | the section in place: the mark is cleared only when it still is the failed generation |
| PublicClient.Client.RemoveSubscriber | wsinfo/client.go:306-325 | the section in place: the registry after the drop, and whether an upstream unsubscribe follows |
| PublicClient.Splice | wsinfo/client.go:314-319 | the scan-and-splice loop yields the list without the first occurrence |
| PublicClient.Client.CloseLocked | wsinfo/client.go:222-235 | idempotent: only the first call empties the registry, for good |
| PublicClient.Client.SnapshotKeys | wsinfo/runloop.go:123-129 | the replay's snapshot holds every tracked key exactly once |
| PublicClient.Client.FanOut | wsinfo/runloop.go:225-245 | for any message, channel falling back to method and symbol peeked from the payload, the snapshot holds each subscriber whose subscription matches exactly once and no other, whatever the map order |
| PublicClient.ExtractSymbol | wsinfo/runloop.go:269-284 | the symbol, else the market, else nothing when the payload does not decode |
| PublicClient.FallsBack | wsinfo/runloop.go:226-230 | a notification goes by its channel, or its method only when it has none, and by the payload's symbol, or its market only when that is missing |
| SerialRegistry.ReferenceCountingRefinesSet | wsinfo/subscription.go:6-12 | after every serialised run, whenever connected, the server's subscriptions are exactly the wire parameters of the tracked keys, and subscribes exceed unsubscribes by one for each of them and by none for others |
| SerialReference.ServerHoldsWhatIsWanted | wsinfo/subscription.go:6-12 | whenever connected, the server holds exactly the wire parameters that some caller who has not unsubscribed asked for, with one subscribe more than unsubscribes for each, when no spec is ambiguous |
| SerialReference.ListedExactly | wsinfo/client.go:259-333 | after any serialised run the listed subscribers are exactly those of the calls not undone |
| SerialReference.ReconnectConnects | wsinfo/runloop.go:48-78 | replaying the tracked keys in any order leaves the client connected again |
| SerialRegistry.SendAllSyncs | wsinfo/runloop.go:123-139 | replaying the snapshot in any order brings the server's set up to the registry |
| SerialRegistry.DropSyncs | wsinfo/client.go:306-333 | an unsubscribe keeps server and registry equal, sending exactly when the last subscriber leaves |
| Ring.DropOldest | wsinfo/fanout.go:72-101 | after any mix of enqueues and dequeues the contents are the latest messages enqueued, the dequeued ones an in-order subsequence of the earlier ones, and enqueued = dequeued + dropped + size |
| Ring.OneMore | wsinfo/fanout.go:74-93 | after any operations one more message makes the size min(size + 1, capacity), puts the message last, and drops exactly one, the oldest, if and only if the ring was full |
| Ring.OneLess | wsinfo/fanout.go:113-123 | a dequeue hands over exactly the oldest message of a ring that has one, and drops none |
| Ring.NothingLost | wsinfo/fanout.go:74-93 | nothing is dropped in a run if and only if no enqueue of it found the ring full |
| Ring.PlainQueueUntilFull | wsinfo/fanout.go:72-123 | and then, and only then, dequeued messages and contents are all that was enqueued, in order |
| Ring.Subscriber.constructor | wsinfo/fanout.go:56-70 | the ring starts empty with the given size, or the default for a size that is not positive |
| Ring.Subscriber.Enqueue | wsinfo/fanout.go:74-93 | the array ring refines the drop-oldest queue's push; slots outside the live window stay nil and tail is (head + size) mod length |
| Ring.Subscriber.Dequeue | wsinfo/fanout.go:113-123 | the array ring refines the queue's pop; the slot is cleared |
| FanoutProtocol.NoLostToken | wsinfo/fanout.go:95-135 | whenever the ring is non-empty and not closed the wake channel holds its token, the loop is draining, or an enqueuer has yet to signal |
| FanoutProtocol.AtMostOneCallAfterClose | wsinfo/fanout.go:106-159 | after close at most one handler call starts, and only if the loop was past its done check |
| FanoutProtocol.CallsAfterClose | wsinfo/fanout.go:106-159 | the same of the schedule itself: what comes after a close starts one handler call at most, and none unless the close found the loop past its done check |
| FanoutProtocol.CloseTwice | wsinfo/fanout.go:152-159 | closing again does nothing |
| FanoutProtocol.ExitsOnlyWhenClosed | wsinfo/fanout.go:106-131 | the loop ends only when closed, waiting or just after taking a message |
| FanoutProtocol.ClosedLoopCanExit | wsinfo/fanout.go:106-135 | and then can within four of its own steps |
| FanoutProtocol.HandledInOrder | wsinfo/fanout.go:106-135 | handler calls follow the order messages left the ring, without gaps, in every interleaving |
| FanoutProtocol.RingIsTheQueue | wsinfo/fanout.go:74-123 | in every interleaving the ring is the drop-oldest queue of the enqueues and looks of the schedule |
| FanoutProtocol.MessageIsHandled | wsinfo/fanout.go:74-135 | a schedule in which a message enqueued on a new subscriber is handled |
| FanoutProtocol.EverythingIsDelivered | wsinfo/fanout.go:95-135 | each delivering step lowers a finite rank, and when none is left every message not dropped has been handled |
| InfoRequests.ReplyCorrelation | wsinfo/client.go:389-440 | a channel is offered at most one message and none is dropped; a reply answers its own request; a request that returned has no pending entry |
| InfoOutcomes.OutcomeMeans | wsinfo/client.go:411-439 | after any run a request has a given outcome if and only if its cause happened in it: a reply was taken from its channel, or nil was, or its write failed, or it timed out waiting or without a connection; no outcome changes later |
| InfoOutcomes.PollingSawNone | wsinfo/client.go:444-460 | a request that still polls, so one that ends without a connection, found none at any of its looks |
| InfoOutcomes.ReplyGetsThrough | wsinfo/runloop.go:181-194 | in any run a frame read for a pending id ends in that request's channel, and a request that waits returns with it; a frame for any other id changes nothing |
| InfoOutcomes.LiveConnectionServes | wsinfo/client.go:389-418 | in any run a live connection is held at once by a new request and at its next look by one that polls, and either can be written to it |
| InfoOutcomes.CanAlwaysReturn | wsinfo/client.go:389-440 | from any reachable state a request can return by at most two of its own steps |
| InfoOutcomes.RunLoopGoesRound | wsinfo/runloop.go:26-103 | each step of the run loop leads to the next position of the same connection, failing a request takes just that one off the list, clearing leads back to dialling |
| InfoOutcomes.CanAlwaysReconnect | wsinfo/runloop.go:80-103 | from any reachable state the read loop and the run loop get to dialling once the connection is lost |
| InfoExample.RequestIsAnswered | wsinfo/client.go:389-440 | a schedule in which a request is acknowledged and returns with that reply |
| InfoRequests.ReleasedAfterLoss | wsinfo/runloop.go:181-209 | once a connection's replies are failed, every request in progress that registered before has a message in its channel, one that still polls included; one written to it can receive it and one that holds it can only get a write error |
| InfoRequests.SpuriousLoss | wsinfo/client.go:393-427 | on a connection whose replies are untouched a written request finds nil exactly when an earlier connection's replies were failed since it began and no reply to it came; only a request that polled can have begun that early |
| InfoRequests.ConnectionLostMeans | wsinfo/client.go:425-427 | "connection lost before reply" means that the replies of the connection written to were failed, or that the request polled and those of an earlier one were |
| InfoExample.LossOnHealthyConnection | wsinfo/client.go:389-440 | a schedule in which a request written to a live connection is at once told that it was lost |
| ReplyTable.TakeKeeps | wsinfo/runloop.go:181-187 | taking a reply's entry keeps every id in at most one of map, reader's hand, swapped-out set, already offered |
| ReplyTable.FailOneKeeps | wsinfo/runloop.go:203-208 | offering nil to a swapped-out channel always finds it empty |
| ReplyTable.OfferHandKeeps | wstrade/request.go:131-136 | offering a taken reply always finds the channel empty, so the default arm drops nothing |
| TradeSafety.AuthSafety | wstrade/runloop.go:38-91 | the flag is set only while the connection's own auth request was answered without error, and posts, subscribes and unsubscribes hold and are written to such connections only |
| TradeSafety.OneConnection | wstrade/runloop.go:18-99 | at most one connection is open and one read loop alive at any step, and it is the stored connection |
| TradeSafety.NoMissedWakeup | wstrade/request.go:88-122 | a sleeping request has its wait condition false and the client is not closed; if its context is done the watcher's broadcast is enabled and wakes it |
| TradeSafety.ReplyCorrelation | wstrade/request.go:26-63 | at most one offer per channel, none dropped; what is returned answers the request's own id; no entry is left behind |
| TradeSafety.ReleasedAfterLoss | wstrade/request.go:145-156 | every connection a request can wait on is the current one or has had its replies failed; then a written request has a message and an unwritten one only a write error |
| TradeLoss.ConnectionLostMeans | wstrade/request.go:54-62 | a request told that its connection closed had been written, and the pending replies of that very connection were failed; nil waits for a written request on no other account |
| TradeSafety.RunKeepsInv | wstrade/runloop.go:18-99 | the connection, authentication, wake-up and reply invariants hold after every schedule |
| TradeOutcomes.OutcomeMeans | wstrade/request.go:29-63 | after any run a request has returned a given reply, "connection closed" or another error if and only if the step that causes it happened in the run |
| TradeOutcomes.EnterAnswers | wstrade/request.go:88-122 | an entering request fails on a closed client, takes a connection it may use, fails if its context is done, and sleeps watched otherwise; the context is looked at first only after a sleep |
| TradeOutcomes.RequestsCanBeMade | wstrade/request.go:16-27 | a request can be made in any state, except that authenticating is the run loop's |
| TradeOutcomes.OpenConnectionServes | wstrade/request.go:45-54 | a registered request can be written while its connection is open, and then waits |
| TradeOutcomes.FailedMeans | wstrade/request.go:88-122 | a request fails otherwise only if the client was closed, its own context ended or its own write failed, never for want of a connection or of authentication |
| TradeOutcomes.ClosedRefuses | wstrade/request.go:89-114 | after Close no request sleeps and each that is yet to enter is refused |
| TradeOutcomes.ReplyGetsThrough | wstrade/request.go:124-137 | in any run a frame read for a pending id ends in that request's channel, and a request that waits returns it; a frame for any other id changes nothing |
| TradeOutcomes.CanAlwaysReturn | wstrade/request.go:54-63 | from any reachable state the end of its context and at most five steps of its own make a request return |
| TradeOutcomes.AuthDecided | wstrade/runloop.go:117-142 | a connection whose auth request has returned becomes the authenticated one, waking every sleeper, if and only if what it returned is a reply without an error object |
| TradeOutcomes.CloseEndsConnection | wstrade/client.go:168-183 | Close drops the flag and, once it has closed the connection it captured, none is open |
| TradeOutcomes.WatcherStops | wstrade/request.go:98-108 | no context watcher outlives the wait it was started for |
| TradeOutcomes.WokenBy | wstrade/request.go:97-111 | a sleeper is woken by exactly four things: a watched context's end, an authenticated connection, a connection gone, and Close |
| TradeOutcomes.RunLoopGoesRound | wstrade/runloop.go:18-101 | each step of the run loop leads to a later position of the same connection, through authentication good or bad, and clearing leads back to dialling |
| TradeOutcomes.CanAlwaysReconnect | wstrade/runloop.go:18-101 | from any reachable state read loop, run loop and the auth request get to dialling once connection and context have ended |
| TradeExample.PostIsAnswered | wstrade/request.go:16-63 | a schedule in which a request that slept through the handshake is woken and gets its own reply |
| TradeClient.Client.WaitForConnLocked | wstrade/request.go:88-122 | one pass under the lock decides to sleep, fail or take the connection exactly as the protocol step, registering in the same section |
| TradeClient.Client.TakeEntry | wstrade/request.go:124-130 | taking the entry in place leads from any protocol state the object matches to the state after the read loop's step, and reports whether a request was waiting |
| TradeClient.Client.SendTaken | wstrade/request.go:131-136 | the channel send matches the protocol step and drops nothing |
| TradeClient.Client.RemovePending | wstrade/request.go:139-143 | removing the entry in place leads from any matching protocol state to the state after the request's step |
| TradeClient.Client.FailPendingReplies | wstrade/request.go:145-156 | every registered request finds nil in its channel, all other channels are untouched, the map is empty and nothing is dropped |
| TradeClient.Client.Close | wstrade/client.go:168-183 | only the first call closes; it captures the stored connection and drops the subscribers |
| TradeClient.Client.AddSubscriber | wstrade/client.go:222-229 | refused exactly when closed, else added under an id not in use |
| TradeClient.Client.FanOut | wstrade/request.go:158-177 | the snapshot holds each subscriber's handler exactly once |
| Subscription.KeyFaithful | wsinfo/subscription.go:82-124 | for specs whose free strings hold no separator followed by one of the key's tags, and any symbol, equal keys if and only if equal wire parameters, despite sorting and optional parts |
| Subscription.SameParamsSameKey | wsinfo/subscription.go:82-124 | equal wire parameters always give equal keys |
| Subscription.ParamsReadBack | wsinfo/subscription.go:106-124 | read by their names, the wire parameters give back the caller's spec in canonical form |
| Subscription.StreamMatches | wsinfo/subscription.go:133-148 | a spec for one of the public streams receives that stream's notifications for its symbol or for none, and no others |
| Subscription.OtherTypeMatches | wsinfo/runloop.go:249-264 | a spec of any other type goes by the name of the type |
| Subscription.StreamsDoNotMix | wsinfo/runloop.go:249-264 | no notification matches specs for two different public streams, or two symbols if it names one |
| Subscription.BarBreaksKey | wsinfo/subscription.go:82-101 | the condition is needed: a whole family of spec pairs with one key and different wire parameters |
| Subscription.NoBarIsUnambiguous | wsinfo/subscription.go:82-101 | specs whose free strings hold no separator at all meet that condition |
| Subscription.SharingIsSound | wsinfo/runloop.go:249-264 | specs with equal keys and blank-only padding match exactly the same notifications |
| Subscription.SharingNeedsPlainPadding | wsinfo/runloop.go:286-307 | a spec and its canonical form always share a key, and agree on all notifications if and only if its padding is blank-only |
| Subscription.NewlineBreaksMatching | wsinfo/runloop.go:292-307 | a family where it fails: a newline after the symbol keeps the key and loses the notifications |
| Subscription.BuildKey | wsinfo/subscription.go:82-101 | the slice that grows, is sorted and joined is the key function |
| Subscription.BuildWireParams | wsinfo/subscription.go:106-124 | the map built entry by entry is the wire-parameter function |
| Subscription.TrimSpaceAndUpper | wsinfo/runloop.go:292-307 | the byte loops compute the trimmed, upper-cased symbol |
| Subscription.UpperAscii | wsinfo/runloop.go:309-329 | the in-place copy, or the input itself when it has no lower-case letter, is the upper-cased string |
| MarketCache.OneFetchInFlight | restinfo/client.go:552-586 | at most one cached fetch is in flight, and no read or invalidation happens during it |
| MarketCache.FetchesAreSpaced | restinfo/client.go:570-585 | with no invalidation between, a fetch starts at least one TTL after the previous success was stored |
| MarketCache.AnswersAreCurrent | restinfo/client.go:561-585 | every answer is one successful fetch that began after all invalidations finished before the lookup began, and a cached answer is given under TTL after it was stored |
| MarketCache.CacheHoldsLastSuccess | restinfo/client.go:578-585 | the cache is populated exactly when a fetch succeeded since the last invalidation, and holds that one; failures are never cached |
| MarketCache.NegativeTtlBypasses | restinfo/client.go:557-559 | with a negative TTL the cache stays empty and no lookup takes a lock |
| MarketCache.OwnFetchDecides | restinfo/client.go:557-585 | in any run a lookup answers with what its own fetch brought if and only if that fetch succeeded, and fails if and only if it failed, with the cache or without |
| MarketCache.EveryFetchHappened | restinfo/client.go:578-585 | and every stored fetch, so all that is served, is what some lookup's fetch brought |
| MarketCache.NoDeadlock | restinfo/client.go:552-586 | while a lookup is unfinished it, or a lookup that holds a lock, can go on |
| MarketCache.FetchEndsEitherWay | restinfo/client.go:578-585 | a fetch in flight can fail, and can succeed with any markets |
| MarketCache.InvalidationWaits | restinfo/client.go:201-206 | an invalidation goes ahead if and only if no lookup holds a lock |
| MarketCache.OtherTtlUsesCache | restinfo/client.go:552-563 | with any other TTL no lookup goes past the cache |
| MarketCache.CacheExpires | restinfo/client.go:561-576 | once a whole TTL has passed nothing is served from the cache |
| MarketCache.Client.Snapshot | restinfo/client.go:561-576 | a lookup is answered exactly when a fetch succeeded within the TTL and was not invalidated since, with what it brought, as either check of the protocol answers it |
| MarketCache.Client.Store | restinfo/client.go:578-585 | a success leads to the state after the protocol's store, a failure leaves the cache as it was |
| MarketCache.Client.InvalidateMarketCache | restinfo/client.go:201-206 | afterwards no lookup at any time is answered until another fetch succeeds |
| MarketCache.GetMarket | restinfo/client.go:181-197 | the first market with the symbol, or not-found exactly when none has it; empty symbol and fetch errors reported |
| Precision.FlooringIsExact | synthetix/precision.go:50-50 | the chosen multiple is the floor or one more, and the floor if and only if the remainder keeps the stated distance from the next multiple |
| Precision.FlooringIsExactBelowBound | synthetix/precision.go:50-50 | exact for every value while the increment, scaled to the value's exponent, is below 2·10^16 |
| Precision.FlooringUpAboveBound | synthetix/precision.go:50-50 | for any larger increment there is a value below one increment that is moved up to it |
| Precision.FlooringBound | synthetix/precision.go:50-50 | the value is less than one increment above the result, and at most a 2·10^16th of one below it |
| Precision.OutputIsAMultiple | synthetix/precision.go:34-51 | the printed text parses to exactly the chosen multiple times the increment; fixed-place printing rounds nothing away |
| Precision.FormatAnswers | synthetix/precision.go:34-51 | every input gets a text, or exactly the error for a value or increment that does not parse or an increment that is not positive |
| Precision.PlainText | synthetix/precision.go:50-50 | the text is a minus sign for a negative number only, the whole part without leading zeros, a point and exactly the increment's places |
| Precision.NumeralReads | synthetix/precision.go:35-42 | every sign, digits, point, tail and exponent are read as the number they stand for |
| Precision.OnlyNumeralsAccepted | synthetix/precision.go:35-42 | and only such texts are accepted |
| Precision.FormattingIsIdempotent | synthetix/precision.go:34-51 | formatting a formatted text gives it back |
| Precision.FormattingIsMonotone | synthetix/precision.go:34-51 | a larger value never formats to a smaller number, whatever the exponents |
| Precision.HalfAwayReaches | synthetix/precision.go:50-50 | the rounded quotient reaches m exactly when the dividend is within half a divisor of m times the divisor |
| Precision.PrintParses | synthetix/precision.go:46-50 | printing and parsing are inverse on decimals with non-positive exponent |
| EnvelopeAgreement.RestAgrees | signer/actions.go:37-621 | for all sixteen actions, rebuilding the typed data from the REST envelope by the published schemas gives exactly what was digested, if and only if cancelled ids are below 2^63 and a read action is not named like a write action |
| EnvelopeAgreement.OrderAgrees | types/trade_types.go:42-58 | an order with any of its empty fields omitted reads back as the order that was signed |
| EnvelopeAgreement.IdsAgree | signer/actions.go:121-129 | decimal id lists read back as the ids |
| EnvelopeAgreement.CastsAgree | eip712/builders.go:86-89 | the int64 conversion keeps an id list if and only if all ids are below 2^63 |
| EnvelopePosted.OrderReadsBack | types/trade_types.go:42-58 | all fifteen fields of an order, signed or not, can be read back from its posted form |
| EnvelopePosted.OrdersReadBack | signer/actions.go:64-80 | and so for each order of the list |
| EnvelopePosted.ContextReadsBack | signer/actions.go:89-100 | account, nonce, expiry, signature and, for the twelve actions whose envelope has one, the wallet address can be read back from the envelope |
| EnvelopePosted.OrderReadsBackSent | wstrade/client.go:280-300 | over the websocket an order reads back whole if and only if its expiry and TWAP timing come through a float64 as they went in |
| EnvelopePosted.OrdersAreSent | wstrade/client.go:280-300 | the frame has as many orders as were placed, each readable back under that condition |
| EnvelopePosted.SignatureIsSent | wstrade/client.go:280-300 | the frame carries the signature as it was made and, for those twelve actions, the signer's address |
| EnvelopeFlattening.WebsocketAgrees | wstrade/client.go:191-201 | the same agreement for the frame that is sent, flattened, with every number read into a float64 and printed again: if and only if moreover each signed integer sent as a JSON number comes out as it went in, and the action does not remove a delegate other than the signer |
| EnvelopeFlattening.SmallIntegersSurvive | wstrade/client.go:280-300 | integers up to 2^53 suffice |
| EnvelopeFlattening.LargeNonceIsChanged | wstrade/client.go:280-300 | no action with the nonce 2^60 is sent as it was signed, although 2^60 is a float |
| EnvelopeFlattening.DelegateIsReplaced | signer/actions.go:515-525 | over the websocket the signer's address replaces the delegate's |
| Float64.SmallIntegersAreKept | wstrade/client.go:281-287 | every integer up to 2^53 comes out of reading and printing as it went in |
| Float64.FifteenDigitsAreKept | wstrade/client.go:281-287 | so does every integer of at most fifteen significant digits |
| Float64.TwoTo60IsNotKept | wstrade/client.go:281-287 | 2^60 is a float and does not |
| Float64.NearestIsNearest | wstrade/client.go:281-287 | reading an integer gives a float, and none is nearer |
| Float64.TiesToEven | wstrade/client.go:281-287 | of two as near it gives the even one |
| Float64.PrintedReadsBack | wstrade/client.go:281-287 | what a float prints as reads as that float |
| Float64.PrintedIsShortest | wstrade/client.go:281-287 | and ends in as many zeros as any integer that does |
| Float64.PrintedIsNearest | wstrade/client.go:281-287 | and of those with as many zeros none is nearer to the float |
| EnvelopeFlattening.FlattenSignedEnvelope | wstrade/client.go:280-300 | the merging loop yields params overridden by the top-level keys, whatever the map order |
| EnvelopeCommitment.SignatureCommits | eip712/builders.go:42-461 | two calls have the same typed data if and only if account, nonce, expiry and every signed part of the request are the same; only an order's unsigned fields and nil against empty lists may differ |
| EnvelopeCommitment.OrderReadsBack | eip712/builders.go:49-63 | two orders with one encoding agree in all ten signed fields |
| EnvelopeCommitment.CastsReadBack | eip712/builders.go:86-89 | the int64 conversion never makes two uint64 id lists alike |
| Envelope.FillOrders | signer/actions.go:49-81 | the loops fill the signed and the posted slice with the same orders |
| Envelope.FillCasts | eip712/builders.go:86-89 | the loop fills the signed id list |
| Envelope.FillIds | signer/actions.go:121-124 | the loop fills the posted id list |
| Envelope.ModifyParams | signer/actions.go:226-238 | a field that is not being modified gets no key |
| SignatureCodec.RoundTrip | signer/signature.go:21-34 | split, print, parse gives back the same r and s, and v unchanged below 27, else v - 27 |
| SignatureCodec.ParsesAnyHex | eip712/digest.go:43-60 | the hex of any 65 bytes, under either prefix or none, parses to them, v lowered by 27 exactly from 27 on |
| SignatureCodec.SplitCuts | signer/signature.go:21-34 | a signature is split if and only if it has 65 bytes: r and s are the hex of bytes 0 to 31 and 32 to 63, and v is byte 64 in the 27/28 convention |
| SignatureCodec.HexIsLowerCase | signer/signature.go:30-31 | printed hex has lower-case digits |
| SignatureCodec.CaseDoesNotMatter | eip712/digest.go:43-51 | a text parses alike in upper case, prefix included |
| SignatureCodec.SignatureHexIsHex | wstrade/runloop.go:172-176 | the printed signature is the plain hex of r, s and the wire v |
| SignatureCodec.AcceptedTexts | eip712/digest.go:43-51 | a text is accepted if and only if 65 pairs of hex digits lead it and no 66th follows |
| SignatureCodec.ParseSignature | eip712/digest.go:43-60 | the edit of the last byte in place yields the normalised signature |
| Nonce.Signer.NextNonce | signer/signer.go:98-107 | the counter in place issues the uint64 nonce of the run so far |
| Nonce.NoncesRise | signer/signer.go:92-107 | over any run, for any clock, nonces strictly increase if and only if no call finds the counter negative and reads a time that is not, or steps past -1 |
| Nonce.NoncesRiseAfterEpoch | signer/signer.go:92-107 | with a clock that is never negative: if and only if no call but the last two is given 2^63 - 1 or more |
| Nonce.NonceFalls | signer/signer.go:98-107 | a clock for which the nonces are 2^63 - 1, 2^63, 0 |
| Nonce.NonceBounds | signer/signer.go:98-107 | a nonce is never below the clock read and at most the latest clock so far plus the number of earlier calls |
| Nonce.NoncesRiseInRange | signer/signer.go:92-107 | nonces strictly increase while latest clock plus number of calls is below 2^63 |
| Nonce.ExpiryIsAfterNonce | signer/signer.go:109-118 | an expiry exceeds its nonce if and only if their sum stays below 2^63 |
| Nonce.ExpiryIsAsAsked | signer/signer.go:113-118 | an action is valid for the window asked for, or a minute, modulo 2^64 |
| Nonce.Signer.Resolve | signer/actions.go:44-47 | a nonce of zero draws the next one and moves the counter, any other is used as it is and does not |
| Backoff.RunLoop | wsinfo/runloop.go:26-103 | the bases the loop sleeps for are the doubling sequence restarted at each successful dial |
| Backoff.SinceLastDial | wsinfo/runloop.go:48-51 | the restart point is the last successful dial, or the start when there was none |
| Backoff.ClosedForm | wstrade/runloop.go:206-215 | in both clients the base is initial at first and min(initial * 2^n, max) for each n > 0, if and only if both settings are below 2^62 |
| Backoff.CappedFromStart | wsinfo/runloop.go:367-374 | when initial is at most max the base is min(initial * 2^n, max) from the start |
| Backoff.SleepIsWithinJitter | wsinfo/runloop.go:353-365 | a positive base panics exactly when its jitter range is empty, and otherwise stays within [3/4, 5/4) or [1, 5/4) if and only if the sum does not overflow |
| Backoff.EverySleepIsPossible | wsinfo/runloop.go:357-358 | each duration of the jitter range comes from exactly one draw |
| Backoff.NonPositiveBase | wstrade/runloop.go:191-215 | a base that is not positive, as after an overflow, is not slept for in wsinfo; wstrade sleeps its initial base and goes on from one second |
| Backoff.RunSleepsAreBounded | wstrade/runloop.go:191-204 | in every run every sleep has the closed-form base and lasts within the stated factors of it |

## Left out

- JSON, gorilla/websocket, HTTP, timers and contexts are environment: strings and integers survive encoding unless a float64 intervenes (strings are taken as valid UTF-8), and a write to a connection closed on this side fails.
- keccak256, secp256k1 and the hashing of typed data: agreement stops at equality of typed data. That negative integers cannot be hashed as uint256 is not modelled.
- The websocket handshake's own message (the hexadecimal rewriting in `authenticate`) and its wallet-facing `Serialize`.
- Numbers that are not integers, and integers of 10^21 or more, which encoding/json prints with an exponent: no action sends any.
- ReplyTable.TakeKeeps: request ids are numbers; the `wsinfo-` prefix and the decimal text of ids are not modelled.
- Subscription.KeyFaithful: symbols are ASCII: Unicode case mapping and white space are not modelled.
- Subscription.BarBreaksKey: shows that specs with a separator before a tag can collide, not which of them do.
- PublicClient.Client.FanOut: the JSON decoding of the payload it peeks into is given, as fields that may be absent.
- Precision.OutputIsAMultiple: an exponent difference outside 32 bits, where the library panics, is reported as an error; memory needed for huge exponents is not modelled.
- RegistrySafety.NoSubscriptionLost: a frame counts as delivered once written; what the server then does is the environment's choice.
- TradeSafety.AuthSafety: fire-and-forget pings carry no request and are not part of the machine; they may go out on a connection that has not authenticated.
- Concurrent closing of one subscriber: closing is one step.
- Termination of `wsinfo.Client.Close`, which waits for a read deadline, and blocking in the channel helpers' drop-oldest arm.
- Fairness and timing: the lemmas say which step is enabled, not that a scheduler takes it.
- Objects that Go shares by pointer are values with an explicit identity where it matters (`Shared.obj`), and the classes model one critical section at a time.
- The facade, REST wrappers, options, defaults, side and order-type normalisation, logging and examples: thin, or settled by reading one branch.
