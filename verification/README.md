# Formal model of the MRK mesh

A Dafny model of the self-contained protocols, stores and codecs of the MRK mesh, with proofs about every run or every input.

* **Paid relay.** A Node forwards DATA between two members of a network and is paid by signed receipts, one payment window at a time. `RelayModel`, `NodeRelay` and `StreamChannel` model the two programs; `Exposure`, `Reservation`, `Settlement`, `Recovery`, `Agreement`, `HonestRuns`, `Clocks`, `Pacing` and `Crossing` prove what holds over whole runs; `Endpoints` ties a member's mutable stream to those runs; `HubRegistry`, `HubSafety` and `RelayHub` model the hub that owns the routes, and `HubRuns` shows that a run of the hub is, for each authorization, a run of its session.
* **Ledger store.** `LedgerModel`, `StateTables`, `StateStore`, `BlockStore`, `OperationStore` and `Transactions` model the tables, the sparse overlay of the finalized checkpoint, and the full and active views of one database. `Prune`, `CatchUp`, `Following` and `PrunedServing` model LITE pruning, chunked catch-up and the clients that follow it; `PendingReceipts` the table of receipts waiting to be settled. `Ordering` lists identifiers in order.
* **Codecs.** `Bech32Checksum`, `Bech32m`, `BitGroups` and `Address` (BIP-350, section "Bech32m"), `Wire` (sections 5.2 and 5.3 of RFC 6455) and `Amount`.
* **Fees.** `Fee`.

`MachineInts` bounds Rust's integers and writes out saturation; `Arithmetic` holds shared division facts.

## Reading the model

* Cryptography is symbolic. A transcript hash is a free term over what was hashed, a signature is its key and body, an operation id is a field of what was signed.
* Every step carries the time its party reads. In the three-party machine nothing relates one reading to another; `Clocks` then says what clocks that keep together rule out.
* A member is past its key handshake or not; until then it takes DATA only. The handshake's own records are DATA like any other.
* The bytes a catch-up answer is serialized to are a parameter; they travel as one WebSocket message.
* Answers of the ledger service (authorizations, held tails, pending receipts) are parameters of OPEN. Random masks and channel numbers are parameters or found by search, as in the code.
* Serialized rows are compared by value, so equal values stand for equal bytes. A transaction that fails leaves the database as it was. The change a transaction makes is given by the ledger its caller leaves.
* Text is its bytes or its characters; whether a text has an upper-case letter outside ASCII is a parameter of the Bech32m decoder.

## What the code does that one might not expect

* Honest parties can be refused because their clocks differ: a sender one second behind the Node has its checkpoint refused, one more than 30 seconds ahead has its CloseIntent refused too, and a receiver behind the sender has its receipt refused. `HonestRuns.OnlyTheseRefusals` lists every refusal as an equivalence for arbitrary clocks; `Clocks.ClockedRefusals` says which are left when clocks keep within 15 seconds of the time, and on one shared clock.
* A timer request that reaches a member still in its handshake fails the stream (`HonestRuns.SenderReadsHolds`).
* A sender strictly within its own allowance can be refused by the Node: `Crossing.CrossingIsRefused` is such a run, of records no larger than the SDK sends, and `Pacing.PacedWindowVerdict` says exactly when it happens. It needs a request raised by the timer, or FIN, which no allowance covers.
* The Node accepts recovery receipts up to `claim_until`, but the ledger refuses any received after `valid_until`: `Settlement.NodeReceiptsCollect` says exactly which accepted receipts are paid.
* A consensus catch-up answer is shrunk until it fits 16 MiB, and a public one is never shrunk, but the WebSocket writer refuses more than 1 MiB and 20 bytes. Catch-up therefore fails on answers in between: `Following.FollowPublic` and `Following.FollowConsensus` succeed exactly when no answer on the way is that large. `Following.GapEndsPublicCatchUp` and `Following.GapEndsConsensusCatchUp` are the failure for every such first answer, and `Following.TwoMebibytesNeverArrive` is one size.
* A recommended fee cap survives one epoch for every base fee, operation and usage exactly when the multiplier cannot rise by more than a quarter: `Fee.CapHoldsExactly`. For one particular base fee the rise may be harmless. A denominator of 3, or a multiplier of 3, is too small.
* CLOSE removes the route before it tests who sent it, and drops an unfinished route without keeping its tail.
* Connection ids saturate: after 2^64 - 1 registrations a new connection may take the id of a live one, and only then does the hub's grouping break (`RelayHub.Hub.Register`).
* In the SDK any receipt that arrives after FIN marks FIN as receipted, and FIN is not held to the write allowance.
* An account left out in an active transaction leaves its stored links behind, and they return if the account does: `Transactions.RemovedLinksReturn` for every such history, `Transactions.LinkReturns` for one, and `Transactions.FullLinks` for exactly when links reload as they were left. No caller in the repository removes an account.
* The checkpoint kept in memory holds operations; the stored one does not, so it reloads without them (`StateStore.StoredReloads`).

## Model

| member | source | states |
|---|---|---|
| Exposure.OpenedRouteSafe | mrk-node/src/lib.rs:1090-1158 | A route just opened is within two windows in both directions. |
| Exposure.ScheduleSafe | mrk-node/src/lib.rs:1837-1860 | Raising a checkpoint request keeps a direction within two windows with one exchange open. |
| Exposure.DataSafe | mrk-node/src/lib.rs:1310-1478 | An accepted DATA frame keeps the exposure invariant, whether or not it raises a request. |
| Exposure.CloseIntentSafe | mrk-node/src/lib.rs:1479-1550 | An accepted CloseIntent keeps the invariant in each of its three outcomes. |
| Exposure.CheckpointSafe | mrk-node/src/lib.rs:1551-1628 | An accepted checkpoint keeps the invariant. |
| Exposure.ReceiptSafe | mrk-node/src/lib.rs:1629-1754 | An accepted receipt keeps the invariant, also when it starts the final exchange. |
| Exposure.AcceptChannelSafe | mrk-node/src/lib.rs:1229-1309 | ACCEPT keeps the invariant, also where it starts both final exchanges of a recovery channel. |
| Exposure.StepSafe | mrk-node/src/lib.rs:798-866 | Every event of a route, timer included, keeps the invariant and the authorization. |
| Exposure.TwoWindowExposure | mrk-node/src/lib.rs:798-866 | Over every interleaving: receipted <= window start <= counted, counted - window start <= W, counted - receipted <= 2W, and awaiting a receipt implies a pending checkpoint equal to the window start with its request outstanding. |
| Exposure.BytesReachABoundary | mrk-node/src/lib.rs:1432-1462 | After an accepted DATA frame the direction has a request outstanding or is short of a full window, and a request raised names exactly the counted prefix. |
| Exposure.TimerServesElapsedWindows | mrk-node/src/lib.rs:798-866 | The timer raises a request exactly where a window has elapsed, and leaves none elapsed. |
| Recovery.FrameContinues | mrk-node/src/lib.rs:1551-1754 | No frame on a recovery channel moves the prefix of a direction or raises a request that is not final. |
| Recovery.SessionStepKeepsPrefix | mrk-node/src/lib.rs:714-796 | Each disconnect, recovery open, answer, close from either kind of connection, or frame keeps the prefix of the first disconnect. |
| Recovery.RecoveryKeepsThePrefix | mrk-node/src/lib.rs:741-777 | Over any number of such steps, until the authorization is begun anew, each direction keeps the sequence, bytes and transcript of the first disconnect, every request is final and for that prefix, and the unsigned tail never exceeds its first size. |
| Recovery.RecoveryReceiptClears | mrk-node/src/lib.rs:1629-1754 | A receipt accepted on a recovery channel is for the whole carried prefix and leaves nothing unreceipted. |
| Reservation.PriceMonotone | mrk-node/src/lib.rs:2033-2043 | More bytes never cost less, and a price that fits fits for fewer bytes. |
| Reservation.PriceIsCeiling | mrk-node/src/lib.rs:2033-2043 | The price is the least whole amount not below the exact proportional price. |
| Reservation.StepCovered | mrk-node/src/lib.rs:1364-1415 | Every event keeps the counted bytes affordable and never lowers them. |
| Reservation.ReceiptWithinCounted | mrk-node/src/lib.rs:1593-1600 | An accepted receipt signs for no more than the Node counted. |
| Reservation.AffordableMonotone | mrk-node/src/lib.rs:1364-1415 | What is affordable for some counts is affordable for smaller ones, within paid plus reserved. |
| Reservation.RunCovered | mrk-node/src/lib.rs:1364-1415 | Over every run the counts stay affordable and bound every receipt accepted on the way. |
| Reservation.ReservationCoverage | mrk-node/src/lib.rs:1364-1415 | Any accepted receipt of one direction with any of the other, taken at any times of a run, cost together no more than what was paid plus what is reserved. |
| Settlement.PaidToDateStartsCovered | mrk-core/src/service.rs:3813-3846 | A channel opened on a claim that is paid to date starts covered, with nothing owed. |
| Settlement.OwedIsPrice | mrk-core/src/service.rs:3827-3834 | The rounding written in settlement equals the rounding written in the relay. |
| Settlement.SettleConserves | mrk-core/src/service.rs:3813-3883 | A settlement keeps reserved + paid + released constant and leaves the claim paid to date. |
| Settlement.CollectableIsPaid | mrk-core/src/service.rs:3813-3883 | What is final or not empty, in time and news to the ledger is paid while anything is reserved: the reservation always suffices. |
| Settlement.UsedUp | mrk-core/src/service.rs:3726-3730 | A reservation that is used up was paid out for prefixes at least as expensive as the one refused. |
| Settlement.NextItem | mrk-core/src/service.rs:3703-3883 | Settling a receipt within the counted bytes pays it exactly when a caller could tell beforehand that it is claimable, in time and newer, and otherwise refuses it for one of those reasons. |
| Settlement.AcceptedReceiptsCollect | mrk-core/src/service.rs:3703-3883 | Any receipts within the counted bytes, in any order and repeated, telescope to one price; each is paid exactly when it is collectable, never refused for a small reservation. |
| Settlement.RunDated | mrk-node/src/lib.rs:1593-1684 | Over every run each receipt the Node accepts was signed after the authorization was created, follows its checkpoint within the slack, and is dated by the deadline of its channel. |
| Settlement.NodeDatedSettles | mrk-core/src/service.rs:3738-3747 | On such a receipt the ledger's time test holds exactly when it is executed by the claim deadline and was received while the authorization was valid. |
| Settlement.OpenedStartsOn | mrk-node/src/lib.rs:1090-1158 | A channel opened on a paid-to-date claim starts safe and covered. |
| Settlement.RecoveredStartsOn | mrk-node/src/lib.rs:1066-1158 | So does a recovery channel, on the claim as it was settled meanwhile. |
| Settlement.NodeReceiptsCollect | mrk-node/src/lib.rs:1593-1754 | Run a channel any way at all, opened or recovered, and settle any receipts the Node accepted: each is paid exactly when it is collectable, and its dates turn it away exactly when executed after the claim deadline or received after expiry, the latter only in recovery. |
| StreamChannel.Channel.constructor | mrk-sdk/src/lib.rs:1712-1738 | A stream starts from the settled prefixes of its authorization, outgoing and incoming by role. |
| StreamChannel.Channel.SendRecord | mrk-sdk/src/lib.rs:1921-1971 | A sent record advances the outgoing prefix and appends the DATA frame that carries it. A failure sends nothing: out of sequence numbers nothing changes, out of byte count the sequence number and window start are already taken. |
| StreamChannel.Channel.SendFin | mrk-sdk/src/lib.rs:2555-2577 | FIN and the CloseIntent naming the prefix after it leave together, or neither does. |
| StreamChannel.Channel.OnData | mrk-sdk/src/lib.rs:1946-1993 | An incoming record is taken exactly in sequence and advances the incoming prefix. A gap changes nothing; a byte overflow has taken the sequence number and started the window. |
| StreamChannel.Channel.OnRequest | mrk-sdk/src/lib.rs:2640-2652 | A request that matches what was sent is answered with a checkpoint of that prefix; any other changes nothing. |
| StreamChannel.Channel.OnCheckpoint | mrk-sdk/src/lib.rs:2653-2679 | A valid checkpoint of the received prefix is countersigned; any other changes nothing. |
| StreamChannel.Channel.OnReceipt | mrk-sdk/src/lib.rs:2680-2697 | A valid receipt closes the exchange; after FIN it also marks FIN as receipted. |
| Endpoints.OpenEnd | mrk-sdk/src/lib.rs:1712-1738 | A stream opened from the view of a fresh channel plays its two ends of the three-party machine. |
| Endpoints.Write | mrk-sdk/src/lib.rs:1921-1944 | Sending a record is the machine's send step: possible exactly when it is enabled, same new state, same frame on the link. |
| Endpoints.Finish | mrk-sdk/src/lib.rs:2555-2577 | So is sending FIN with its CloseIntent. |
| Endpoints.TakeIncoming | mrk-sdk/src/lib.rs:2653-2679 | Taking DATA or a checkpoint succeeds exactly when the machine's receive step does, with the same new state and reply; in the handshake only DATA is taken. |
| Endpoints.TakeOutgoing | mrk-sdk/src/lib.rs:2640-2697 | Taking a request or a receipt succeeds exactly when the machine's step does, with the same new state and reply. |
| HonestRuns.StartInv | mrk-sdk/src/lib.rs:1712-1738 | A fresh channel satisfies the agreement invariant. |
| HonestRuns.RequestMatched | mrk-sdk/src/lib.rs:2852-2863 | A Node request in flight always matches the sender's state, and is answered, whatever the clocks read. |
| HonestRuns.RequestAnswered | mrk-sdk/src/lib.rs:2797-2850 | Answering a request keeps the agreement invariant. |
| HonestRuns.ReceiverAgrees | mrk-sdk/src/lib.rs:2894-2934 | The receiver takes every DATA frame that reaches it, and a checkpoint exactly when its handshake is over and the checkpoint is dated no more than 30 seconds ahead of its clock; the invariant holds after. |
| HonestRuns.ReceiptTaken | mrk-sdk/src/lib.rs:2936-2979 | Past its handshake the sender takes every receipt the Node passed on, and the invariant holds after. |
| HonestRuns.SenderReadsHolds | mrk-sdk/src/lib.rs:1897-1919 | A member takes a request or a receipt exactly when its handshake is over. |
| HonestRuns.DataVerdict | mrk-node/src/lib.rs:1310-1478 | An honest DATA frame is refused exactly for want of window, time or reservation, never for its sequence. |
| HonestRuns.IntentVerdict | mrk-node/src/lib.rs:1479-1550 | An honest CloseIntent is accepted exactly when dated no more than 30 seconds ahead of the Node's clock. |
| HonestRuns.CheckpointVerdict | mrk-node/src/lib.rs:1551-1628 | An honest checkpoint passes the equality and coverage tests; it is refused exactly when dated before its request or the authorization, after expiry, or more than 30 seconds ahead of the Node's clock. |
| HonestRuns.ReceiptVerdict | mrk-node/src/lib.rs:1629-1754 | An honest receipt is refused exactly when dated before its checkpoint, more than 30 seconds after it, or after expiry. |
| HonestRuns.StepKeeps | mrk-node/src/lib.rs:973-1754 | Every step of sender, Node or receiver that is not a refusal keeps the invariant, with any clock readings. |
| HonestRuns.ThreePartyAgreement | mrk-node/src/lib.rs:1432-1754 | At every point of every run, whatever the three clocks read, each party's sequence, bytes and transcript equal the next party's folded over the DATA in flight, with at most one exchange open per direction. |
| HonestRuns.NodeVerdict | mrk-node/src/lib.rs:1310-1628 | What the Node refuses from the sender, exactly. |
| HonestRuns.OnlyTheseRefusals | mrk-node/src/lib.rs:973-1754 | At every point of every run with arbitrary clocks, a step of the Node or of a member is refused if and only if it is one of the named cases: window, time or reservation; a date out of order or ahead; late receipts; the handshake. |
| Clocks.StepDated | mrk-node/src/lib.rs:1596-1684 | With clocks within a given skew of the time, every step keeps all dates in flight within that skew of what they answer. |
| Clocks.ClockedRunsStayDated | mrk-node/src/lib.rs:1596-1684 | So does every run. |
| Clocks.ClockedRefusals | mrk-node/src/lib.rs:1596-1684 | Clocks within 15 seconds of the time never have anything refused as ahead; on one shared clock no checkpoint is dated before its request and no receipt before its checkpoint. What is left is listed, as an equivalence. |
| Pacing.WindowVerdict | mrk-node/src/lib.rs:1887-1916 | The Node's window test on any DATA frame of a sender in step, FIN included, as a condition on the request, the timer and two windows. |
| Pacing.ByteWindowsNeverShut | mrk-node/src/lib.rs:1887-1916 | Where bytes raise the requests, only the timer, or FIN past two windows, can shut the window on a paced sender. |
| Pacing.PacedRunsStayInStep | mrk-sdk/src/lib.rs:2771-2795 | A sender that keeps to its write allowance stays in step with the Node over every run. |
| Pacing.PacedWindowVerdict | mrk-node/src/lib.rs:1887-1916 | At any point of a paced run, before FIN or after, the window test refuses the next DATA frame exactly when a request is outstanding and the second window timed out, or the frame runs a window past the requested prefix unseen by the sender, or FIN passes two windows. |
| Pacing.GreetingHolds | mrk-sdk/src/lib.rs:1563-1712 | Over every paced run a member still in its handshake has had no receipt, has signed nothing, and has sent at most one frame of bytes for each record. |
| Pacing.HandshakeIsPaced | mrk-sdk/src/lib.rs:1563-1712 | The two records a member sends before it is past its handshake always keep to the allowance, although the SDK does not test them against it: no run is lost by asking handshake records to be paced. |
| Crossing.Fill | mrk-sdk/src/lib.rs:2510-2520 | Records of 64 KiB, each within the allowance and each counted by the Node, fill a window behind a request the sender has not read. |
| Crossing.CrossingIsRefused | mrk-sdk/src/lib.rs:2499-2795 | A concrete run, both handshakes done and every record of a size the SDK sends, in which a sender within its allowance is refused. |
| HubRegistry.GroupingIsUnique | mrk-node/src/lib.rs:641-670 | The member table is determined by the peers. |
| HubRegistry.EnrollGroups | mrk-node/src/lib.rs:641-670 | Enrolling an id keeps the grouping exactly when the id is new. |
| HubRegistry.DismissGroups | mrk-node/src/lib.rs:714-740 | Dismissing a connection keeps the grouping and leaves no empty list. |
| HubRegistry.FreeChannelExists | mrk-node/src/lib.rs:1168-1172 | With fewer than 2^32 - 1 routes some nonzero channel is free. |
| HubSafety.StepGuarded | mrk-node/src/lib.rs:973-1754 | Whatever happens on one route, every route of the hub stays within two windows of its own authorization. |
| HubSafety.TailOfGuarded | mrk-node/src/lib.rs:741-777 | A route that loses a connection leaves a tail with no exchange open and at most two windows unreceipted. |
| HubSafety.RecoveredGuarded | mrk-node/src/lib.rs:1066-1158 | A recovery channel opened on such a tail is within two windows. |
| RelayHub.CountData | mrk-node/src/lib.rs:1310-1462 | The frame handler's checks and updates amount to the DATA step of the route model. |
| RelayHub.Hub.constructor | mrk-node/src/lib.rs:153-164 | A new hub is empty, valid and guarded: every route within two windows, every kept tail fit to recover from. |
| RelayHub.Hub.Register | mrk-node/src/lib.rs:641-670 | Registers exactly when not draining and under the member limit; the hub stays valid exactly unless the saturated id is already live. |
| RelayHub.Hub.CloseRoutesOf | mrk-node/src/lib.rs:741-796 | Exactly the connection's routes go, and exactly their unfinished paid tails are kept. |
| RelayHub.Hub.Unregister | mrk-node/src/lib.rs:714-796 | A disconnect keeps the hub valid and guarded, removes the connection and its routes, and keeps their tails. |
| RelayHub.Hub.BeginShutdown | mrk-node/src/lib.rs:1794-1827 | Shutdown stops new members and counts the routes that are not recovery routes. |
| RelayHub.Hub.NextChannel | mrk-node/src/lib.rs:1168-1172 | The search ends at the nearest free nonzero channel after the last one given. |
| RelayHub.Hub.CheckHolds | mrk-node/src/lib.rs:1019-1058 | OPEN is held back exactly by a pending receipt, another held session, or a hold without a kept tail. |
| RelayHub.Hub.PaidRoute | mrk-node/src/lib.rs:1066-1167 | A paid OPEN starts from the authorization, or from the kept tail as a recovery route. |
| RelayHub.Hub.PrepareRoute | mrk-node/src/lib.rs:984-1167 | OPEN yields a route exactly when the peer, policy and holds allow it. |
| RelayHub.Hub.Install | mrk-node/src/lib.rs:1168-1228 | A route is installed under a free channel and withdrawn if INCOMING cannot be delivered. |
| RelayHub.Hub.Open | mrk-node/src/lib.rs:984-1228 | OPEN as a whole: when it succeeds, what route it adds, and that the hub stays valid and guarded. |
| RelayHub.Hub.Accept | mrk-node/src/lib.rs:1229-1309 | Only the destination of a waiting route accepts it; the hub stays guarded. |
| RelayHub.Hub.Reject | mrk-node/src/lib.rs:1229-1309 | Only the destination of a waiting route rejects it, which removes it; the hub stays guarded. |
| RelayHub.Hub.Data | mrk-node/src/lib.rs:1310-1478 | DATA from an end of the route is the route step; anything else changes nothing. The hub stays guarded. |
| RelayHub.Hub.CloseIntent | mrk-node/src/lib.rs:1479-1550 | CloseIntent from an end of the route is the route step; anything else changes nothing. The hub stays guarded. |
| RelayHub.Hub.Checkpoint | mrk-node/src/lib.rs:1551-1628 | A checkpoint from an end of the route is the route step; anything else changes nothing. The hub stays guarded. |
| RelayHub.Hub.Receipt | mrk-node/src/lib.rs:1629-1754 | A receipt from the receiving end is the route step; two final receipts clear the kept tail. The hub stays guarded. |
| RelayHub.Hub.Close | mrk-node/src/lib.rs:1755-1779 | CLOSE from any registered connection removes the route; only an end's CLOSE succeeds, and only a finished route clears its tail. |
| RelayHub.Hub.Tick | mrk-node/src/lib.rs:798-866 | The timer visits every route once, both directions, and keeps the hub valid and guarded. |
| HubRuns.Do | mrk-node/src/lib.rs:984-1792 | Every call of a hub method, accepted or refused, does to the routes and the kept tails what its event says, and keeps the hub valid. |
| HubRuns.TakenLeads | mrk-node/src/lib.rs:1310-1754 | A frame on one channel is a frame of that channel's authorization and nothing to any other. |
| HubRuns.KeptTail | mrk-node/src/lib.rs:741-777 | When a connection goes, the tail of each of its paid routes is kept unless it is fully receipted, and the earlier tail stays if it is. |
| HubRuns.UnregisteredLeads | mrk-node/src/lib.rs:714-796 | A lost connection is a disconnect to each authorization it served and nothing to any other. |
| HubRuns.OpenedLeads | mrk-node/src/lib.rs:984-1228 | OPEN is a first channel or a recovery channel to the authorization it names and nothing to any other. |
| HubRuns.ClosedLeads | mrk-node/src/lib.rs:1755-1779 | CLOSE ends the session's channel, forgetting the tail only where the sender owned it and it was finished. |
| HubRuns.HubStepLeads | mrk-node/src/lib.rs:973-1792 | Whatever the hub does is, for every authorization, some steps of its session. |
| HubRuns.HubRunsAreSessionRuns | mrk-node/src/lib.rs:973-1792 | A run of the hub over any members, channels and authorizations is, seen from any one authorization, a run of its session, begun anew only by an OPEN that recovers nothing. |
| HubRuns.KeptIsNotBegun | mrk-node/src/lib.rs:1027-1047 | While a tail is kept no OPEN begins its authorization anew. |
| HubRuns.HubKeepsThePrefix | mrk-node/src/lib.rs:741-777 | In the hub itself: once a connection of a paid channel is gone, then whatever the hub does for anyone, the tail and every channel of that authorization stay at the prefix of that disconnect, all its channels are recovery channels, and the unsigned tail never grows. |
| StateTables.RemoveAll | mrk-core/src/store/state.rs:589-623 | Removes exactly the given keys, as clearing a table and dropping old keys do. |
| StateTables.PersistMap | mrk-core/src/store/state.rs:351-399 | Writes exactly the difference of two maps: dropped keys removed, changed rows written. |
| StateTables.PersistVector | mrk-core/src/store/state.rs:401-425 | Trims the old tail and writes the changed indices, which is the difference of the indexed rows. |
| StateTables.PersistOverlay | mrk-core/src/store/state.rs:427-475 | The overlay holds exactly the keys on which the states differ, with what the committed state has there. |
| StateTables.ApplyOverlay | mrk-core/src/store/state.rs:498-536 | Replaces and drops rows as the overlay says. |
| StateTables.ApplyVectorOverlay | mrk-core/src/store/state.rs:538-563 | Applies an overlay to indexed rows and fails exactly when the result has a gap. |
| StateTables.DiffReaches | mrk-core/src/store/state.rs:351-399 | A difference written onto rows like the old state gives rows like the new one, whatever the comparison looks at. |
| StateTables.OverlayRestores | mrk-core/src/store/state.rs:427-536 | An overlay restores the committed state from any base like the current one. |
| StateTables.VectorReadsBack | mrk-core/src/store/state.rs:342-349 | Indexed rows of a vector pass the contiguity check and read back as it. |
| StateTables.VectorOverlayRestores | mrk-core/src/store/state.rs:477-563 | For vectors of any two lengths the overlay restores the committed one and the contiguity check passes. |
| StateStore.DeriveAliases | mrk-core/src/store/state.rs:565-587 | Aliases derive exactly when each row matches its key and no two share an alias; the loop computes them. |
| StateStore.RowsReachAfter | mrk-core/src/store/state.rs:184-228 | After writing the difference all ten tables hold the new state. |
| StateStore.OverlaysReachCommitted | mrk-core/src/store/state.rs:230-292 | After writing the overlays all ten tables give back the committed state. |
| StateStore.PersistStores | mrk-core/src/store/state.rs:184-307 | For every old and new state, persisting stores the new state and its checkpoint. |
| StateStore.RowsReadBack | mrk-core/src/store/state.rs:106-117 | Rows like a state's read back as that state exactly when its aliases derive. |
| StateStore.StoredReloads | mrk-core/src/store/state.rs:106-182 | A stored ledger hydrates exactly when the aliases of both states derive; both states come back, account links aside. |
| Ordering.Sorted | mrk-core/src/store/operation.rs:212-220 | The listing of a set in order: same elements, strictly ascending, same size. |
| Ordering.SortedIsUnique | mrk-core/src/store/operation.rs:212-220 | An ascending list is the only listing of its elements. |
| BlockStore.BlockRoundTrip | mrk-core/src/store/block.rs:57-146 | A block survives the compact stored form exactly when every commit vote is a vote for it. |
| BlockStore.PersistBlocks | mrk-core/src/store/block.rs:187-238 | The loops fail exactly on duplicates, non-appends, changed or existing blocks or foreign votes, and otherwise prune and append. |
| BlockStore.BlocksLoadBack | mrk-core/src/store/block.rs:153-163 | The table of a contiguous history loads as that history in order. |
| BlockStore.TipIsLast | mrk-core/src/store/block.rs:165-176 | The stored tip is the last block of the history. |
| BlockStore.WholeHistoryStored | mrk-core/src/store/block.rs:187-238 | A transaction on the whole history leaves the table holding the new history. |
| BlockStore.AppendedStored | mrk-core/src/store/block.rs:187-238 | A transaction that saw no history leaves the old blocks followed by its own. |
| BlockStore.BlocksAppend | mrk-core/src/store/block.rs:187-238 | Such an append succeeds exactly when every new block's votes are votes for it. |
| BlockStore.BlocksReplace | mrk-core/src/store/block.rs:187-238 | A whole history is written exactly when each of its blocks is an old one unchanged or lies above all of them with fitting votes. |
| OperationStore.RecordRoundTrip | mrk-core/src/operation.rs:32-107 | Splitting a record into body and finality and joining them under its id are inverse. |
| OperationStore.PersistOperations | mrk-core/src/store/operation.rs:142-194 | The loops fail exactly when a body is missing, changed or taken, and otherwise write the difference of both tables. |
| OperationStore.OperationsLoadBack | mrk-core/src/store/operation.rs:113-140 | Tables that hold a set of records load as it. |
| OperationStore.PendingLoadBack | mrk-core/src/store/operation.rs:36-69 | Pending records load exactly when each is present, and are the present ones. |
| OperationStore.OperationsMerged | mrk-core/src/store/operation.rs:142-194 | A transaction that saw part of the records changes that part only. |
| OperationStore.OperationsReplace | mrk-core/src/store/operation.rs:142-194 | Records are written exactly when each is signed as it says, none known before was signed or created otherwise, and none is stored without having been seen. |
| OperationStore.RankIsLexicographic | mrk-core/src/store/operation.rs:212-220 | The sort key compares creation time, then nonce. |
| OperationStore.LinksWritten | mrk-core/src/store/operation.rs:224-255 | Writing the difference of link sets leaves an account that was shown with exactly its new links, and one that was not with its old ones as well. |
| Transactions.FullViewShows | mrk-core/src/store/mod.rs:52-56 | The full view of a described database loads and is the described ledger, links in order. |
| Transactions.ActiveViewShows | mrk-core/src/store/mod.rs:65-81 | The active view loads and is the same state with the chain folded into the prefix and only pending operations. |
| Transactions.ViewsAgree | mrk-core/src/chain.rs:3-75 | Both views read the same height, tip hash, tip time, next-block time and state root. |
| Transactions.FullTransactionStores | mrk-core/src/storage.rs:337-352 | After a whole-ledger transaction the database describes the ledger it left. |
| Transactions.ActiveTransactionStores | mrk-core/src/storage.rs:358-389 | After an active transaction the database describes the old chain with the new blocks appended, under the old pruned prefix. |
| Transactions.StepDescribes | mrk-core/src/storage.rs:337-389 | Every transaction, failed ones included, leaves a database that describes a ledger. |
| Transactions.ViewsAlwaysAgree | mrk-core/src/storage.rs:337-389 | In every database reached by any mix of full and active transactions both views load and read alike. |
| Transactions.ActiveReloads | mrk-core/src/storage.rs:358-389 | An active transaction reloads as the old blocks followed by the new ones, the same pruned prefix, and the pending part of the operations replaced. |
| Transactions.ActiveLinksGrow | mrk-core/src/storage.rs:358-389 | Account links only grow in an active transaction. |
| Transactions.FullSucceeds | mrk-core/src/store/mod.rs:139-156 | A whole-ledger transaction succeeds exactly when the ledger it leaves may follow the one it found: contiguous blocks that are old ones unchanged or new ones above, and operations signed as they say and unchanged but for finality. |
| Transactions.ActiveSucceeds | mrk-core/src/store/mod.rs:139-156 | An active transaction succeeds exactly when its blocks continue from the tip with fitting votes and every operation it leaves is new or was pending. |
| Transactions.FullReloads | mrk-core/src/storage.rs:337-352 | A whole-ledger transaction reloads as the ledger it left, links listed in order. |
| Transactions.FullLinks | mrk-core/src/store/operation.rs:196-255 | The links an account was left with are the links stored for it if and only if the account was there before or what is still stored for it is among them. |
| Transactions.RemovedLinksReturn | mrk-core/src/store/operation.rs:196-255 | Links of an account that an active transaction leaves out stay stored, and join the links a later transaction gives it. |
| Transactions.LinkReturns | mrk-core/src/store/operation.rs:196-255 | Three transactions from an empty database after which an account left with no links has its old one. |
| Prune.RetainLinks | mrk-core/src/store/mod.rs:292-299 | Keeps the newest links to retained operations, up to the limit. |
| Prune.RetainAccounts | mrk-core/src/store/mod.rs:291-303 | All accounts pruned, and the removed links counted exactly. |
| Prune.RetainedIds | mrk-core/src/store/mod.rs:270-277 | The ids pending or referenced by a retained block. |
| Prune.RetainOperations | mrk-core/src/store/mod.rs:282-286 | Keeps exactly the pending and the referenced records. |
| Prune.History.PruneHistory | mrk-core/src/store/mod.rs:254-308 | Pruning in place gives the pruned ledger, and removed plus retained add up for blocks, operations and links. |
| Prune.PruningReadsAlike | mrk-core/src/store/mod.rs:254-268 | For all limits pruning keeps height, tip hash, tip time, next-block time, state root and contiguity. |
| Prune.PruningKeepsWhatIsNeeded | mrk-core/src/store/mod.rs:270-299 | Exactly the pending or referenced operations stay, unchanged, and no link dangles. |
| Prune.KeptLinksAscend | mrk-core/src/store/mod.rs:292-299 | Links left after pruning are still in order. |
| Prune.PrunedReloads | mrk-core/src/store/mod.rs:139-156 | Pruning a stored ledger always persists and reloads to the pruned ledger itself, its checkpoint's account links aside. |
| CatchUp.ReadBlocks | mrk-core/src/store/mod.rs:198-207 | The loop reads the blocks after a height up to the clamped limit or the tip, or meets a missing one. |
| CatchUp.ReadOperations | mrk-core/src/store/mod.rs:208-221 | Every mentioned operation is read, or one is unreadable. |
| CatchUp.CollectCatchUp | mrk-core/src/store/mod.rs:177-235 | The chunk, or the error, that the tables give. |
| CatchUp.ChunkIsNext | mrk-core/src/store/mod.rs:177-235 | A sound source answers every request within its history with the next blocks, their operations, and a checkpoint only at the tip. |
| CatchUp.TransmittedWhole | mrk-core/src/relay.rs:442-538 | What a server writes as one message arrives whole up to 1 MiB and 20 bytes, and otherwise ends the connection. |
| CatchUp.Respond | mrk-node/src/lib.rs:4835-4862 | The halving loop stops at an answer within 16 MiB although the one of twice the blocks was not, or at one block that is not. |
| Following.PartsAreChained | mrk-core/src/relay_client.rs:115-120 | Each part of a sound source extends what was received before it without gap or repetition, and mentions exactly its own operations. |
| Following.FollowPublic | mrk-core/src/relay_client.rs:103-138 | Asking again from the last height ends with every block to the tip once, every mentioned operation and the checkpoint at the tip, exactly when at most 4096 blocks remain, the tip has a checkpoint and every answer asked for fits one relay message; otherwise the error is the one that condition names. |
| Following.WhyUndelivered | mrk-node/src/lib.rs:4835-4870 | A consensus request goes unanswered only because its first block alone exceeds 16 MiB, or some number of its blocks falls between the two limits. |
| Following.FollowConsensus | mrk-core/src/relay_client.rs:610-678 | The consensus client ends with the whole chain and the tip's checkpoint exactly when every answer on the way is delivered and the tip has a checkpoint; otherwise there is no checkpoint, or a height whose answer is undeliverable. |
| Following.SmallAnswersReachTheTip | mrk-core/src/relay_client.rs:610-678 | Where every single block fits and no answer falls between the limits, every height is served to the tip. |
| Following.GapEndsPublicCatchUp | mrk-node/src/lib.rs:4621-4629 | Whatever the source and the serializer, a first public answer between the two limits is never delivered, and following ends there. |
| Following.GapEndsConsensusCatchUp | mrk-node/src/lib.rs:4835-4870 | The same for the consensus client: its server chooses that answer because it fits 16 MiB, and its writer refuses it. |
| Following.TwoMebibytesNeverArrive | mrk-node/src/lib.rs:4621-4629 | An instance at two mebibytes for both clients. |
| PrunedServing.PrunedStillServes | mrk-core/src/store/mod.rs:254-308 | A node that pruned its history still serves all it retained. |
| PendingReceipts.Table.StoreSettlement | mrk-core/src/storage.rs:531-567 | A receipt replaces the row exactly when it is no older, no shorter and no less final. |
| PendingReceipts.Table.RemoveIfNotNewer | mrk-core/src/storage.rs:581-612 | A row is removed exactly when the removal covers it. |
| PendingReceipts.ReceiptKept | mrk-core/src/storage.rs:531-612 | Over any interleaving a stored receipt is kept or replaced by one no older until a removal covers it. |
| PendingReceipts.DroppedOnlyWhenCovered | mrk-core/src/storage.rs:581-612 | A receipt that vanished, or gave way to an older one, was covered by a removal after it was stored. |
| PendingReceipts.StoresNeverRegress | mrk-core/src/storage.rs:531-567 | Stores alone never lower sequence, bytes or finality. |
| Bech32Checksum.StepIsInjective | mrk-core/src/crypto.rs:256-275 | One step of the checksum is reversible. |
| Bech32Checksum.RunIsInjective | mrk-core/src/crypto.rs:256-275 | A whole run is reversible, for any word. |
| Bech32Checksum.SixDigits | mrk-core/src/crypto.rs:200-216 | Six digits in place of six zeros add exactly themselves to the checksum. |
| Bech32Checksum.ChecksumIsUnique | mrk-core/src/crypto.rs:200-247 | A word checks exactly when its last six digits are the one checksum. |
| Bech32Checksum.Polymod | mrk-core/src/crypto.rs:256-275 | The 32-bit loop computes the symbol-wise checksum. |
| Bech32m.Encode | mrk-core/src/crypto.rs:200-216 | The encoder's loops produce the prefix, the separator, the data letters and the six digits. |
| Bech32m.Decode | mrk-core/src/crypto.rs:218-247 | The decoder's loops give each error, or the prefix and data, in the source's order of tests. |
| Bech32m.DigitsAreUnique | mrk-core/src/crypto.rs:239-244 | Six symbols complete a word exactly when they are its digits. |
| Bech32m.DecodesExactlyTheEncoded | mrk-core/src/crypto.rs:200-247 | A text decodes to a prefix and data if and only if it is their encoding, the prefix is non-empty and lower-case and the text fits 90 characters. |
| Bech32m.BurstInSymbols | mrk-core/src/crypto.rs:256-275 | Two words that check and differ in at most six neighbouring symbols are equal. |
| Bech32m.BurstIsRefused | mrk-core/src/crypto.rs:218-247 | Damage to up to six neighbouring data characters, none of them becoming a separator, is always refused, at any length. |
| BitGroups.DigitsAreUnique | mrk-core/src/crypto.rs:277-301 | Digits of a given count spell a number in one way only. |
| BitGroups.Drain | mrk-core/src/crypto.rs:288-291 | The inner loop moves whole digits out and keeps the number. |
| BitGroups.ReadIn | mrk-core/src/crypto.rs:282-292 | The outer loop reads every value and keeps the number, though the accumulator drops high bits. |
| BitGroups.ConvertBits | mrk-core/src/crypto.rs:277-301 | Padded, the output is the input bits followed by fewer than one digit of zeros. Unpadded, the input is the output followed by such zeros, or nothing packs to it. |
| BitGroups.PacksOneWay | mrk-core/src/crypto.rs:277-301 | A byte string packs into one group list. |
| BitGroups.PacksOtherWay | mrk-core/src/crypto.rs:277-301 | A group list unpacks into one byte string. |
| Address.AddressFromDigest | mrk-core/src/crypto.rs:137-142 | The address spells the first twenty bytes of the digest. |
| Address.ValidateAddress | mrk-core/src/crypto.rs:144-154 | A text is accepted if and only if it is the address of some twenty bytes. |
| Address.AddressesAreOneToOne | mrk-core/src/crypto.rs:137-154 | Equal addresses mean equal payloads, and conversely. |
| Address.DamagedIsNoAddress | mrk-core/src/crypto.rs:144-154 | Change up to six neighbouring characters of an address anywhere, separator and prefix included, to anything: it is no address. |
| Wire.FramesInvert | mrk-core/src/relay.rs:321-365 | Bytes decode to a frame if and only if the frame encodes to them. |
| Wire.MaskTwice | mrk-core/src/relay.rs:478-482 | Masking twice with one key is the identity. |
| Wire.MaskInPlace | mrk-core/src/relay.rs:478-482 | The loop masks the buffer in place. |
| Wire.LengthReads | mrk-core/src/relay.rs:455-463 | All three length encodings read back. |
| Wire.MessageReads | mrk-core/src/relay.rs:442-538 | A written message, masked or not, reads back and leaves exactly what follows it. |
| Wire.StreamReads | mrk-core/src/relay.rs:442-538 | Any list of legal messages reads back from the concatenated writes, to the last byte. |
| Wire.FrameTravels | mrk-core/src/relay.rs:321-538 | A frame of up to 1 MiB, encoded, sent as one message, masked or not, and read from a stream with more to come, is the frame that was sent. |
| Amount.FormatMrk | mrk-core/src/amount.rs:55-67 | The printer's loop drops exactly the trailing zeros of the fraction. |
| Amount.Decimal | mrk-core/src/amount.rs:55-67 | Decimal digits spell their number. |
| Amount.AmountRoundTrip | mrk-core/src/amount.rs:9-67 | Parsing a printed amount gives it back for every amount within the supply, and refuses every larger one. |
| Fee.NextMultiplier | mrk-core/src/fee.rs:113-153 | With a target set, the next multiplier is within the policy bounds. |
| Fee.MonotoneInUsage | mrk-core/src/fee.rs:113-153 | More usage never gives a lower multiplier. |
| Fee.CapSurvives | mrk-core/src/fee.rs:63-153 | The recommended cap passes after an epoch of any usage when the greatest rise is at most a quarter. |
| Fee.CapFails | mrk-core/src/fee.rs:63-153 | When the greatest rise is more than a quarter, there are a base fee, an operation and a usage whose cap is too low. |
| Fee.CapHoldsExactly | mrk-core/src/fee.rs:63-153 | The cap holds for every base fee, operation and usage if and only if the greatest rise is at most a quarter. |
| Fee.RiseIsAQuarter | mrk-core/src/fee.rs:113-153 | Denominator and multiplier of at least four, in bounds, keep the rise to a quarter. |
| Fee.FeeCapSurvivesOneEpoch | mrk-core/src/fee.rs:63-153 | For base fees that governance allows, the cap survives one epoch without overflow. |
| Fee.SmallDenominatorFails | mrk-core/src/fee.rs:113-153 | A denominator of three lets the multiplier rise by more than a quarter. |
| Fee.SmallMultiplierFails | mrk-core/src/fee.rs:113-153 | So does a multiplier of three. |
| Fee.OverloadRaises | mrk-core/src/fee.rs:113-153 | Overload strictly raises a multiplier below the maximum. |
| Fee.SustainedOverload | mrk-core/src/fee.rs:113-153 | Epochs of overload raise the multiplier by at least one each until it is at the maximum, where it stays. |

## Left out

- Ledger transition rules other than the amounts and dates of traffic settlement: rewards, governance, consensus voting, fee unit tables. They would be a project of their own.
- Settlement's tests of members, signatures and who submits: they do not touch amounts or dates.
- SDK key agreement, recovery runner and shutdown order: the handshake is a flag per member, key agreement is foreign cryptography, and the code does not promise that a close implies two final receipts.
- The application pipe of the SDK: a record is any payload within the allowance; only `Crossing` keeps to the 64 KiB read chunk.
- Automatic abandoning of lost relay sessions and its daily budget: bookkeeping over a clock.
- Failure to deliver a frame, other than INCOMING during OPEN: every other send failure closes the connection.
- The hub's locks, threads and sockets: the hub is one object whose methods run one at a time.
- Update in place across the state tables of one transaction: each table operation is a loop on one table, and a transaction is a function of table values, so the order of writes between tables is not modelled. A failed transaction is discarded as a whole.
- JSON and the redb file format: rows are values.
- Account keys that contain a NUL character: a link is a pair.
- Account ranking snapshots, bootstrap checkpoint files and block paging: they would add only easy members.
- Scheduled parameter changes at an epoch boundary: the fee results are for one policy.
- Heights and counts beyond 64 bits: heights, block counts and link counts are unbounded.
- BitGroups.ConvertBits: digit widths are 1 to 8, which covers the two widths the code uses.
- Bech32m.BurstIsRefused: covers damage in the data part that creates no separator, since a new separator moves the human-readable part; for addresses Address.DamagedIsNoAddress needs neither.
- Following.FollowPublic: the peer's database does not change while it is followed.
- Following.FollowConsensus: the peer's database does not change while it is followed.
- HubRuns.HubRunsAreSessionRuns: the store knows of every tail the hub keeps, as it does unless its write fails unnoticed, and automatic abandoning does not run beside it.
- RelayHub.Hub.Open: the hub stays guarded if the chain answers with the window the authorization was created with, which no transition changes.
- Transactions.ActiveTransactionStores: a caller of the active view leaves the pruned prefix alone, as every caller does.
- HTTP upgrade, TLS, keystores, command line, admin socket: plumbing.
