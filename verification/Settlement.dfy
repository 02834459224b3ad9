/** Collecting receipts on chain: the time tests and the amount arithmetic of a
    traffic settlement, and exactly which receipts the Node accepted are paid. */
module Settlement {
  import opened MachineInts
  import opened RelayModel
  import opened NodeRelay
  import opened Exposure
  import opened Recovery
  import opened Reservation

  datatype Claim = Claim(authorization: Authorization, settledAmount: u128, refunded: bool, closed: bool) {
    function WithSettled(direction: Direction, settled: Settled): Claim {
      this.(authorization := if direction == SenderToReceiver then authorization.(forward := settled)
                             else authorization.(backward := settled))
    }
  }

  datatype Refusal = EmptyPrefix | NotClaimable | OutsideTime | NotNewer
                   | AmountOverflow | AmountMovedBackwards | ExceedsReservation

  /** The claim after a settlement, what it paid the Node and what it released to the Network Fund. */
  datatype Outcome = Paid(claim: Claim, amount: u128, released: u128) | Refused(reason: Refusal)

  /** A receipt with the checkpoint it binds, and when the ledger executes it. */
  datatype Item = Item(direction: Direction, prefix: Prefix, final: bool, checkpointAt: i64,
                       receivedAt: i64, executedAt: i64)

  predicate InTime(authorization: Authorization, item: Item) {
    && item.executedAt <= authorization.claimUntil && authorization.createdAt <= item.checkpointAt <= item.receivedAt
    && SatSubI64(item.receivedAt, item.checkpointAt) <= CLOCK_SLACK_SECONDS
    && item.receivedAt <= authorization.validUntil
  }

  predicate Newer(item: Item, previous: Settled) {
    && previous.sequence <= item.prefix.sequence && previous.bytes <= item.prefix.bytes && !previous.finalized
    && (item.final || item.prefix.sequence != previous.sequence || item.prefix.bytes != previous.bytes)
  }

  function Settle(claim: Claim, item: Item): Outcome {
    var authorization := claim.authorization;
    var previous := authorization.SettledIn(item.direction);
    var bytes := item.prefix.bytes;
    if !item.final && (item.prefix.sequence == 0 || bytes == 0) then Refused(EmptyPrefix)
    else if claim.refunded || authorization.reservedRemaining == 0 then Refused(NotClaimable)
    else if !InTime(authorization, item) then Refused(OutsideTime)
    else if !Newer(item, previous) then Refused(NotNewer)
    else
      var rounded := bytes * authorization.pricePerGib + (GIB - 1);
      if rounded > U128_MAX || rounded < 0 then Refused(AmountOverflow)
      else
        var owed := rounded / GIB;
        if owed < previous.amount then Refused(AmountMovedBackwards)
        else
          var amount := owed - previous.amount;
          if amount > authorization.reservedRemaining then Refused(ExceedsReservation)
          else if claim.settledAmount + amount > U128_MAX then Refused(AmountOverflow)
          else
            var settled := Settled(item.prefix.sequence, bytes, owed, Some(item.prefix.transcript), item.final);
            var reserved := authorization.reservedRemaining - amount;
            var paid := claim.(authorization := authorization.(reservedRemaining := reserved),
                               settledAmount := claim.settledAmount + amount).WithSettled(item.direction, settled);
            if paid.authorization.forward.finalized && paid.authorization.backward.finalized then
              Paid(paid.(authorization := paid.authorization.(reservedRemaining := 0),
                         closed := true), amount, reserved)
            else
              Paid(paid, amount, 0)
  }

  /** A refused settlement leaves the ledger as it was. */
  function SettleAll(claim: Claim, items: seq<Item>): Claim {
    if items == [] then claim
    else
      var before := SettleAll(claim, items[..|items| - 1]);
      var outcome := Settle(before, items[|items| - 1]);
      if outcome.Paid? then outcome.claim else before
  }

  /** What every settlement leaves behind: each direction has paid exactly the price of its settled prefix. */
  ghost predicate PaidToDate(claim: Claim) {
    && RelayPrice(claim.authorization.forward.bytes, claim.authorization.pricePerGib)
      == Some(claim.authorization.forward.amount)
    && RelayPrice(claim.authorization.backward.bytes, claim.authorization.pricePerGib)
      == Some(claim.authorization.backward.amount)
    && claim.settledAmount == claim.authorization.forward.amount + claim.authorization.backward.amount
    && (claim.closed <==> claim.authorization.forward.finalized && claim.authorization.backward.finalized)
  }

  /** A channel opened on a paid-to-date authorization starts covered: nothing is owed yet. */
  lemma PaidToDateStartsCovered(claim: Claim)
    requires PaidToDate(claim)
    ensures Affordable(claim.authorization, claim.authorization.forward.bytes, claim.authorization.backward.bytes)
    ensures Required(claim.authorization, claim.authorization.forward.bytes,
                     claim.authorization.backward.bytes) == Some(0)
  {
  }

  /** Rounding is the one place settlement and quoting are written differently; for a priced, nonempty
      prefix they agree, and otherwise both charge nothing. */
  lemma OwedIsPrice(bytes: u64, pricePerGib: u128)
    ensures var rounded := bytes * pricePerGib + (GIB - 1);
            RelayPrice(bytes, pricePerGib) == if 0 <= rounded <= U128_MAX then Some(rounded / GIB) else None
  {
  }

  lemma PriceIsSmall(bytes: u64, pricePerGib: u128)
    requires RelayPrice(bytes, pricePerGib).Some?
    ensures 2 * RelayPrice(bytes, pricePerGib).value <= U128_MAX
  {
  }

  lemma SettleConserves(claim: Claim, item: Item)
    requires PaidToDate(claim) && Settle(claim, item).Paid?
    ensures var outcome := Settle(claim, item);
            && PaidToDate(outcome.claim) && SameTerms(outcome.claim.authorization, claim.authorization)
            && outcome.claim.authorization.SettledIn(item.direction).bytes == item.prefix.bytes
            && outcome.claim.authorization.reservedRemaining + outcome.amount + outcome.released
               == claim.authorization.reservedRemaining
            && outcome.claim.settledAmount == claim.settledAmount + outcome.amount
  {
    OwedIsPrice(item.prefix.bytes, claim.authorization.pricePerGib);
  }

  /** The same authorization, whatever has been settled on it. */
  predicate SameTerms(a: Authorization, b: Authorization) {
    a == b.(reservedRemaining := a.reservedRemaining, forward := a.forward, backward := a.backward)
  }

  /** An item signs for no more than the Node counted in its direction. */
  predicate Within(item: Item, forwardBytes: u64, backwardBytes: u64) {
    item.prefix.bytes <= if item.direction == SenderToReceiver then forwardBytes else backwardBytes
  }

  /** Where a claim stands after settling any of the receipts of a run that counted these bytes. */
  ghost predicate OnTrack(start: Claim, claim: Claim, forwardBytes: u64, backwardBytes: u64) {
    && PaidToDate(claim)
    && !claim.refunded
    && SameTerms(claim.authorization, start.authorization)
    && claim.authorization.forward.bytes <= forwardBytes
    && claim.authorization.backward.bytes <= backwardBytes
    && (!claim.closed ==> claim.settledAmount + claim.authorization.reservedRemaining
                          == start.settledAmount + start.authorization.reservedRemaining)
  }

  /** The item's price is no lower than what its direction has paid, and the rest of the reservation covers the
      difference. */
  ghost predicate Funded(claim: Claim, item: Item) {
    var price := RelayPrice(item.prefix.bytes, claim.authorization.pricePerGib);
    var paid := claim.authorization.SettledIn(item.direction).amount;
    && price.Some? && paid <= price.value && price.value - paid <= claim.authorization.reservedRemaining
    && claim.settledAmount + (price.value - paid) <= U128_MAX
  }

  /** The arithmetic of one direction: `paid` and `other` add up to what is settled, and `price` with `other` to no
      more than everything ever reserved. */
  lemma Covers(price: nat, paid: nat, other: nat, settled: nat, reserved: nat, total: nat)
    requires paid + other == settled && settled + reserved == total && price + other <= total
    ensures price - paid <= reserved && settled + (price - paid) == price + other
  {
  }

  lemma ForwardFunded(start: Claim, claim: Claim, item: Item, forwardBytes: u64, backwardBytes: u64)
    requires PaidToDate(start) && Affordable(start.authorization, forwardBytes, backwardBytes)
    requires OnTrack(start, claim, forwardBytes, backwardBytes) && !claim.closed && item.direction == SenderToReceiver
    requires claim.authorization.forward.bytes <= item.prefix.bytes <= forwardBytes
    ensures Funded(claim, item)
  {
    var a := claim.authorization;
    AffordableMonotone(start.authorization, item.prefix.bytes, a.backward.bytes, forwardBytes, backwardBytes);
    PriceMonotone(a.forward.bytes, item.prefix.bytes, a.pricePerGib);
    var price := RelayPrice(item.prefix.bytes, a.pricePerGib).value;
    PriceIsSmall(item.prefix.bytes, a.pricePerGib);
    PriceIsSmall(a.backward.bytes, a.pricePerGib);
    Covers(price, a.forward.amount, a.backward.amount, claim.settledAmount, a.reservedRemaining,
           start.settledAmount + start.authorization.reservedRemaining);
  }

  lemma BackwardFunded(start: Claim, claim: Claim, item: Item, forwardBytes: u64, backwardBytes: u64)
    requires PaidToDate(start) && Affordable(start.authorization, forwardBytes, backwardBytes)
    requires OnTrack(start, claim, forwardBytes, backwardBytes) && !claim.closed && item.direction == ReceiverToSender
    requires claim.authorization.backward.bytes <= item.prefix.bytes <= backwardBytes
    ensures Funded(claim, item)
  {
    var a := claim.authorization;
    AffordableMonotone(start.authorization, a.forward.bytes, item.prefix.bytes, forwardBytes, backwardBytes);
    PriceMonotone(a.backward.bytes, item.prefix.bytes, a.pricePerGib);
    var price := RelayPrice(item.prefix.bytes, a.pricePerGib).value;
    PriceIsSmall(item.prefix.bytes, a.pricePerGib);
    PriceIsSmall(a.forward.bytes, a.pricePerGib);
    Covers(price, a.backward.amount, a.forward.amount, claim.settledAmount, a.reservedRemaining,
           start.settledAmount + start.authorization.reservedRemaining);
  }

  /** What a caller can check before submitting: the item is final or not empty, something is still reserved, the dates
      hold, and the prefix is news to the ledger. */
  predicate Collectable(claim: Claim, item: Item) {
    && (item.final || (item.prefix.sequence != 0 && item.prefix.bytes != 0))
    && !claim.refunded && claim.authorization.reservedRemaining != 0
    && InTime(claim.authorization, item) && Newer(item, claim.authorization.SettledIn(item.direction))
  }

  lemma FundedIsPaid(claim: Claim, item: Item)
    requires Collectable(claim, item) && Funded(claim, item)
    ensures Settle(claim, item).Paid?
  {
    OwedIsPrice(item.prefix.bytes, claim.authorization.pricePerGib);
  }

  lemma CollectableIsPaid(start: Claim, claim: Claim, item: Item, forwardBytes: u64, backwardBytes: u64)
    requires PaidToDate(start) && Affordable(start.authorization, forwardBytes, backwardBytes)
    requires OnTrack(start, claim, forwardBytes, backwardBytes) && Within(item, forwardBytes, backwardBytes)
    requires Collectable(claim, item)
    ensures Settle(claim, item).Paid?
  {
    if item.direction == SenderToReceiver {
      ForwardFunded(start, claim, item, forwardBytes, backwardBytes);
    } else {
      BackwardFunded(start, claim, item, forwardBytes, backwardBytes);
    }
    FundedIsPaid(claim, item);
  }

  lemma PaidStaysOnTrack(start: Claim, claim: Claim, item: Item, forwardBytes: u64, backwardBytes: u64)
    requires OnTrack(start, claim, forwardBytes, backwardBytes) && Within(item, forwardBytes, backwardBytes)
    requires Settle(claim, item).Paid?
    ensures OnTrack(start, Settle(claim, item).claim, forwardBytes, backwardBytes)
  {
    SettleConserves(claim, item);
  }

  lemma UncollectableIsRefused(claim: Claim, item: Item)
    requires !Collectable(claim, item)
    ensures Settle(claim, item).Refused?
    ensures Settle(claim, item).reason in {EmptyPrefix, NotClaimable, OutsideTime, NotNewer}
  {
  }

  /** A reservation that is used up has been paid out for prefixes at least as expensive. */
  lemma UsedUp(start: Claim, claim: Claim, item: Item, forwardBytes: u64, backwardBytes: u64)
    requires PaidToDate(start) && Affordable(start.authorization, forwardBytes, backwardBytes)
    requires OnTrack(start, claim, forwardBytes, backwardBytes) && Within(item, forwardBytes, backwardBytes)
    requires claim.authorization.reservedRemaining == 0 && !claim.closed
    requires claim.authorization.SettledIn(item.direction).bytes <= item.prefix.bytes
    ensures RelayPrice(item.prefix.bytes, claim.authorization.pricePerGib)
            == Some(claim.authorization.SettledIn(item.direction).amount)
  {
    if item.direction == SenderToReceiver {
      ForwardFunded(start, claim, item, forwardBytes, backwardBytes);
    } else {
      BackwardFunded(start, claim, item, forwardBytes, backwardBytes);
    }
  }

  /** Settling one receipt within the counted bytes: it is paid exactly when it is collectable, so never refused for
      the size of the reservation, and the claim stays on track. */
  lemma NextItem(start: Claim, claim: Claim, item: Item, forwardBytes: u64, backwardBytes: u64)
    requires PaidToDate(start) && Affordable(start.authorization, forwardBytes, backwardBytes)
    requires OnTrack(start, claim, forwardBytes, backwardBytes) && Within(item, forwardBytes, backwardBytes)
    ensures var outcome := Settle(claim, item);
            && (outcome.Paid? <==> Collectable(claim, item))
            && (outcome.Paid? ==> OnTrack(start, outcome.claim, forwardBytes, backwardBytes))
            && (outcome.Refused? ==> outcome.reason in {EmptyPrefix, NotClaimable, OutsideTime, NotNewer})
  {
    if Collectable(claim, item) {
      CollectableIsPaid(start, claim, item, forwardBytes, backwardBytes);
      PaidStaysOnTrack(start, claim, item, forwardBytes, backwardBytes);
    } else {
      UncollectableIsRefused(claim, item);
    }
  }

  /** Settle, in any order and with any repetitions, any items that sign for at most the bytes the Node counted: each
      is paid exactly when it is collectable. None is refused because the reservation is too small, and
      prefix-by-prefix payments add up to one price. */
  lemma {:induction false} AcceptedReceiptsCollect(start: Claim, forwardBytes: u64, backwardBytes: u64,
                                                   items: seq<Item>, next: Item)
    requires PaidToDate(start) && !start.refunded
    requires start.authorization.forward.bytes <= forwardBytes && start.authorization.backward.bytes <= backwardBytes
    requires Affordable(start.authorization, forwardBytes, backwardBytes)
    requires forall i :: 0 <= i < |items| ==> Within(items[i], forwardBytes, backwardBytes)
    requires Within(next, forwardBytes, backwardBytes)
    ensures var claim := SettleAll(start, items);
            var outcome := Settle(claim, next);
            && OnTrack(start, claim, forwardBytes, backwardBytes)
            && (outcome.Paid? <==> Collectable(claim, next))
            && (outcome.Refused? ==> outcome.reason in {EmptyPrefix, NotClaimable, OutsideTime, NotNewer})
  {
    if items != [] {
      var last := |items| - 1;
      AcceptedReceiptsCollect(start, forwardBytes, backwardBytes, items[..last], items[last]);
      NextItem(start, SettleAll(start, items[..last]), items[last], forwardBytes, backwardBytes);
    }
    NextItem(start, SettleAll(start, items), next, forwardBytes, backwardBytes);
  }

  // ---- What the Node has already checked ----

  function ItemOf(taken: Taken, executedAt: i64): Item {
    var body := taken.receipt.body;
    Item(taken.direction, body.prefix, body.checkpointDigest.body.final, body.checkpointDigest.body.checkpointAt,
         body.receivedAt, executedAt)
  }

  /** A checkpoint that waits for its receipt was signed after the authorization was created. */
  ghost predicate PendingDated(route: Route, direction: Direction) {
    var pending := route.Side(direction).pendingCheckpoint;
    route.authorization.Some? && pending.Some? ==>
      route.authorization.value.authorization.createdAt <= pending.value.body.checkpointAt
  }

  ghost predicate PendingKept(before: Route, after: Route, direction: Direction) {
    && after.authorization == before.authorization && after.recovery == before.recovery
    && after.Side(direction).pendingCheckpoint in {None, before.Side(direction).pendingCheckpoint}
  }

  lemma DataPending(route: Route, event: RouteEvent, direction: Direction)
    requires event.DataArrives? && event.Legal()
    ensures PendingKept(route, Step(route, event), direction)
  {
  }

  lemma IntentPending(route: Route, event: RouteEvent, direction: Direction)
    requires event.CloseIntentArrives?
    ensures PendingKept(route, Step(route, event), direction)
  {
  }

  lemma ReceiptPending(route: Route, event: RouteEvent, direction: Direction)
    requires event.ReceiptArrives?
    ensures PendingKept(route, Step(route, event), direction)
  {
  }

  lemma CheckpointPending(route: Route, event: RouteEvent, direction: Direction)
    requires event.CheckpointArrives? && PendingDated(route, direction)
    ensures PendingDated(Step(route, event), direction) && Step(route, event).recovery == route.recovery
  {
  }

  lemma StepPendingDated(route: Route, event: RouteEvent, direction: Direction)
    requires PendingDated(route, direction) && event.Legal()
    ensures PendingDated(Step(route, event), direction) && Step(route, event).recovery == route.recovery
  {
    match event
    case DataArrives(_, _, _, _) => DataPending(route, event, direction);
    case TimerTicks(_, _) =>
    case CloseIntentArrives(_, _, _, _) => IntentPending(route, event, direction);
    case CheckpointArrives(_, _, _, _) => CheckpointPending(route, event, direction);
    case ReceiptArrives(_, _, _) => ReceiptPending(route, event, direction);
    case ChannelAccepted(_) =>
  }

  /** The dates the Node has seen to on a receipt it accepted. Only on a recovery channel can it be dated after
      `validUntil`, and then it is dated no later than `claimUntil`. */
  ghost predicate NodeDated(authorization: Authorization, recovery: bool, taken: Taken) {
    var body := taken.receipt.body;
    var at := body.checkpointDigest.body.checkpointAt;
    && authorization.createdAt <= at <= body.receivedAt && SatSubI64(body.receivedAt, at) <= CLOCK_SLACK_SECONDS
    && body.receivedAt <= if recovery then authorization.claimUntil else authorization.validUntil
  }

  lemma AcceptedIsDated(route: Route, event: RouteEvent)
    requires route.authorization.Some? && ReceiptAccepted(route, event) && PendingDated(route, event.direction)
    ensures NodeDated(route.authorization.value.authorization, route.recovery, Taken(event.direction, event.receipt))
  {
  }

  lemma {:induction false} RunDated(route: Route, events: seq<RouteEvent>)
    requires route.authorization.Some? && Safe(route) && AllLegal(events)
    requires PendingDated(route, SenderToReceiver) && PendingDated(route, ReceiverToSender)
    ensures var end := Run(route, events);
            && end.authorization == route.authorization && end.recovery == route.recovery
            && PendingDated(end, SenderToReceiver) && PendingDated(end, ReceiverToSender)
    ensures forall i :: 0 <= i < |AcceptedReceipts(route, events)| ==>
              NodeDated(route.authorization.value.authorization, route.recovery, AcceptedReceipts(route, events)[i])
  {
    if events != [] {
      var last := |events| - 1;
      var before := Run(route, events[..last]);
      RunDated(route, events[..last]);
      TwoWindowExposure(route, events);
      StepPendingDated(before, events[last], SenderToReceiver);
      StepPendingDated(before, events[last], ReceiverToSender);
      if ReceiptAccepted(before, events[last]) {
        AcceptedIsDated(before, events[last]);
      }
    }
  }

  /** On such a receipt the ledger's time test comes down to two dates. */
  lemma NodeDatedSettles(authorization: Authorization, terms: Authorization, recovery: bool,
                         taken: Taken, executedAt: i64)
    requires NodeDated(authorization, recovery, taken) && SameTerms(terms, authorization)
    ensures InTime(terms, ItemOf(taken, executedAt))
            <==> executedAt <= authorization.claimUntil && taken.receipt.body.receivedAt <= authorization.validUntil
    ensures !recovery ==> taken.receipt.body.receivedAt <= authorization.validUntil
  {
  }

  /** A channel as it starts out on a claim: opened afresh, or recovering what was counted before. */
  ghost predicate StartsOn(start: Claim, route: Route) {
    && PaidToDate(start) && !start.refunded
    && route.authorization.Some? && route.authorization.value.authorization == start.authorization
    && Safe(route) && Covered(route)
    && route.forward.pendingCheckpoint.None? && route.backward.pendingCheckpoint.None?
    && start.authorization.forward.bytes <= route.forward.prefix.bytes
    && start.authorization.backward.bytes <= route.backward.prefix.bytes
  }

  lemma OpenedStartsOn(start: Claim, route: Route)
    requires PaidToDate(start) && !start.refunded
    requires route.authorization.Some? && route.authorization.value.authorization == start.authorization
    requires !route.recovery
    requires route.forward == OpenDirection(route.authorization.value, SenderToReceiver)
    requires route.backward == OpenDirection(route.authorization.value, ReceiverToSender)
    ensures StartsOn(start, route)
  {
    OpenedRouteSafe(route, route.authorization.value);
    PaidToDateStartsCovered(start);
  }

  /** What a reservation covered at the start it still covers after any settlements, while the claim is open. */
  lemma StillAffordable(start: Claim, claim: Claim, forwardBytes: u64, backwardBytes: u64)
    requires PaidToDate(start) && OnTrack(start, claim, forwardBytes, backwardBytes) && !claim.closed
    requires Affordable(start.authorization, forwardBytes, backwardBytes)
    ensures Affordable(claim.authorization, forwardBytes, backwardBytes)
  {
    var a := claim.authorization;
    AffordableMonotone(start.authorization, forwardBytes, backwardBytes, forwardBytes, backwardBytes);
    PriceMonotone(a.forward.bytes, forwardBytes, a.pricePerGib);
    PriceMonotone(a.backward.bytes, backwardBytes, a.pricePerGib);
    PriceIsSmall(forwardBytes, a.pricePerGib);
    PriceIsSmall(backwardBytes, a.pricePerGib);
  }

  lemma KeptIsSafe(route: Route, view: View, source: u64, destination: u64)
    requires Safe(route) && route.authorization.Some?
    requires view.authorization.windowBytes == route.authorization.value.authorization.windowBytes
    ensures var kept := Interrupted(ResetForRecovery(route.forward), ResetForRecovery(route.backward));
            Safe(RecoveryRoute(kept, view, source, destination))
  {
  }

  /** A channel interrupted anywhere and recovered on the claim as it has been settled meanwhile. */
  lemma RecoveredStartsOn(start: Claim, route: Route, claim: Claim, view: View, source: u64, destination: u64)
    requires PaidToDate(start) && Safe(route) && Covered(route)
    requires route.authorization.Some? && route.authorization.value.authorization == start.authorization
    requires OnTrack(start, claim, route.forward.prefix.bytes, route.backward.prefix.bytes) && !claim.closed
    requires view.authorization == claim.authorization
    ensures var kept := Interrupted(ResetForRecovery(route.forward), ResetForRecovery(route.backward));
            StartsOn(claim, RecoveryRoute(kept, view, source, destination))
  {
    KeptIsSafe(route, view, source, destination);
    StillAffordable(start, claim, route.forward.prefix.bytes, route.backward.prefix.bytes);
  }

  /** The two halves together: run a channel any way at all, opened or recovered, and settle any of the receipts the
      Node accepted. The ledger's reservation test is never what turns one away, and its dates turn one away exactly
      when it is executed after `claimUntil` or was received after `validUntil`, the latter only in recovery. */
  lemma NodeReceiptsCollect(start: Claim, route: Route, events: seq<RouteEvent>, items: seq<Item>,
                            taken: Taken, executedAt: i64)
    requires StartsOn(start, route) && AllLegal(events)
    requires forall i :: 0 <= i < |items| ==>
               exists k :: 0 <= k < |AcceptedReceipts(route, events)|
                           && items[i] == ItemOf(AcceptedReceipts(route, events)[k], items[i].executedAt)
    requires taken in AcceptedReceipts(route, events)
    ensures var claim, item := SettleAll(start, items), ItemOf(taken, executedAt);
            var outcome := Settle(claim, item);
            && OnTrack(start, claim, Run(route, events).forward.prefix.bytes, Run(route, events).backward.prefix.bytes)
            && (outcome.Paid? <==> Collectable(claim, item))
            && (outcome.Refused? ==> outcome.reason in {EmptyPrefix, NotClaimable, OutsideTime, NotNewer})
            && (InTime(claim.authorization, item)
                <==> executedAt <= start.authorization.claimUntil && item.receivedAt <= start.authorization.validUntil)
            && (!route.recovery ==> item.receivedAt <= start.authorization.validUntil)
  {
    RunCovered(route, events);
    RunCounts(route, events);
    RunDated(route, events);
    var end := Run(route, events);
    var f, b := end.forward.prefix.bytes, end.backward.prefix.bytes;
    var t :| 0 <= t < |AcceptedReceipts(route, events)| && AcceptedReceipts(route, events)[t] == taken;
    assert WithinCounted(end, taken);
    forall i | 0 <= i < |items|
      ensures Within(items[i], f, b)
    {
      var k :| 0 <= k < |AcceptedReceipts(route, events)|
        && items[i] == ItemOf(AcceptedReceipts(route, events)[k], items[i].executedAt);
      assert WithinCounted(end, AcceptedReceipts(route, events)[k]);
    }
    AcceptedReceiptsCollect(start, f, b, items, ItemOf(taken, executedAt));
    NodeDatedSettles(start.authorization, SettleAll(start, items).authorization, route.recovery, taken, executedAt);
  }
}
