/** The Node admits DATA only while the reservation can pay for it. That one
    test is what makes every receipt it later collects collectable on chain. */
module Reservation {
  import opened MachineInts
  import opened RelayModel
  import opened NodeRelay
  import opened Exposure
  import opened Recovery

  // ---- Ceiling prices ----

  lemma ProductMonotone(a: u64, b: u64, pricePerGib: u128)
    requires a <= b
    ensures 0 <= a * pricePerGib <= b * pricePerGib
  {
  }

  lemma PriceMonotone(a: u64, b: u64, pricePerGib: u128)
    requires a <= b && RelayPrice(b, pricePerGib).Some?
    ensures RelayPrice(a, pricePerGib).Some?
    ensures RelayPrice(a, pricePerGib).value <= RelayPrice(b, pricePerGib).value
  {
    ProductMonotone(a, b, pricePerGib);
  }

  /** The price is the least whole amount not below the exact proportional price. */
  lemma PriceIsCeiling(bytes: u64, pricePerGib: u128)
    requires RelayPrice(bytes, pricePerGib).Some?
    ensures var price := RelayPrice(bytes, pricePerGib).value;
            bytes * pricePerGib <= price * GIB < bytes * pricePerGib + GIB
  {
  }

  // ---- Coverage over a run of one channel ----

  ghost predicate Covered(route: Route) {
    route.authorization.Some? ==>
      Affordable(route.authorization.value.authorization, route.forward.prefix.bytes, route.backward.prefix.bytes)
  }

  ghost predicate NoFewerBytes(before: Route, after: Route) {
    && after.authorization == before.authorization
    && before.forward.prefix.bytes <= after.forward.prefix.bytes
    && before.backward.prefix.bytes <= after.backward.prefix.bytes
  }

  lemma DataCovered(route: Route, direction: Direction, sequence: u64, payload: seq<byte>, now: i64)
    requires |payload| <= MAX_FRAME_PAYLOAD && AcceptData(route, direction, sequence, payload, now).Ok?
    ensures Covered(AcceptData(route, direction, sequence, payload, now).value.route)
    ensures NoFewerBytes(route, AcceptData(route, direction, sequence, payload, now).value.route)
  {
  }

  /** Only an accepted DATA frame counts bytes. */
  lemma StepCounts(route: Route, event: RouteEvent)
    requires event.Legal() && !event.DataArrives?
    ensures NoFewerBytes(route, Step(route, event)) && NoFewerBytes(Step(route, event), route)
  {
    match event
    case TimerTicks(_, _) =>
    case CloseIntentArrives(_, _, _, _) =>
    case CheckpointArrives(_, _, _, _) =>
    case ReceiptArrives(_, _, _) =>
    case ChannelAccepted(_) =>
  }

  lemma StepCovered(route: Route, event: RouteEvent)
    requires Covered(route) && event.Legal()
    ensures Covered(Step(route, event)) && NoFewerBytes(route, Step(route, event))
  {
    if !event.DataArrives? {
      StepCounts(route, event);
    } else if AcceptData(route, event.direction, event.sequence, event.payload, event.now).Ok? {
      DataCovered(route, event.direction, event.sequence, event.payload, event.now);
    }
  }

  lemma AffordableMonotone(authorization: Authorization, f: u64, b: u64, forwardBytes: u64, backwardBytes: u64)
    requires f <= forwardBytes && b <= backwardBytes
    requires Affordable(authorization, forwardBytes, backwardBytes)
    ensures Affordable(authorization, f, b)
    ensures RelayPrice(f, authorization.pricePerGib).Some? && RelayPrice(b, authorization.pricePerGib).Some?
    ensures RelayPrice(f, authorization.pricePerGib).value + RelayPrice(b, authorization.pricePerGib).value
            <= authorization.forward.amount + authorization.backward.amount + authorization.reservedRemaining
  {
    PriceMonotone(f, forwardBytes, authorization.pricePerGib);
    PriceMonotone(b, backwardBytes, authorization.pricePerGib);
  }

  datatype Taken = Taken(direction: Direction, receipt: ReceiverReceipt)

  /** The receipts a run accepts, in order, and the direction each is for. */
  function AcceptedReceipts(route: Route, events: seq<RouteEvent>): seq<Taken>
    requires AllLegal(events)
  {
    if events == [] then []
    else
      var last := |events| - 1;
      var earlier := AcceptedReceipts(route, events[..last]);
      if ReceiptAccepted(Run(route, events[..last]), events[last])
      then earlier + [Taken(events[last].direction, events[last].receipt)]
      else earlier
  }

  function CountedIn(route: Route, direction: Direction): u64 {
    route.Side(direction).prefix.bytes
  }

  predicate WithinCounted(route: Route, taken: Taken) {
    taken.receipt.body.prefix.bytes <= CountedIn(route, taken.direction)
  }

  lemma ReceiptWithinCounted(route: Route, event: RouteEvent)
    requires Safe(route) && ReceiptAccepted(route, event)
    ensures event.receipt.body.prefix.bytes <= CountedIn(route, event.direction)
  {
  }

  lemma {:induction false} RunCovered(route: Route, events: seq<RouteEvent>)
    requires Safe(route) && Covered(route) && AllLegal(events)
    ensures Covered(Run(route, events)) && Run(route, events).authorization == route.authorization
    ensures forall i :: 0 <= i < |AcceptedReceipts(route, events)| ==>
              WithinCounted(Run(route, events), AcceptedReceipts(route, events)[i])
  {
    if events != [] {
      var last := |events| - 1;
      var before := Run(route, events[..last]);
      RunCovered(route, events[..last]);
      TwoWindowExposure(route, events[..last]);
      StepCovered(before, events[last]);
      if ReceiptAccepted(before, events[last]) {
        ReceiptWithinCounted(before, events[last]);
      }
    }
  }

  lemma {:induction false} RunCounts(route: Route, events: seq<RouteEvent>)
    requires Safe(route) && Covered(route) && AllLegal(events)
    ensures NoFewerBytes(route, Run(route, events))
  {
    if events != [] {
      var last := |events| - 1;
      RunCounts(route, events[..last]);
      RunCovered(route, events[..last]);
      StepCovered(Run(route, events[..last]), events[last]);
    }
  }

  /** Reservation coverage: whichever receipts a run accepted for the two directions, and whenever it accepted
      them, their prices together stay within what was already paid plus what is still reserved. */
  lemma ReservationCoverage(route: Route, events: seq<RouteEvent>, i: nat, j: nat)
    requires Safe(route) && Covered(route) && AllLegal(events) && route.authorization.Some?
    requires i < |AcceptedReceipts(route, events)| && AcceptedReceipts(route, events)[i].direction == SenderToReceiver
    requires j < |AcceptedReceipts(route, events)| && AcceptedReceipts(route, events)[j].direction == ReceiverToSender
    ensures var authorization := route.authorization.value.authorization;
            var forward := RelayPrice(AcceptedReceipts(route, events)[i].receipt.body.prefix.bytes,
                                      authorization.pricePerGib);
            var backward := RelayPrice(AcceptedReceipts(route, events)[j].receipt.body.prefix.bytes,
                                       authorization.pricePerGib);
            && forward.Some? && backward.Some?
            && forward.value + backward.value
               <= authorization.forward.amount + authorization.backward.amount + authorization.reservedRemaining
  {
    RunCovered(route, events);
    var end := Run(route, events);
    AffordableMonotone(route.authorization.value.authorization,
                       AcceptedReceipts(route, events)[i].receipt.body.prefix.bytes,
                       AcceptedReceipts(route, events)[j].receipt.body.prefix.bytes,
                       end.forward.prefix.bytes, end.backward.prefix.bytes);
  }
}
