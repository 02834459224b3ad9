/** Operation fees: the quote, the cap a signer attaches, and the multiplier's
    move at the end of an epoch. How many fee units an operation has is a
    parameter. */
module Fee {
  import opened Arithmetic
  import opened MachineInts

  const FEE_MULTIPLIER_BPS := 10_000
  const FEE_CHANGE_BUFFER_BPS := 12_500

  datatype Policy = Policy(version: u64, baseFee: u128, minMultiplier: u32, maxMultiplier: u32,
                           target: u64, denominator: u32)

  datatype FeeError = FeeOverflow | CapOverflow | BadPolicyVersion | CapTooLow

  datatype Quote = Quote(policyVersion: u64, units: u64, fee: nat, recommendedMax: nat)

  /** Division rounded up. */
  function CeilDiv(a: nat, d: nat): nat
    requires d > 0
  {
    (a + d - 1) / d
  }

  function Product(a: nat, b: nat): nat {
    a * b
  }

  /** The fee, unless an intermediate value leaves 128 bits. */
  function FeeFor(policy: Policy, multiplier: u32, units: u64): Option<nat> {
    var perMultiplier := Product(policy.baseFee, units);
    if units == 0 then Some(0)
    else if perMultiplier > U128_MAX || Product(perMultiplier, multiplier) + FEE_MULTIPLIER_BPS - 1 > U128_MAX then None
    else Some(CeilDiv(Product(perMultiplier, multiplier), FEE_MULTIPLIER_BPS))
  }

  function QuoteFor(policy: Policy, multiplier: u32, units: u64): Result<Quote, FeeError> {
    match FeeFor(policy, multiplier, units)
    case None => Err(FeeOverflow)
    case Some(fee) =>
      if fee * FEE_CHANGE_BUFFER_BPS + 9_999 > U128_MAX then Err(CapOverflow)
      else Ok(Quote(policy.version, units, fee, CeilDiv(fee * FEE_CHANGE_BUFFER_BPS, 10_000)))
  }

  function ValidateEnvelope(policy: Policy, multiplier: u32, units: u64, signedVersion: u64,
                            cap: nat): Result<Quote, FeeError> {
    match QuoteFor(policy, multiplier, units)
    case Err(e) => Err(e)
    case Ok(quote) =>
      if quote.fee == 0 then Ok(quote)
      else if signedVersion == 0 || signedVersion > policy.version then Err(BadPolicyVersion)
      else if cap < quote.fee then Err(CapTooLow)
      else Ok(quote)
  }

  function Min(a: int, b: int): int {
    if a < b then a else b
  }

  function Clamp(x: int, low: int, high: int): int {
    if x < low then low else if x > high then high else x
  }

  function Quotient(a: nat, d: nat): nat
    requires d > 0
  {
    a / d
  }

  /** The step for a pressure; a zero denominator gives none. */
  function Change(policy: Policy, current: u32, pressure: nat): nat
    requires policy.target > 0
  {
    if policy.denominator == 0 then 0
    else Quotient(Quotient(Product(current, pressure), policy.target), policy.denominator)
  }

  /** Rust's clamp demands ordered bounds. */
  function NextMultiplier(policy: Policy, current: u32, used: u64): (next: u32)
    requires policy.minMultiplier <= policy.maxMultiplier
    ensures policy.target > 0 ==> policy.minMultiplier <= next <= policy.maxMultiplier
  {
    if policy.target == 0 then current
    else Clamp(Moved(policy, current, used), policy.minMultiplier, policy.maxMultiplier)
  }

  function Moved(policy: Policy, current: u32, used: u64): int
    requires policy.target > 0
  {
    if used > policy.target then
      var change := Change(policy, current, Min(used - policy.target, policy.target));
      current + (if change < 1 then 1 else change)
    else if used < policy.target then
      var change := Change(policy, current, Min(policy.target - used, policy.target));
      if change > current then 0 else current - change
    else current
  }

  // ---- Monotone in usage ----

  lemma QuotientGrows(a: nat, b: nat, d: nat)
    requires a <= b && d > 0
    ensures a / d <= b / d
  {
    if a / d > b / d {
      var x, y := a / d, b / d;
      assert a == x * d + a % d && b == y * d + b % d;
      NextMultiple(y, x, d);
    }
  }

  lemma ProductGrows(c: nat, a: nat, b: nat)
    requires a <= b
    ensures c * a <= c * b
  {
  }

  lemma ChangeGrows(policy: Policy, current: u32, p: nat, q: nat)
    requires policy.target > 0 && p <= q
    ensures Change(policy, current, p) <= Change(policy, current, q)
  {
    if policy.denominator > 0 {
      ProductGrows(current, p, q);
      QuotientGrows(Product(current, p), Product(current, q), policy.target);
      QuotientGrows(Quotient(Product(current, p), policy.target),
                    Quotient(Product(current, q), policy.target), policy.denominator);
    }
  }

  /** More usage never leads to a lower multiplier. */
  lemma MonotoneInUsage(policy: Policy, current: u32, less: u64, more: u64)
    requires policy.minMultiplier <= policy.maxMultiplier && less <= more
    ensures NextMultiplier(policy, current, less) <= NextMultiplier(policy, current, more)
  {
    if policy.target > 0 {
      MovedGrows(policy, current, less, more);
    }
  }

  lemma MovedGrows(policy: Policy, current: u32, less: u64, more: u64)
    requires policy.target > 0 && less <= more
    ensures Moved(policy, current, less) <= Moved(policy, current, more)
  {
    var t := policy.target;
    if less > t {
      ChangeGrows(policy, current, Min(less - t, t), Min(more - t, t));
    } else if more < t {
      ChangeGrows(policy, current, Min(t - more, t), Min(t - less, t));
    }
  }

  // ---- The cap across one epoch ----

  /** The multiplier after an epoch of the greatest usage. */
  function Worst(policy: Policy, current: u32): u32
    requires policy.minMultiplier <= policy.maxMultiplier
  {
    NextMultiplier(policy, current, U64_MAX)
  }

  lemma CeilBound(a: nat, d: nat, bound: nat)
    requires d > 0
    ensures CeilDiv(a, d) <= bound <==> a <= bound * d
    ensures CeilDiv(a, d) * d >= a
  {
    var c := CeilDiv(a, d);
    assert a + d - 1 == c * d + (a + d - 1) % d;
    if c <= bound {
      ProductGrows(d, c, bound);
    } else {
      NextMultiple(bound, c, d);
    }
  }

  lemma QuoteIs(policy: Policy, multiplier: u32, units: u64)
    requires QuoteFor(policy, multiplier, units).Ok? && units > 0
    ensures QuoteFor(policy, multiplier, units).value.fee
            == CeilDiv(Product(Product(policy.baseFee, units), multiplier), FEE_MULTIPLIER_BPS)
    ensures QuoteFor(policy, multiplier, units).value.recommendedMax
            == CeilDiv(QuoteFor(policy, multiplier, units).value.fee * FEE_CHANGE_BUFFER_BPS, 10_000)
  {
  }

  /** A cap quoted at one multiplier covers the fee at another, if the other is at most a quarter more. */
  lemma CapCovers(x: nat, quoted: nat, later: nat)
    requires 4 * later <= 5 * quoted
    ensures CeilDiv(x * later, 10_000) <= CeilDiv(CeilDiv(x * quoted, 10_000) * 12_500, 10_000)
  {
    var fee := CeilDiv(x * quoted, 10_000);
    var cap := CeilDiv(fee * 12_500, 10_000);
    CeilBound(x * quoted, 10_000, fee);
    CeilBound(fee * 12_500, 10_000, cap);
    ProductGrows(x, 4 * later, 5 * quoted);
    Scaled(x, later, quoted);
    CeilBound(x * later, 10_000, cap);
  }

  lemma Scaled(x: nat, later: nat, quoted: nat)
    ensures x * (4 * later) == 4 * (x * later) && x * (5 * quoted) == 5 * (x * quoted)
  {
  }

  /** Signed with the recommended cap, an operation still passes after one epoch
      of any usage, when the multiplier cannot rise by more than a quarter. */
  lemma CapSurvives(policy: Policy, current: u32, units: u64, used: u64)
    requires policy.minMultiplier <= policy.maxMultiplier && policy.version > 0
    requires 4 * Worst(policy, current) <= 5 * current
    requires QuoteFor(policy, current, units).Ok? && QuoteFor(policy, NextMultiplier(policy, current, used), units).Ok?
    ensures ValidateEnvelope(policy, NextMultiplier(policy, current, used), units, policy.version,
                             QuoteFor(policy, current, units).value.recommendedMax).Ok?
  {
    if units > 0 {
      var next := NextMultiplier(policy, current, used);
      MonotoneInUsage(policy, current, used, U64_MAX);
      QuoteIs(policy, current, units);
      QuoteIs(policy, next, units);
      CapCovers(Product(policy.baseFee, units), current, next);
    }
  }

  lemma FlatQuote(policy: Policy, multiplier: u32)
    requires policy.baseFee == 40_000
    ensures QuoteFor(policy, multiplier, 1) == Ok(Quote(policy.version, 1, 4 * multiplier, 5 * multiplier))
  {
  }

  lemma BaseFeeIsIrrelevant(policy: Policy, baseFee: u128, current: u32, used: u64)
    requires policy.minMultiplier <= policy.maxMultiplier
    ensures NextMultiplier(policy.(baseFee := baseFee), current, used) == NextMultiplier(policy, current, used)
  {
  }

  /** When it can, the cap of some operation fails under some base fee. */
  lemma CapFails(policy: Policy, current: u32) returns (priced: Policy, units: u64, used: u64)
    requires policy.minMultiplier <= policy.maxMultiplier && policy.version > 0
    requires 4 * Worst(policy, current) > 5 * current
    ensures priced == policy.(baseFee := priced.baseFee) && QuoteFor(priced, current, units).Ok?
    ensures QuoteFor(priced, NextMultiplier(priced, current, used), units).Ok?
    ensures ValidateEnvelope(priced, NextMultiplier(priced, current, used), units, policy.version,
                             QuoteFor(priced, current, units).value.recommendedMax) == Err(CapTooLow)
  {
    priced, units, used := policy.(baseFee := 40_000), 1, U64_MAX;
    BaseFeeIsIrrelevant(policy, 40_000, current, used);
    FlatQuote(priced, current);
    FlatQuote(priced, Worst(policy, current));
  }

  /** An operation of this size, signed with the recommended cap, passes after an epoch of this usage, unless one of
      its two quotes overflows. */
  ghost predicate CapHolds(policy: Policy, current: u32, units: u64, used: u64)
    requires policy.minMultiplier <= policy.maxMultiplier
  {
    var next := NextMultiplier(policy, current, used);
    QuoteFor(policy, current, units).Ok? && QuoteFor(policy, next, units).Ok? ==>
      ValidateEnvelope(policy, next, units, policy.version, QuoteFor(policy, current, units).value.recommendedMax).Ok?
  }

  /** The recommended cap holds for every operation, every usage and every base fee if and only if the multiplier cannot
      rise by more than a quarter in one epoch. */
  lemma CapHoldsExactly(policy: Policy, current: u32)
    requires policy.minMultiplier <= policy.maxMultiplier && policy.version > 0
    ensures 4 * Worst(policy, current) <= 5 * current
            <==> forall baseFee: u128, units: u64, used: u64 ::
                   CapHolds(policy.(baseFee := baseFee), current, units, used)
  {
    if 4 * Worst(policy, current) <= 5 * current {
      forall baseFee: u128, units: u64, used: u64
        ensures CapHolds(policy.(baseFee := baseFee), current, units, used)
      {
        var priced, next := policy.(baseFee := baseFee), NextMultiplier(policy, current, used);
        BaseFeeIsIrrelevant(policy, baseFee, current, used);
        BaseFeeIsIrrelevant(policy, baseFee, current, U64_MAX);
        if QuoteFor(priced, current, units).Ok? && QuoteFor(priced, next, units).Ok? {
          CapSurvives(priced, current, units, used);
        }
      }
    } else {
      var priced, units, used := CapFails(policy, current);
      assert !CapHolds(policy.(baseFee := priced.baseFee), current, units, used);
    }
  }

  lemma CancelFactor(a: nat, t: nat)
    requires t > 0
    ensures Quotient(Product(a, t), t) == a
  {
    var q := Quotient(a * t, t);
    assert a * t == q * t + (a * t) % t;
    if q < a {
      NextMultiple(q, a, t);
    } else if a < q {
      NextMultiple(a, q, t);
    }
  }

  lemma QuarterOf(a: nat, d: nat)
    requires d >= 4
    ensures 4 * Quotient(a, d) <= a
  {
  }

  lemma StepBound(policy: Policy, current: u32, pressure: nat)
    requires policy.target > 0 && pressure <= policy.target && policy.denominator >= 4
    ensures 4 * Change(policy, current, pressure) <= current
  {
    var t, d := policy.target, policy.denominator;
    ProductGrows(current, pressure, t);
    QuotientGrows(Product(current, pressure), Product(current, t), t);
    CancelFactor(current, t);
    QuotientGrows(Quotient(Product(current, pressure), t), current, d);
    QuarterOf(current, d);
  }

  /** A denominator of four or more and a multiplier of four or more, within the bounds, are enough. */
  lemma RiseIsAQuarter(policy: Policy, current: u32)
    requires policy.minMultiplier <= current <= policy.maxMultiplier && policy.denominator >= 4 && current >= 4
    ensures 4 * Worst(policy, current) <= 5 * current
  {
    if 0 < policy.target < U64_MAX {
      StepBound(policy, current, Min(U64_MAX - policy.target, policy.target));
    }
  }

  const MAX_BASE_FEE_PER_UNIT := 10_000_000
  const MAX_OPERATION_UNITS := 1_000

  lemma ProductBound(a: nat, b: nat, top: nat, other: nat)
    requires a <= top && b <= other
    ensures Product(a, b) <= Product(top, other)
  {
  }

  /** Base fees that governance allows never overflow a quote. */
  lemma GovernedQuotes(policy: Policy, multiplier: u32, units: u64)
    requires policy.baseFee <= MAX_BASE_FEE_PER_UNIT && units <= MAX_OPERATION_UNITS
    ensures QuoteFor(policy, multiplier, units).Ok?
  {
    var perMultiplier := Product(policy.baseFee, units);
    ProductBound(policy.baseFee, units, MAX_BASE_FEE_PER_UNIT, MAX_OPERATION_UNITS);
    ProductBound(perMultiplier, multiplier, 10_000_000_000, U32_MAX);
    CeilBound(Product(perMultiplier, multiplier), FEE_MULTIPLIER_BPS, 1_000_000 * U32_MAX);
  }

  /** The cap survives one epoch. */
  lemma FeeCapSurvivesOneEpoch(policy: Policy, current: u32, units: u64, used: u64)
    requires policy.version > 0 && policy.baseFee <= MAX_BASE_FEE_PER_UNIT && units <= MAX_OPERATION_UNITS
    requires policy.minMultiplier <= current <= policy.maxMultiplier && policy.denominator >= 4 && current >= 4
    ensures QuoteFor(policy, current, units).Ok?
    ensures ValidateEnvelope(policy, NextMultiplier(policy, current, used), units, policy.version,
                             QuoteFor(policy, current, units).value.recommendedMax).Ok?
  {
    GovernedQuotes(policy, current, units);
    GovernedQuotes(policy, NextMultiplier(policy, current, used), units);
    RiseIsAQuarter(policy, current);
    CapSurvives(policy, current, units, used);
  }

  /** Neither bound can be spared. */
  lemma SmallDenominatorFails()
    ensures var policy := Policy(1, 40_000, 2_500, 100_000, 900_000, 3); 4 * Worst(policy, 10_000) > 5 * 10_000
  {
  }

  lemma SmallMultiplierFails()
    ensures var policy := Policy(1, 40_000, 1, 100_000, 900_000, 8); 4 * Worst(policy, 3) > 5 * 3
  {
  }

  // ---- Overload ----

  lemma OverloadRaises(policy: Policy, current: u32, used: u64)
    requires policy.minMultiplier <= current < policy.maxMultiplier && 0 < policy.target < used
    ensures NextMultiplier(policy, current, used) > current
  {
  }

  function AfterEpochs(policy: Policy, current: u32, usage: seq<u64>): u32
    requires policy.minMultiplier <= policy.maxMultiplier
    decreases |usage|
  {
    if usage == [] then current else AfterEpochs(policy, NextMultiplier(policy, current, usage[0]), usage[1..])
  }

  /** Epoch after epoch of overload raises the multiplier until it is at the maximum, and keeps it there. */
  lemma {:induction false} SustainedOverload(policy: Policy, current: u32, usage: seq<u64>)
    requires policy.minMultiplier <= current <= policy.maxMultiplier && policy.target > 0
    requires forall i :: 0 <= i < |usage| ==> usage[i] > policy.target
    ensures Min(current + |usage|, policy.maxMultiplier) <= AfterEpochs(policy, current, usage) <= policy.maxMultiplier
    decreases |usage|
  {
    if usage != [] {
      if current < policy.maxMultiplier {
        OverloadRaises(policy, current, usage[0]);
      }
      SustainedOverload(policy, NextMultiplier(policy, current, usage[0]), usage[1..]);
    }
  }
}
