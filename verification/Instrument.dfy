/** Trading filters of one venue's instrument (crates/core/src/instrument.rs). */
module Instrument {
  import opened Common

  datatype InstrumentSpec = InstrumentSpec(
    venue: string,
    priceTick: real,
    quantityStep: real,
    minQuantity: real,
    maxQuantity: Option<real>,
    minNotional: real,
    maxNotional: Option<real>)

  datatype OrderRejection =
    | QuantityBelowMinimum
    | QuantityAboveMaximum
    | QuantityOffStep
    | NotionalBelowMinimum
    | NotionalAboveMaximum

  /** The static checks that make ticks and steps usable as divisors. */
  predicate UsableFilters(spec: InstrumentSpec) {
    spec.priceTick > 0.0 && spec.quantityStep > 0.0 && spec.minQuantity > 0.0 && spec.minNotional >= 0.0
  }

  /** Decimal remainder: the quotient is truncated toward zero. */
  function Remainder(a: real, b: real): real
    requires b != 0.0
  {
    var q := a / b;
    var t := if q >= 0.0 then q.Floor else -((-q).Floor);
    a - (t as real) * b
  }

  function Flag(condition: bool, reason: OrderRejection): seq<OrderRejection> {
    if condition then [reason] else []
  }

  function OrderRejectionReasons(spec: InstrumentSpec, quantity: real, notional: real): seq<OrderRejection>
    requires spec.quantityStep != 0.0
  {
    Flag(quantity < spec.minQuantity, QuantityBelowMinimum)
    + Flag(spec.maxQuantity.Some? && quantity > spec.maxQuantity.value, QuantityAboveMaximum)
    + Flag(Remainder(quantity, spec.quantityStep) != 0.0, QuantityOffStep)
    + Flag(notional < spec.minNotional, NotionalBelowMinimum)
    + Flag(spec.maxNotional.Some? && notional > spec.maxNotional.value, NotionalAboveMaximum)
  }

  function Multiple(n: int, step: real): real { Times(n as real, step) }

  ghost predicate OnGrid(x: real, step: real) {
    exists n: int :: x == Multiple(n, step)
  }

  /** An order within the venue's filters. */
  ghost predicate FitsFilters(spec: InstrumentSpec, quantity: real, notional: real) {
    && spec.minQuantity <= quantity && (spec.maxQuantity.Some? ==> quantity <= spec.maxQuantity.value)
    && OnGrid(quantity, spec.quantityStep)
    && spec.minNotional <= notional && (spec.maxNotional.Some? ==> notional <= spec.maxNotional.value)
  }

  lemma RemainderVanishesOnSteps(quantity: real, step: real)
    requires step > 0.0
    ensures Remainder(quantity, step) == 0.0 <==> OnGrid(quantity, step)
  {
    var q := quantity / step;
    var t := if q >= 0.0 then q.Floor else -((-q).Floor);
    assert Remainder(quantity, step) == quantity - Multiple(t, step);
    if OnGrid(quantity, step) {
      var n: int :| quantity == Multiple(n, step);
      assert q == n as real by { QuotientOfMultiple(n as real, step); }
    }
  }

  lemma QuotientOfMultiple(x: real, step: real)
    requires step > 0.0
    ensures (x * step) / step == x
  {
  }

  /** An order draws no rejection exactly when it is within the filters. */
  lemma NoRejectionExactlyWithinFilters(spec: InstrumentSpec, quantity: real, notional: real)
    requires spec.quantityStep > 0.0
    ensures OrderRejectionReasons(spec, quantity, notional) == [] <==> FitsFilters(spec, quantity, notional)
  {
    hide Remainder, OnGrid;
    RemainderVanishesOnSteps(quantity, spec.quantityStep);
  }
}
