/** Rented inbound capacity: the fee of `CalcDepositFee` and what it adds up to
    when one rent is split into several made at the same instant. */
module Rent {
  import opened Prelude
  import opened Arith

  /** A rented deposit: `used` of `amount` is consumed, the rest is free until `till`. */
  datatype Locked = Locked(amount: int, till: int, used: int)

  /** Price list of a coin: `rateNum / rateDen` coins per coin-second, plus a fixed fee per rent. */
  datatype Tariff = Tariff(rateNum: nat, rateDen: nat, fixedFee: nat)

  datatype Order = Order(amount: nat, till: int)

  predicate Active(ld: Option<Locked>, now: int) {
    ld.Some? && ld.value.till > now
  }

  /** The deposit in force: an expired or missing one counts as nothing until now. */
  function InForce(ld: Option<Locked>, now: int): (r: Locked)
    ensures r.till >= now
  {
    if Active(ld, now) then ld.value else Locked(0, now, 0)
  }

  /** Coin-seconds charged: extension of the free part, then the new part for the whole period. */
  function ChargedUnits(ld: Option<Locked>, o: Order, now: int): int {
    var cur := InForce(ld, now);
    var delta := o.amount - cur.amount;
    if o.till - now <= 0 || delta <= 0 then 0
    else
      var free := cur.amount - cur.used;
      (if free > 0 && o.till > cur.till then free * (o.till - cur.till) else 0) + delta * (o.till - now)
  }

  function DepositFee(t: Tariff, ld: Option<Locked>, o: Order, now: int): int
    requires t.rateDen > 0
  {
    if o.till - now <= 0 || o.amount - InForce(ld, now).amount <= 0 then 0
    else CeilDiv(ChargedUnits(ld, o, now) * t.rateNum, t.rateDen) + t.fixedFee
  }

  /** What a rent stores: the new size and term, keeping what an active deposit had used. */
  function Rented(ld: Option<Locked>, o: Order, now: int): Locked {
    Locked(o.amount, o.till, InForce(ld, now).used)
  }

  /** Coin-seconds of free capacity still ahead. */
  function FreeAhead(ld: Option<Locked>, now: int): int {
    var d := InForce(ld, now);
    (d.amount - d.used) * (d.till - now)
  }

  /** An order the renting side accepts: strictly more, and not for a shorter term. */
  predicate Grows(ld: Option<Locked>, o: Order, now: int) {
    o.till > now && o.amount > InForce(ld, now).amount && o.till >= InForce(ld, now).till
  }

  predicate Series(ld: Option<Locked>, orders: seq<Order>, now: int)
    decreases |orders|
  {
    orders == [] ||
    (Grows(ld, orders[0], now) && Series(Some(Rented(ld, orders[0], now)), orders[1..], now))
  }

  function SeriesUnits(ld: Option<Locked>, orders: seq<Order>, now: int): int
    decreases |orders|
  {
    if orders == [] then 0
    else ChargedUnits(ld, orders[0], now) + SeriesUnits(Some(Rented(ld, orders[0], now)), orders[1..], now)
  }

  function SeriesFee(t: Tariff, ld: Option<Locked>, orders: seq<Order>, now: int): int
    requires t.rateDen > 0
    decreases |orders|
  {
    if orders == [] then 0
    else DepositFee(t, ld, orders[0], now) + SeriesFee(t, Some(Rented(ld, orders[0], now)), orders[1..], now)
  }

  lemma Regroup(free: int, delta: int, ext: int, rest: int)
    ensures (free + delta) * (ext + rest) - free * rest == free * ext + delta * (ext + rest)
    ensures free >= 0 && delta >= 0 && ext >= 0 && rest >= 0 ==> free * ext >= 0 && delta * (ext + rest) >= 0
  {
  }

  /** Closed form of one accepted rent: the free coin-seconds gained. */
  lemma {:induction false} UnitsAreFreeGained(ld: Option<Locked>, o: Order, now: int)
    requires Grows(ld, o, now)
    requires InForce(ld, now).used <= InForce(ld, now).amount
    ensures ChargedUnits(ld, o, now) == FreeAhead(Some(Rented(ld, o, now)), now) - FreeAhead(ld, now)
    ensures ChargedUnits(ld, o, now) >= 0
  {
    var cur := InForce(ld, now);
    var free, delta, ext, rest := cur.amount - cur.used, o.amount - cur.amount, o.till - cur.till, cur.till - now;
    Regroup(free, delta, ext, rest);
    assert o.till - now == ext + rest && o.amount - cur.used == free + delta;
    assert free * ext == if free > 0 && ext > 0 then free * ext else 0;
  }

  /** Before rounding, any growing series of rents made at one instant charges exactly
      what the last order alone would: the charge telescopes. */
  lemma {:induction false} SplitRentChargesTheSame(ld: Option<Locked>, orders: seq<Order>, now: int)
    requires orders != [] && Series(ld, orders, now)
    requires InForce(ld, now).used <= InForce(ld, now).amount
    ensures Grows(ld, orders[|orders| - 1], now)
    ensures SeriesUnits(ld, orders, now) == ChargedUnits(ld, orders[|orders| - 1], now)
    decreases |orders|
  {
    var first, rest := orders[0], orders[1..];
    var next := Some(Rented(ld, first, now));
    UnitsAreFreeGained(ld, first, now);
    if rest != [] {
      SplitRentChargesTheSame(next, rest, now);
      var last := rest[|rest| - 1];
      UnitsAreFreeGained(next, last, now);
      UnitsAreFreeGained(ld, last, now);
      assert Rented(next, last, now) == Rented(ld, last, now);
    }
  }

  /** Fees of two charges are at least the fee of both together. */
  lemma ChargesAddUp(t: Tariff, u: int, v: int)
    requires t.rateDen > 0 && u >= 0 && v >= 0
    ensures CeilDiv(u * t.rateNum, t.rateDen) + CeilDiv(v * t.rateNum, t.rateDen) >=
            CeilDiv((u + v) * t.rateNum, t.rateDen)
  {
    assert (u + v) * t.rateNum == u * t.rateNum + v * t.rateNum;
    assert u * t.rateNum >= 0 && v * t.rateNum >= 0;
    CeilDivSubadditive(u * t.rateNum, v * t.rateNum, t.rateDen);
  }

  lemma AcceptedFee(t: Tariff, ld: Option<Locked>, o: Order, now: int)
    requires t.rateDen > 0 && Grows(ld, o, now)
    ensures DepositFee(t, ld, o, now) == CeilDiv(ChargedUnits(ld, o, now) * t.rateNum, t.rateDen) + t.fixedFee
  {
  }

  /** After rounding up and the fixed fee, splitting a rent is never cheaper than renting once. */
  lemma {:induction false} SplitRentIsNeverCheaper(t: Tariff, ld: Option<Locked>, orders: seq<Order>, now: int)
    requires t.rateDen > 0
    requires orders != [] && Series(ld, orders, now)
    requires InForce(ld, now).used <= InForce(ld, now).amount
    ensures SeriesFee(t, ld, orders, now) >= DepositFee(t, ld, orders[|orders| - 1], now)
    decreases |orders|
  {
    var first, rest := orders[0], orders[1..];
    var next := Some(Rented(ld, first, now));
    if rest != [] {
      var last := rest[|rest| - 1];
      SplitRentIsNeverCheaper(t, next, rest, now);
      var u, v := ChargedUnits(ld, first, now), ChargedUnits(next, last, now);
      ChargesSplit(ld, orders, now);
      ChargesAddUp(t, u, v);
      AcceptedFee(t, ld, first, now);
      AcceptedFee(t, next, last, now);
      AcceptedFee(t, ld, last, now);
    }
  }

  lemma ChargesSplit(ld: Option<Locked>, orders: seq<Order>, now: int)
    requires |orders| > 1 && Series(ld, orders, now) && InForce(ld, now).used <= InForce(ld, now).amount
    ensures
      var next, last := Some(Rented(ld, orders[0], now)), orders[|orders| - 1];
      && ChargedUnits(ld, last, now) == ChargedUnits(ld, orders[0], now) + ChargedUnits(next, last, now)
      && ChargedUnits(ld, orders[0], now) >= 0 && ChargedUnits(next, last, now) >= 0
      && Grows(ld, orders[0], now) && Grows(next, last, now) && Grows(ld, last, now)
  {
    var next, rest := Some(Rented(ld, orders[0], now)), orders[1..];
    UnitsAreFreeGained(ld, orders[0], now);
    SplitRentChargesTheSame(ld, orders, now);
    SplitRentChargesTheSame(next, rest, now);
    UnitsAreFreeGained(next, orders[|orders| - 1], now);
  }
}
