/** Settling a linked pair of derivative conditionals at a price. */
module Derivatives {
  import opened Prelude
  import opened Arith
  import opened Payments

  /** A position the service accepts: positive collateral, leverage and entry price. */
  predicate Position(c: Conditional) {
    c.Resolvable? && c.amount > 0 && c.details.leverage > 0 && c.details.entry > 0
  }

  /** `buildDerivativeResolveForPrice`. */
  function ResolveAt(c: Conditional, at: int, price: int): Result<Resolve> {
    if !Position(c) || price <= 0 then Err else Ok(Priced(c.key, CappedLoss(c, price), at))
  }

  /** `buildIncomingDerivativeResolve`: the incoming side pays what the outgoing one profits, capped. */
  function IncomingResolveAt(out: Conditional, incomingKey: Key, at: int, price: int): Result<Resolve> {
    if !out.Resolvable? || price <= 0 || out.details.entry <= 0 then Err
    else
      var pnl := Pnl(out, price);
      var profit := if pnl <= 0 then 0 else if out.amount > 0 && pnl > out.amount then out.amount else pnl;
      Ok(Priced(incomingKey, profit, at))
  }

  // ---------- losses and profits, written out ----------

  /** What a position loses at a price: nothing unless the price moved against it, otherwise the amount times leverage
      times the move over the entry price, rounded up, and at most the amount. */
  predicate IsLoss(isLong: bool, amount: int, leverage: int, entry: int, price: int, loss: int) {
    var against := if isLong then entry - price else price - entry;
    if against <= 0 then loss == 0
    else
      && 0 < loss <= amount && entry * (loss - 1) < amount * leverage * against
      && (loss == amount || amount * leverage * against <= entry * loss)
  }

  /** What it gains: the same with the price moved for it, rounded down. */
  predicate IsProfit(isLong: bool, amount: int, leverage: int, entry: int, price: int, profit: int) {
    var move := if isLong then price - entry else entry - price;
    if move <= 0 then profit == 0
    else
      && 0 <= profit <= amount && entry * profit <= amount * leverage * move
      && (profit == amount || amount * leverage * move < entry * (profit + 1))
  }

  predicate LossOf(c: Conditional, price: int, loss: int)
    requires c.Resolvable?
  {
    IsLoss(c.details.isLong, c.amount, c.details.leverage, c.details.entry, price, loss)
  }

  predicate ProfitOf(c: Conditional, price: int, profit: int)
    requires c.Resolvable?
  {
    IsProfit(c.details.isLong, c.amount, c.details.leverage, c.details.entry, price, profit)
  }

  /** Notional times move: what is divided by the entry price. */
  function Stake(c: Conditional, price: int): int
    requires c.Resolvable?
  {
    c.amount * c.details.leverage * Move(c.details, price)
  }

  lemma StakeSign(c: Conditional, price: int)
    requires Position(c)
    ensures Stake(c, price) > 0 <==> Move(c.details, price) > 0
    ensures Stake(c, price) == 0 <==> Move(c.details, price) == 0
    ensures Stake(LinkedOf(c), price) == -Stake(c, price)
  {
  }

  /** The loss is the ceiling of the stake against the position, capped by the collateral. */
  lemma LossIsCappedCeiling(c: Conditional, price: int)
    requires Position(c)
    ensures CappedLoss(c, price) ==
              if Stake(c, price) >= 0 then 0 else Min(CeilDiv(-Stake(c, price), c.details.entry), c.amount)
    ensures Stake(c, price) < 0 ==> CeilDiv(-Stake(c, price), c.details.entry) >= 1
  {
    var x, e := Stake(c, price), c.details.entry;
    FloorOfNegation(-x, e);
    DivAtLeast(x, e, 0);
    CeilAtMost(-x, e, 0);
  }

  /** The settled loss is that loss, and no other amount is. */
  lemma LossIsWritten(c: Conditional, price: int, loss: int)
    requires Position(c)
    ensures CappedLoss(c, price) == loss <==> LossOf(c, price, loss)
  {
    var x, e := Stake(c, price), c.details.entry;
    StakeSign(c, price);
    StakeIsWritten(c, price);
    LossIsCappedCeiling(c, price);
    if x < 0 {
      CeilingIsWritten(-x, e, c.amount, CappedLoss(c, price));
      if LossOf(c, price, loss) {
        CeilingIsOne(-x, e, c.amount, loss, CappedLoss(c, price));
      }
    }
  }

  lemma StakeIsWritten(c: Conditional, price: int)
    requires Position(c)
    ensures
      var against := if c.details.isLong then c.details.entry - price else price - c.details.entry;
      && Stake(c, price) == -(c.amount * c.details.leverage * against)
      && (Stake(c, price) < 0 <==> against > 0)
  {
    var against := if c.details.isLong then c.details.entry - price else price - c.details.entry;
    var n := c.amount * c.details.leverage;
    StakeSign(c, price);
    assert Move(c.details, price) == -against;
    assert n * -against == -(n * against);
  }

  /** The capped ceiling of `x / e`, without a division. */
  lemma CeilingIsWritten(x: int, e: int, cap: int, r: int)
    requires e > 0 && cap > 0 && x > 0 && r == Min(CeilDiv(x, e), cap)
    ensures 0 < r <= cap && e * (r - 1) < x && (r == cap || x <= e * r)
  {
    var q := CeilDiv(x, e);
    CeilAtMost(x, e, q);
    CeilAtMost(x, e, q - 1);
    CeilAtMost(x, e, 0);
    MulMonotone(e, r - 1, q - 1);
  }

  lemma CeilingIsOne(x: int, e: int, cap: int, r: int, s: int)
    requires e > 0 && 0 < r <= cap && e * (r - 1) < x && (r == cap || x <= e * r)
    requires 0 < s <= cap && e * (s - 1) < x && (s == cap || x <= e * s)
    ensures r == s
  {
    if r < s {
      MulMonotone(e, r, s - 1);
    } else if s < r {
      MulMonotone(e, s, r - 1);
    }
  }

  /** A resolve at a price claims exactly the loss. */
  lemma ResolveIsTheLoss(c: Conditional, at: int, price: int)
    ensures ResolveAt(c, at, price).Ok? <==> Position(c) && price > 0
    ensures ResolveAt(c, at, price).Ok? ==>
              exists loss :: LossOf(c, price, loss) && ResolveAt(c, at, price).value == Priced(c.key, loss, at)
  {
    if Position(c) && price > 0 {
      LossIsWritten(c, price, CappedLoss(c, price));
    }
  }

  /** The resolve of the incoming side claims exactly the outgoing side's profit. */
  lemma IncomingResolveIsTheProfit(out: Conditional, key: Key, at: int, price: int)
    requires Position(out) && price > 0
    ensures exists profit ::
              ProfitOf(out, price, profit) && IncomingResolveAt(out, key, at, price) == Ok(Priced(key, profit, at))
  {
    var x, e := Stake(out, price), out.details.entry;
    StakeSign(out, price);
    StakeIsWritten(out, price);
    var profit := IncomingResolveAt(out, key, at, price).value.amount;
    if x > 0 {
      DivAtLeast(x, e, x / e);
      DivAtLeast(x, e, x / e + 1);
      DivAtLeast(x, e, profit);
      DivAtLeast(x, e, profit + 1);
      DivAtLeast(x, e, 0);
    } else {
      DivAtLeast(x, e, 1);
    }
    assert ProfitOf(out, price, profit);
  }

  /** The linked side settles its own loss when the primary one settles nothing, and nothing otherwise. */
  lemma LinkedResolveIsTheLoss(primary: Resolve, linked: Conditional, prices: Prices)
    requires Position(linked) && primary.Priced? && (linked.details.asset, primary.at) in prices
    ensures
      var price := prices[(linked.details.asset, primary.at)];
      exists loss :: LossOf(linked, price, loss) &&
        LinkedResolve(primary, linked, prices) ==
          Ok(if primary.amount > 0 || loss == 0 then None else Some(Priced(linked.key, loss, primary.at)))
  {
    var price := prices[(linked.details.asset, primary.at)];
    LossIsWritten(linked, price, CappedLoss(linked, price));
  }

  // ---------- which resolves are let through ----------

  /** An amount within one of the loss. */
  ghost predicate NearLoss(c: Conditional, price: int, amount: int)
    requires c.Resolvable?
  {
    exists loss :: LossOf(c, price, loss) && loss - 1 <= amount <= loss + 1
  }

  lemma AcceptedIsNearLoss(c: Conditional, price: int, amount: int)
    requires Position(c)
    ensures AmountAccepted(c, amount, price) <==> NearLoss(c, price, amount)
  {
    LossIsWritten(c, price, CappedLoss(c, price));
    if NearLoss(c, price, amount) {
      var loss :| LossOf(c, price, loss) && loss - 1 <= amount <= loss + 1;
      LossIsWritten(c, price, loss);
    }
  }

  /** A derivative's resolve is let through exactly when none is known, it is by its key and not negative, its second is
      within the window of the latest one, and its amount is within one of the loss at that second's price. */
  lemma DerivativeLetThroughExactly(c: Conditional, known: Option<Resolve>, r: Resolve, prices: Prices,
                                    latest: map<nat, int>)
    requires c.Resolvable? && c.amount > 0 && c.details.leverage > 0
    ensures !Validate(c, known, r, prices, latest).Older?
    ensures Validate(c, known, r, prices, latest).Fit? <==>
              (&& known.None? && r.Priced? && r.key == c.key && r.amount >= 0 && c.details.entry > 0
               && c.details.asset in latest && 0 < latest[c.details.asset]
               && latest[c.details.asset] - 10 <= r.at <= latest[c.details.asset] + 2
               && (c.details.asset, r.at) in prices
               && NearLoss(c, prices[(c.details.asset, r.at)], r.amount))
  {
    if c.details.entry > 0 && r.Priced? && (c.details.asset, r.at) in prices {
      AcceptedIsNearLoss(c, prices[(c.details.asset, r.at)], r.amount);
    }
  }

  /** Zero-sum at every positive price: each side settles within its collateral, exactly one of the
      pair settles something unless the price is the entry price, and the side resolved from the
      other's state settles what its own position says. */
  lemma ExactlyOneSideSettles(c: Conditional, at: int, price: int, prices: Prices)
    requires Position(c) && price > 0
    requires (c.details.asset, at) in prices && prices[(c.details.asset, at)] == price
    ensures
      var own, linked := CappedLoss(c, price), CappedLoss(LinkedOf(c), price);
      && 0 <= own <= c.amount && 0 <= linked <= c.amount
      && (own > 0 <==> if c.details.isLong then price < c.details.entry else price > c.details.entry)
      && (linked > 0 <==> if c.details.isLong then price > c.details.entry else price < c.details.entry)
      && (own > 0 || linked > 0 <==> price != c.details.entry)
      && !(own > 0 && linked > 0)
    ensures LinkedResolve(ResolveAt(c, at, price).value, LinkedOf(c), prices)
              == if CappedLoss(LinkedOf(c), price) > 0 then Ok(Some(ResolveAt(LinkedOf(c), at, price).value))
                else Ok(None)
  {
    StakeSign(c, price);
    LossIsCappedCeiling(c, price);
    LossIsCappedCeiling(LinkedOf(c), price);
  }

  /** The profit form (floor) and the loss form (ceiling) of the incoming side differ by at most one,
      never above, so the incoming conditional always accepts it; they are equal exactly when the
      division is exact or both are capped. */
  lemma ProfitFormWithinOneOfLossForm(out: Conditional, at: int, price: int)
    requires Position(out) && price > 0
    ensures
      var profit := IncomingResolveAt(out, LinkedTo(out.key), at, price).value.amount;
      var loss := CappedLoss(LinkedOf(out), price);
      && loss - 1 <= profit <= loss
      && AmountAccepted(LinkedOf(out), profit, price)
      && (profit == loss <==>
            Stake(out, price) <= 0 || Stake(out, price) % out.details.entry == 0
            || Stake(out, price) / out.details.entry >= out.amount)
  {
    var x, e := Stake(out, price), out.details.entry;
    StakeSign(out, price);
    LossIsCappedCeiling(LinkedOf(out), price);
    FloorOfNegation(x, e);
    DivAtLeast(x, e, 1);
    DivAtLeast(x, e, 0);
    ExactCeiling(x, e);
  }

  lemma ExactCeiling(x: int, e: int)
    requires e > 0
    ensures CeilDiv(x, e) == x / e <==> x % e == 0
  {
    CeilAtMost(x, e, x / e);
    FloorOfNegation(x, e);
    assert x == e * (x / e) + x % e;
  }

  // ---------- liquidation ----------

  /** `calcDerivativeROI`: the floored profit, nothing when the price moved against the position. */
  function Roi(c: Conditional, price: int): int {
    if !Position(c) || Move(c.details, price) <= 0 then 0
    else (Move(c.details, price) * c.amount * c.details.leverage) / c.details.entry
  }

  /** The return is the profit before any cap, rounded down. */
  lemma RoiIsWritten(c: Conditional, price: int)
    requires Position(c)
    ensures
      var move := if c.details.isLong then price - c.details.entry else c.details.entry - price;
      if move <= 0 then Roi(c, price) == 0
      else
        && c.details.entry * Roi(c, price) <= c.amount * c.details.leverage * move
        && c.amount * c.details.leverage * move < c.details.entry * (Roi(c, price) + 1)
  {
    var m, a, l, e := Move(c.details, price), c.amount, c.details.leverage, c.details.entry;
    if m > 0 {
      assert m * a * l == a * l * m;
      DivAtLeast(m * a * l, e, Roi(c, price));
      DivAtLeast(m * a * l, e, Roi(c, price) + 1);
    }
  }

  /** The floored return reaches the collateral exactly when the leveraged move reaches the entry price. */
  lemma RoiReachesCollateral(c: Conditional, price: int)
    requires Position(c)
    ensures
      var move := if c.details.isLong then price - c.details.entry else c.details.entry - price;
      Roi(c, price) >= c.amount <==> move * c.details.leverage >= c.details.entry
  {
    var m, a, l, e := Move(c.details, price), c.amount, c.details.leverage, c.details.entry;
    if m > 0 {
      assert m * a * l == a * (m * l);
      DivAtLeast(m * a * l, e, a);
      assert e * a == a * e;
      if m * l >= e {
        MulMonotone(a, e, m * l);
      } else {
        MulMonotone(a, m * l, e - 1);
        assert a * (e - 1) == a * e - a;
      }
    } else {
      assert m * l <= 0;
    }
  }

  /** At any such price the linked outgoing side's capped loss is the whole collateral, which is the
      payout the liquidation posts. */
  lemma LiquidationPaysTheCollateral(incoming: Conditional, price: int)
    requires Position(incoming) && Roi(incoming, price) >= incoming.amount
    ensures CappedLoss(LinkedOf(incoming), price) == incoming.amount
    ensures AmountAccepted(LinkedOf(incoming), incoming.amount, price)
  {
    var m, a, l, e := Move(incoming.details, price), incoming.amount, incoming.details.leverage, incoming.details.entry;
    var x := Stake(incoming, price);
    assert x == m * a * l;
    StakeSign(incoming, price);
    LossIsCappedCeiling(LinkedOf(incoming), price);
    FloorOfNegation(x, e);
  }
}
