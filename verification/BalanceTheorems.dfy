/** What the emulated balances of the two sides promise each other, and how agreed operations move them. */
module BalanceTheorems {
  import opened Prelude
  import opened Arith
  import opened Payments
  import opened Channel
  import opened Balance

  /** Amounts an agreed conditional may carry at any time. */
  predicate CondOk(c: Conditional) {
    if c.Virtual? then c.capacity > 0 && c.fee >= 0 && c.prepay >= 0
    else c.amount > 0 && c.fee >= 0 && c.details.leverage > 0
  }

  ghost predicate Sane(conds: CondDict) { forall id :: id in conds ==> CondOk(conds[id]) }

  /** What the other side sees as possibly incoming is what the payer has locked: always of a virtual channel, of a
      derivative only where its profit is its collateral, or both are eaten up by its fee. */
  predicate Symmetric(c: Conditional, q: Quotes)
    requires Priceable(c, q)
  {
    c.Virtual? ||
    var roi := EmulatedRoi(c, q[c.details.asset]);
    roi == c.amount || (!c.isInitiator && Max(c.amount, -roi) <= c.fee && roi <= c.fee)
  }

  lemma SymmetricExactly(c: Conditional, q: Quotes)
    requires (c.Virtual? || CondOk(c)) && Priceable(c, q)
    ensures PendOf(c, q) == LockOf(c, q) <==> Symmetric(c, q)
  {
  }

  ghost predicate AllSymmetric(conds: CondDict, q: Quotes) {
    forall id :: id in conds ==>
      (conds[id].Virtual? || CondOk(conds[id])) && Priceable(conds[id], q) && Symmetric(conds[id], q)
  }

  lemma {:induction false} PendingIsLocked(conds: CondDict, coin: Coin, q: Quotes)
    requires AllSymmetric(conds, q)
    ensures Sum(conds, PendWeight(coin, q)) == Sum(conds, LockWeight(coin, q))
    decreases conds.Keys
  {
    if conds != map[] {
      var id :| id in conds;
      SymmetricExactly(conds[id], q);
      SumDrop(conds, PendWeight(coin, q), id);
      SumDrop(conds, LockWeight(coin, q), id);
      PendingIsLocked(conds - {id}, coin, q);
    }
  }

  lemma LockIsNonNegative(c: Conditional, q: Quotes)
    requires CondOk(c)
    ensures LockOf(c, q) >= 0
  {
  }

  lemma LocksAreNonNegative(s: Side, coin: Coin, q: Quotes)
    requires Sane(s.data.conds)
    ensures LockedBy(s, coin, q) >= 0
  {
    forall id | id in s.data.conds ensures LockWeight(coin, q)(id, s.data.conds[id]) >= 0 {
      LockIsNonNegative(s.data.conds[id], q);
    }
    SumNonNegative(s.data.conds, LockWeight(coin, q));
  }

  /** The emulated profit: the signed move in the conditional's direction, times amount and leverage, over the entry
      price, rounded down. */
  lemma EmulatedRoiIsWritten(c: Conditional, price: int)
    requires c.Resolvable? && c.details.entry > 0
    ensures
      var move := if c.details.isLong then price - c.details.entry else c.details.entry - price;
      var roi := EmulatedRoi(c, price);
      c.details.entry * roi <= move * c.amount * c.details.leverage < c.details.entry * (roi + 1)
  {
    var x, e := Move(c.details, price) * c.amount * c.details.leverage, c.details.entry;
    DivAtLeast(x, e, x / e);
    DivAtLeast(x, e, x / e + 1);
  }

  /** What an open derivative locks: its collateral, or the emulated loss where that is larger, with the initiator's fee
      on top and the other's fee taken off. What it shows as pending: the emulated profit with the fee likewise. */
  lemma DerivativeLockIsWritten(c: Conditional, q: Quotes)
    requires c.Resolvable? && CondOk(c) && c.details.asset in q && c.details.entry > 0
    ensures
      var roi := EmulatedRoi(c, q[c.details.asset]);
      && LockOf(c, q) == (if c.isInitiator then Max(c.amount, -roi) + c.fee else Max(Max(c.amount, -roi) - c.fee, 0))
      && PendOf(c, q) == Max(if c.isInitiator then roi + c.fee else roi - c.fee, 0)
  {
  }

  /** Together the sides can spend the coins on chain less holds and locks. */
  lemma AvailableAddsUp(a: Account, b: Account, coin: Coin, q: Quotes)
    ensures BalanceOf(a, b, coin, q).Available() + BalanceOf(b, a, coin, q).Available() ==
            Coins(a, coin) + Coins(b, coin) - Max(Held(a.side, coin), 0) - Max(Held(b.side, coin), 0)
            - Max(LockedBy(a.side, coin, q), 0) - Max(LockedBy(b.side, coin, q), 0)
  {
  }

  /** The two views of one channel: action parts cancel, and what one side may receive is what the other has locked. */
  lemma ViewsAgree(a: Account, b: Account, coin: Coin, q: Quotes)
    ensures BalanceOf(a, b, coin, q).action + BalanceOf(b, a, coin, q).action == 0
    ensures AllSymmetric(b.side.data.conds, q) ==>
              BalanceOf(a, b, coin, q).pending == BalanceOf(b, a, coin, q).locked
  {
    if AllSymmetric(b.side.data.conds, q) {
      PendingIsLocked(b.side.data.conds, coin, q);
    }
  }

  /** For instance, a fresh derivative locks its collateral and fee and shows only the fee as pending. */
  lemma DerivativePendingIsNotLocked(c: Conditional, q: Quotes)
    requires c.Resolvable? && Priceable(c, q) && c.isInitiator && c.amount > 0 && c.fee >= 0
    requires q[c.details.asset] == c.details.entry
    ensures LockOf(c, q) == c.amount + c.fee && PendOf(c, q) == c.fee
  {
  }

  /** Available moves by what the sums behind it move by. */
  lemma AvailableMoves(mine: Account, peer: Account, s: Side, t: Side, coin: Coin, q: Quotes, owed: int, due: int,
                       freed: int)
    requires Sane(mine.side.data.conds) && Sane(s.data.conds) && Held(s, coin) == Held(mine.side, coin)
    requires OwedBy(s, coin) == OwedBy(mine.side, coin) + owed && OwedBy(t, coin) == OwedBy(peer.side, coin) + due
    requires LockedBy(s, coin, q) == LockedBy(mine.side, coin, q) - freed
    ensures BalanceOf(mine.(side := s), peer.(side := t), coin, q).Available() ==
            BalanceOf(mine, peer, coin, q).Available() - owed + due + freed
  {
    LocksAreNonNegative(mine.side, coin, q);
    LocksAreNonNegative(s, coin, q);
  }

  // ---------- executing a conditional, with the one linked to it ----------

  /** What settling pays. */
  function Paid(c: Conditional, r: Resolve): int {
    if c.Resolvable? && r.amount == 0 then 0 else if Need(c, r).Ok? then Need(c, r).value else 0
  }

  function Only(coin: Coin, of: Coin, x: int): int { if coin == of then x else 0 }

  /** The linked conditional that is really there. */
  function LinkOn(s: Side, link: Option<Conditional>): Option<Conditional> {
    if link.Some? && link.value in s.data.conds then Some(s.data.conds[link.value]) else None
  }

  /** What settling the linked conditional pays. */
  function LinkPaid(c: Conditional, r: Resolve, prices: Prices): int {
    match (if c.Resolvable? then LinkedResolve(r, c, prices) else Ok(Some(r)))
    case Err => 0
    case Ok(None) => 0
    case Ok(Some(lr)) => if Need(c, lr).Ok? then Need(c, lr).value else 0
  }

  /** Of one coin: coins freed and coins paid by a conditional that may not be there. */
  function Freed(c: Option<Conditional>, coin: Coin, q: Quotes): int {
    if c.Some? then Only(coin, c.value.action.coin, LockOf(c.value, q)) else 0
  }

  function PaidBy(c: Option<Conditional>, coin: Coin, r: Resolve, prices: Prices): int {
    if c.Some? then Only(coin, c.value.action.coin, LinkPaid(c.value, r, prices)) else 0
  }

  lemma SettledSums(s: Side, id: Conditional, r: Resolve, coin: Coin, q: Quotes)
    requires SettleOnSide(s, id, r).Ok? && Sane(s.data.conds)
    ensures
      var s', c := SettleOnSide(s, id, r).value, s.data.conds[id];
      && Sane(s'.data.conds)
      && OwedBy(s', coin) == OwedBy(s, coin) + Only(coin, c.action.coin, Paid(c, r))
      && LockedBy(s', coin, q) == LockedBy(s, coin, q) - Only(coin, c.action.coin, LockOf(c, q))
      && Held(s', coin) == Held(s, coin)
  {
    var s', c := SettleOnSide(s, id, r).value, s.data.conds[id];
    SumPut(s.data.acts, OwedWeight(coin), c.action, s'.data.acts[c.action]);
    SumDrop(s.data.conds, LockWeight(coin, q), id);
  }

  lemma LinkedSums(s: Side, link: Option<Conditional>, r: Resolve, prices: Prices, coin: Coin, q: Quotes)
    requires SettleLinked(s, link, r, prices).Ok? && Sane(s.data.conds)
    ensures
      var s', c := SettleLinked(s, link, r, prices).value, LinkOn(s, link);
      && Sane(s'.data.conds)
      && OwedBy(s', coin) == OwedBy(s, coin) + PaidBy(c, coin, r, prices)
      && LockedBy(s', coin, q) == LockedBy(s, coin, q) - Freed(c, coin, q)
      && Held(s', coin) == Held(s, coin)
  {
    if LinkOn(s, link).Some? {
      var s', c := SettleLinked(s, link, r, prices).value, s.data.conds[link.value];
      SumDrop(s.data.conds, LockWeight(coin, q), link.value);
      if c.action in s'.data.acts {
        SumPut(s.data.acts, OwedWeight(coin), c.action, s'.data.acts[c.action]);
        assert s'.data.acts == s.data.acts || s'.data.acts == s.data.acts[c.action := s'.data.acts[c.action]];
      }
    }
  }

  /** Executing moves Available by exactly this, in every coin: each side gets back the lock of its own conditional and
      what the other side pays, and loses what it pays itself. */
  lemma ExecutionMovesAvailable(payer: Account, other: Account, id: Conditional, link: Option<Conditional>, r: Resolve,
                                prices: Prices, coin: Coin, q: Quotes)
    requires SettleOnSide(payer.side, id, r).Ok? && SettleLinked(other.side, link, r, prices).Ok?
    requires Sane(payer.side.data.conds) && Sane(other.side.data.conds)
    ensures
      var c, l := Some(payer.side.data.conds[id]), LinkOn(other.side, link);
      var paid, linkPaid := Only(coin, c.value.action.coin, Paid(c.value, r)), PaidBy(l, coin, r, prices);
      var payer', other' := payer.(side := SettleOnSide(payer.side, id, r).value),
                            other.(side := SettleLinked(other.side, link, r, prices).value);
      && BalanceOf(payer', other', coin, q).Available() ==
           BalanceOf(payer, other, coin, q).Available() + Freed(c, coin, q) - paid + linkPaid
      && BalanceOf(other', payer', coin, q).Available() ==
           BalanceOf(other, payer, coin, q).Available() + Freed(l, coin, q) - linkPaid + paid
  {
    var s, t := SettleOnSide(payer.side, id, r).value, SettleLinked(other.side, link, r, prices).value;
    var c, l := payer.side.data.conds[id], LinkOn(other.side, link);
    SettledSums(payer.side, id, r, coin, q);
    LinkedSums(other.side, link, r, prices, coin, q);
    var paid, linkPaid := Only(coin, c.action.coin, Paid(c, r)), PaidBy(l, coin, r, prices);
    AvailableMoves(payer, other, s, t, coin, q, paid, linkPaid, Freed(Some(c), coin, q));
    AvailableMoves(other, payer, t, s, coin, q, linkPaid, paid, Freed(l, coin, q));
  }

  /** A state let through as new costs no more than was locked, at any price. */
  lemma LockCovers(c: Conditional, r: Resolve, prices: Prices, latest: map<nat, int>, q: Quotes)
    requires CondOk(c) && Validate(c, None, r, prices, latest).Fit? && Priceable(c, q)
    ensures 0 <= Paid(c, r) <= LockOf(c, q)
  {
  }

  lemma LinkLockCovers(c: Conditional, r: Resolve, prices: Prices, q: Quotes)
    requires CondOk(c) && c.Resolvable? && Priceable(c, q)
    ensures 0 <= LinkPaid(c, r, prices) <= LockOf(c, q)
  {
  }

  /** A signed state costs no more than was locked exactly when it is within the capacity, or already prepaid. */
  lemma LockCoversState(c: Conditional, r: Resolve, q: Quotes)
    requires c.Virtual? && c.prepay >= 0 && r.Signed? && r.signer == c.key
    ensures Paid(c, r) <= LockOf(c, q) <==> r.amount <= c.capacity || r.amount + c.fee <= c.prepay
  {
  }

  /** Both accounts of a channel, as the node that owns the row sees them. */
  ghost predicate AccountsOf(ch: Chan, our: Account, their: Account) {
    our.side == ch.our && their.side == ch.their && Sane(ch.our.data.conds) && Sane(ch.their.data.conds)
  }

  /** The conditional executed and the derivative linked to it have a price, or there would be no balance to speak
      of. */
  ghost predicate Quoted(payer: Side, other: Side, id: Conditional, link: Option<Conditional>, q: Quotes) {
    && id in payer.data.conds && Priceable(payer.data.conds[id], q)
    && (LinkOn(other, link).Some? ==> LinkOn(other, link).value.Resolvable? && Priceable(LinkOn(other, link).value, q))
  }

  lemma SettlingPairCovered(payer: Account, other: Account, id: Conditional, link: Option<Conditional>, r: Resolve,
                            prices: Prices, latest: map<nat, int>, coin: Coin, q: Quotes)
    requires SettleOnSide(payer.side, id, r).Ok? && SettleLinked(other.side, link, r, prices).Ok?
    requires Sane(payer.side.data.conds) && Sane(other.side.data.conds) && Quoted(payer.side, other.side, id, link, q)
    requires Validate(payer.side.data.conds[id], None, r, prices, latest).Fit?
    ensures
      var payer', other' := payer.(side := SettleOnSide(payer.side, id, r).value),
                            other.(side := SettleLinked(other.side, link, r, prices).value);
      && BalanceOf(other', payer', coin, q).Available() >= BalanceOf(other, payer, coin, q).Available()
      && BalanceOf(payer', other', coin, q).Available() >= BalanceOf(payer, other, coin, q).Available()
  {
    ExecutionMovesAvailable(payer, other, id, link, r, prices, coin, q);
    LockCovers(payer.side.data.conds[id], r, prices, latest, q);
    if LinkOn(other.side, link).Some? {
      LinkLockCovers(LinkOn(other.side, link).value, r, prices, q);
    }
  }

  /** Whatever execution a node proposes has been validated: a signed amount is within the capacity. */
  lemma ProposedExecutionIsWithinCapacity(ch: Chan, id: Conditional, r: Resolve, w: World, loc: Local)
    requires ProposeStep(ch, ExecuteCond(id, r), w, loc).Changed?
    ensures
      var c := ch.their.data.conds[id];
      && Validate(c, None, r, w.prices, w.latest).Fit?
      && (c.Virtual? ==> r.Signed? && r.signer == c.key && 0 <= r.amount <= c.capacity)
  {
  }

  /** In no coin has either side's Available dropped. */
  ghost predicate NeverLower(after: Chan, our: Account, their: Account, coin: Coin, q: Quotes) {
    var our', their' := our.(side := after.our), their.(side := after.their);
    && BalanceOf(their', our', coin, q).Available() >= BalanceOf(their, our, coin, q).Available()
    && BalanceOf(our', their', coin, q).Available() >= BalanceOf(our, their, coin, q).Available()
  }

  /** The whole execution as its proposer carries it out: in no coin does either side's Available drop. */
  lemma ProposedExecutionNeverLowersAvailable(ch: Chan, our: Account, their: Account, id: Conditional, r: Resolve,
                                              w: World, loc: Local, coin: Coin, q: Quotes)
    requires AccountsOf(ch, our, their) && ProposeStep(ch, ExecuteCond(id, r), w, loc).Changed?
    requires Quoted(ch.their, ch.our, id,
                    Found(ExecuteLink(loc.metas, ch.their.data.conds[id].key), ch.our.data.conds), q)
    ensures NeverLower(ProposeStep(ch, ExecuteCond(id, r), w, loc).ch, our, their, coin, q)
  {
    var link := Found(ExecuteLink(loc.metas, ch.their.data.conds[id].key), ch.our.data.conds);
    SettlingPairCovered(their, our, id, link, r, w.prices, w.latest, coin, q);
  }

  /** The receiver's own guard, for a virtual channel: its known resolve must not exceed the capacity by more than
      one. */
  ghost predicate KnownCovers(ch: Chan, id: Conditional, loc: Local) {
    id in ch.our.data.conds && ch.our.data.conds[id].key in loc.metas ==>
      var c, known := ch.our.data.conds[id], loc.metas[ch.our.data.conds[id].key].known;
      c.Virtual? && known.Some? && known.value.Signed? ==> known.value.amount <= c.capacity + 1
  }

  lemma ReceivedExecutionIsWithinCapacity(ch: Chan, id: Conditional, r: Resolve, w: World, loc: Local)
    requires id in ch.our.data.conds && ReceiveStep(ch, ExecuteCond(id, r), w, loc).Ok? && KnownCovers(ch, id, loc)
    ensures Validate(ch.our.data.conds[id], None, r, w.prices, w.latest).Fit?
  {
  }

  /** An execution both ends agree on needs no such guard: the proposer's validation is of the same conditional. */
  lemma AgreedExecutionIsWithinCapacity(p: Chan, r: Chan, id: Conditional, s: Resolve, w: World, lp: Local, lr: Local)
    requires Mirror(p, r)
    requires ProposeStep(p, ExecuteCond(id, s), w, lp).Changed? && ReceiveStep(r, ExecuteCond(id, s), w, lr).Ok?
    ensures id in r.our.data.conds && Validate(r.our.data.conds[id], None, s, w.prices, w.latest).Fit?
  {
  }

  /** The linked conditional the paying side finds. */
  function PayersLink(ch: Chan, id: Conditional, loc: Local): Option<Conditional>
    requires id in ch.our.data.conds && ch.our.data.conds[id].key in loc.metas
    requires ReceiverLink(loc.metas, ch.our.data.conds[id].key).Ok?
  {
    Found(ReceiverLink(loc.metas, ch.our.data.conds[id].key).value, ch.their.data.conds)
  }

  /** The whole execution as the paying side carries it out, under its own guard. */
  lemma ReceivedExecutionNeverLowersAvailable(ch: Chan, our: Account, their: Account, id: Conditional, r: Resolve,
                                              w: World, loc: Local, coin: Coin, q: Quotes)
    requires AccountsOf(ch, our, their) && id in ch.our.data.conds && ReceiveStep(ch, ExecuteCond(id, r), w, loc).Ok?
    requires KnownCovers(ch, id, loc) && Quoted(ch.our, ch.their, id, PayersLink(ch, id, loc), q)
    ensures NeverLower(ReceiveStep(ch, ExecuteCond(id, r), w, loc).value, our, their, coin, q)
  {
    ReceivedExecutionIsWithinCapacity(ch, id, r, w, loc);
    SettlingPairCovered(our, their, id, PayersLink(ch, id, loc), r, w.prices, w.latest, coin, q);
  }

  /** The same for an execution the two ends agree on, with no guard of its own. */
  lemma AgreedExecutionNeverLowersAvailable(p: Chan, ch: Chan, our: Account, their: Account, id: Conditional,
                                            r: Resolve, w: World, lp: Local, loc: Local, coin: Coin, q: Quotes)
    requires Mirror(p, ch) && AccountsOf(ch, our, their) && ProposeStep(p, ExecuteCond(id, r), w, lp).Changed?
    requires id in ch.our.data.conds && ReceiveStep(ch, ExecuteCond(id, r), w, loc).Ok?
    requires Quoted(ch.our, ch.their, id, PayersLink(ch, id, loc), q)
    ensures NeverLower(ReceiveStep(ch, ExecuteCond(id, r), w, loc).value, our, their, coin, q)
  {
    AgreedExecutionIsWithinCapacity(p, ch, id, r, w, lp, loc);
    SettlingPairCovered(our, their, id, PayersLink(ch, id, loc), r, w.prices, w.latest, coin, q);
  }

  // ---------- prepaying and committing ----------

  /** The part of a prepay beyond what was locked for it. */
  function Excess(c: Conditional): int
    requires c.Virtual?
  {
    Max(c.prepay - (c.capacity + c.fee), 0)
  }

  lemma PrepaySums(s: Side, id: Conditional, u: Conditional, coin: Coin, q: Quotes)
    requires CommitOnSide(s, id, u).Ok? && Sane(s.data.conds)
    ensures
      var s', c := CommitOnSide(s, id, u).value, s.data.conds[id];
      && Sane(s'.data.conds) && Held(s', coin) == Held(s, coin)
      && OwedBy(s', coin) == OwedBy(s, coin) + Only(coin, c.action.coin, u.prepay - c.prepay)
      && LockedBy(s', coin, q) ==
           LockedBy(s, coin, q) - Only(coin, c.action.coin, u.prepay - c.prepay - (Excess(u) - Excess(c)))
  {
    var s', c := CommitOnSide(s, id, u).value, s.data.conds[id];
    SumPut(s.data.acts, OwedWeight(coin), c.action, s'.data.acts[c.action]);
    SumPut(s.data.conds, LockWeight(coin, q), id, u);
  }

  /** Prepaying leaves the payer's Available as it was, since the lock shrinks by what is paid, but for what goes
      beyond the capacity and fee. The other side gains the prepaid part. */
  lemma PrepayMovesAvailable(mine: Account, peer: Account, id: Conditional, u: Conditional, coin: Coin, q: Quotes)
    requires CommitOnSide(mine.side, id, u).Ok? && Sane(mine.side.data.conds)
    ensures
      var after, c := mine.(side := CommitOnSide(mine.side, id, u).value), mine.side.data.conds[id];
      && BalanceOf(after, peer, coin, q).Available() ==
           BalanceOf(mine, peer, coin, q).Available() - Only(coin, c.action.coin, Excess(u) - Excess(c))
      && BalanceOf(peer, after, coin, q).Available() ==
           BalanceOf(peer, mine, coin, q).Available() + Only(coin, c.action.coin, u.prepay - c.prepay)
  {
    var s, c := CommitOnSide(mine.side, id, u).value, mine.side.data.conds[id];
    PrepaySums(mine.side, id, u, coin, q);
    var paid := Only(coin, c.action.coin, u.prepay - c.prepay);
    AvailableMoves(mine, peer, s, peer.side, coin, q, paid, 0, paid - Only(coin, c.action.coin, Excess(u) - Excess(c)));
  }

  /** Signing a payout of what is owed holds back the same coins, so the payer's Available stays as it was
      unless the prepared amount is negative. */
  lemma CommittingKeepsAvailable(mine: Account, peer: Account, a: SendAction, seqno: nat, coin: Coin, q: Quotes)
    requires mine.side.transfers == map[]
    requires PreparedOn(mine.side, a, seqno).Ok? && PreparedOn(mine.side, a, seqno).value.Some?
    ensures
      var st := PreparedOn(mine.side, a, seqno).value;
      var after := mine.(side := CommittedSide(mine.side, a, seqno, st));
      && BalanceOf(after, peer, coin, q).Available() ==
           BalanceOf(mine, peer, coin, q).Available() + Only(coin, a.coin, Min(st.value.amount, 0))
      && BalanceOf(peer, after, coin, q).Available() ==
           BalanceOf(peer, mine, coin, q).Available() - Only(coin, a.coin, st.value.amount)
  {
    var st := PreparedOn(mine.side, a, seqno).value.value;
    SumPut(mine.side.data.acts, OwedWeight(coin), a, st);
    var amounts: map<Coin, int> := map[a.coin := st.committed];
    SumPut(mine.side.transfers, HoldWeight(coin), seqno, amounts);
    assert Held(mine.side, coin) == 0;
  }

  /** A fee paid for rented capacity, or a swapped amount, moves from one side to the other. */
  lemma PayingMovesAvailable(mine: Account, peer: Account, a: SendAction, x: int, coin: Coin, q: Quotes)
    ensures
      var after := mine.(side := PayOnSide(mine.side, a, x));
      && BalanceOf(after, peer, coin, q).Available() ==
           BalanceOf(mine, peer, coin, q).Available() - Only(coin, a.coin, x)
      && BalanceOf(peer, after, coin, q).Available() ==
           BalanceOf(peer, mine, coin, q).Available() + Only(coin, a.coin, x)
  {
    SumPut(mine.side.data.acts, OwedWeight(coin), a, AddCoins(ActionState(mine.side.data.acts, a), x));
  }

  // ---------- adding and removing a conditional ----------

  /** Adding a virtual channel lowers the payer's Available by exactly its lock, and changes nothing for the other
      side. */
  lemma AddingLocks(ch: Chan, mine: Account, peer: Account, c: Conditional, newAction: Option<SendAction>, w: World,
                    loc: Local, coin: Coin, q: Quotes)
    requires mine.side == ch.our && Sane(ch.our.data.conds) && c.Virtual?
             && ProposeAdd(ch, c, newAction, w, loc).Changed?
    ensures
      var after := mine.(side := ProposeAdd(ch, c, newAction, w, loc).ch.our);
      && BalanceOf(after, peer, coin, q).Available() ==
           BalanceOf(mine, peer, coin, q).Available() - Only(coin, c.action.coin, c.capacity + c.fee)
      && BalanceOf(peer, after, coin, q).Available() == BalanceOf(peer, mine, coin, q).Available()
  {
    var s' := ProposeAdd(ch, c, newAction, w, loc).ch.our;
    SumPut(ch.our.data.conds, LockWeight(coin, q), c, c);
    SumPut(ch.our.data.acts, OwedWeight(coin), c.action, EMPTY_SEND);
    AvailableMoves(mine, peer, s', peer.side, coin, q, 0, 0, -Only(coin, c.action.coin, c.capacity + c.fee));
  }

  /** Removing a conditional unpaid gives its payer the whole lock back; the other side gets back the lock of the
      linked one dropped with it, and nothing when there is none. */
  lemma RemovingFrees(ch: Chan, our: Account, their: Account, id: Conditional, loc: Local, coin: Coin, q: Quotes)
    requires AccountsOf(ch, our, their) && ProposeRemove(ch, id, loc).Changed?
    ensures
      var after, c := ProposeRemove(ch, id, loc).ch, ch.their.data.conds[id];
      var l := LinkOn(ch.our, RemoveLink(loc.metas, c.key));
      var our', their' := our.(side := after.our), their.(side := after.their);
      && BalanceOf(their', our', coin, q).Available() ==
           BalanceOf(their, our, coin, q).Available() + Freed(Some(c), coin, q)
      && BalanceOf(our', their', coin, q).Available() == BalanceOf(our, their, coin, q).Available() + Freed(l, coin, q)
  {
    var after, c := ProposeRemove(ch, id, loc).ch, ch.their.data.conds[id];
    DroppedSums(ch.their, Some(id), coin, q);
    DroppedSums(ch.our, Found(RemoveLink(loc.metas, c.key), ch.our.data.conds), coin, q);
    AvailableMoves(their, our, after.their, after.our, coin, q, 0, 0, Freed(Some(c), coin, q));
    AvailableMoves(our, their, after.our, after.their, coin, q, 0, 0,
                   Freed(LinkOn(ch.our, RemoveLink(loc.metas, c.key)), coin, q));
  }

  lemma DroppedSums(s: Side, id: Option<Conditional>, coin: Coin, q: Quotes)
    requires id.Some? ==> id.value in s.data.conds
    ensures Sum(Without(s.data.conds, id), LockWeight(coin, q)) == LockedBy(s, coin, q) - Freed(LinkOn(s, id), coin, q)
  {
    if id.Some? {
      SumDrop(s.data.conds, LockWeight(coin, q), id.value);
    }
  }
}
