/** What one agreed step does to a channel, in the amounts it carries: who owes what afterwards, and to whom. */
module StepTheorems {
  import opened Prelude
  import opened Arith
  import opened Rent
  import opened Payments
  import opened Channel
  import opened Derivatives
  import opened Balance
  import opened BalanceTheorems
  import opened RowData
  import Payout

  /** What a side owes through one action and has not yet committed. */
  function OwedThrough(s: Side, a: SendAction): int {
    if a in s.data.acts then s.data.acts[a].amount - s.data.acts[a].committed else 0
  }

  /** The side of the left and of the right party. */
  function LeftOf(ch: Chan): Side { if ch.us.Left? then ch.our else ch.their }

  function RightOf(ch: Chan): Side { if ch.us.Left? then ch.their else ch.our }

  // ---------- cooperative commit ----------

  /** The state a payout puts in place of a side's: everything owed, committed at the payout's seqno. */
  predicate PaysOut(s: Side, a: SendAction, seqno: nat, st: Option<SendState>) {
    if a in s.data.acts then st == Some(SendState(OwedThrough(s, a), OwedThrough(s, a), seqno)) else st == None
  }

  /** The message names the left side's state first and the right side's second, each with what that side owes. */
  lemma CommitMessageSays(ch: Chan, a: SendAction, fromA: bool)
    requires CommitRequest(ch, a, fromA).Ok?
    ensures
      var m := CommitRequest(ch, a, fromA).value;
      && m.seqno == CurrentBody(ch).seqno + 1 && m.fromA == fromA && m.action == a
      && PaysOut(LeftOf(ch), a, m.seqno, m.stateA) && PaysOut(RightOf(ch), a, m.seqno, m.stateB)
      && (a in ch.our.data.acts || a in ch.their.data.acts)
  {
  }

  /** A payout can be built exactly when some side has a state of the action, and none was committed at that seqno or
      later. */
  lemma CommitRequestExactly(ch: Chan, a: SendAction, fromA: bool)
    ensures CommitRequest(ch, a, fromA).Ok? <==>
              (&& (a in ch.our.data.acts || a in ch.their.data.acts)
               && (a in ch.our.data.acts ==> ch.our.data.acts[a].seqno <= CurrentBody(ch).seqno)
               && (a in ch.their.data.acts ==> ch.their.data.acts[a].seqno <= CurrentBody(ch).seqno))
  {
  }

  /** Each end carries it out exactly when nothing is pending, the payout can be built, and the proposer's signature is
      on that very message. */
  lemma CommitStepsExactly(ch: Chan, a: SendAction, sig: CommitSig, w: World, loc: Local)
    requires loc.approves
    ensures !ProposeStep(ch, CoopCommit(a, sig), w, loc).Same?
    ensures ProposeStep(ch, CoopCommit(a, sig), w, loc).Changed? <==>
              (&& ch.pendingCommit == None && ch.our.transfers == map[] && ch.their.transfers == map[]
               && sig.signer == ch.us && CommitRequest(ch, a, ch.us == Left) == Ok(sig.msg))
    ensures ReceiveStep(ch, CoopCommit(a, sig), w, loc).Ok? <==>
              (&& ch.pendingCommit == None && ch.our.transfers == map[] && ch.their.transfers == map[]
               && sig.signer == ch.us.Other() && CommitRequest(ch, a, ch.us == Right) == Ok(sig.msg))
  {
  }

  /** So the contract pays from left to right exactly what the left side owes more than the right one, once. */
  lemma CommitPaysTheDifference(ch: Chan, a: SendAction, fromA: bool, chain: nat)
    requires CommitRequest(ch, a, fromA).Ok? && Owing(ch.our.data.acts) && Owing(ch.their.data.acts)
    ensures
      var m := CommitRequest(ch, a, fromA).value;
      Payout.ContractNet(chain, m.stateA, m.stateB) ==
        if chain < m.seqno then OwedThrough(LeftOf(ch), a) - OwedThrough(RightOf(ch), a) else 0
  {
    CommitMessageSays(ch, a, fromA);
    assert OwedThrough(LeftOf(ch), a) >= 0 && OwedThrough(RightOf(ch), a) >= 0;
  }

  /** Of a side, a payout moves what it owed through the action from owed to held, and touches nothing else. */
  ghost predicate MovedToHold(s: Side, s': Side, a: SendAction, coin: Coin) {
    && s'.data.conds == s.data.conds && s'.deposits == s.deposits
    && Held(s, coin) == 0 && Held(s', coin) == Only(coin, a.coin, OwedThrough(s, a))
    && OwedBy(s', coin) == OwedBy(s, coin) - Only(coin, a.coin, OwedThrough(s, a))
  }

  lemma PayoutMovesToHold(s: Side, a: SendAction, seqno: nat, coin: Coin)
    requires PreparedOn(s, a, seqno).Ok? && s.transfers == map[]
    ensures MovedToHold(s, CommittedSide(s, a, seqno, PreparedOn(s, a, seqno).value), a, coin)
  {
    var st := PreparedOn(s, a, seqno).value;
    if st.Some? {
      SumPut(s.data.acts, OwedWeight(coin), a, st.value);
      var amounts: map<Coin, int> := map[a.coin := st.value.committed];
      SumPut(s.transfers, HoldWeight(coin), seqno, amounts);
    }
  }

  lemma CommitMovesBothSides(ch: Chan, a: SendAction, fromA: bool, coin: Coin)
    requires MayCommit(ch) && CommitRequest(ch, a, fromA).Ok?
    ensures
      var m := CommitRequest(ch, a, fromA).value;
      var after := WithCommit(ch, m);
      && MovedToHold(ch.our, after.our, a, coin) && MovedToHold(ch.their, after.their, a, coin)
      && after.pendingCommit == Some(m)
  {
    PayoutMovesToHold(ch.our, a, CurrentBody(ch).seqno + 1, coin);
    PayoutMovesToHold(ch.their, a, CurrentBody(ch).seqno + 1, coin);
  }

  /** The whole step at both ends: the proposer signs the message, the receiver checks the proposer's signature on the
      same one; each side's debt moves to hold on that very side, in every coin; nothing else changes. */
  lemma ProposedCommitMovesToHold(ch: Chan, a: SendAction, sig: CommitSig, w: World, loc: Local, coin: Coin)
    requires ProposeStep(ch, CoopCommit(a, sig), w, loc).Changed?
    ensures
      var after := ProposeStep(ch, CoopCommit(a, sig), w, loc).ch;
      && MovedToHold(ch.our, after.our, a, coin) && MovedToHold(ch.their, after.their, a, coin)
      && ch.pendingCommit == None && after.pendingCommit == Some(sig.msg) && sig.signer == ch.us
      && sig.msg.fromA == ch.us.Left? && CommitRequest(ch, a, ch.us.Left?) == Ok(sig.msg)
  {
    CommitMovesBothSides(ch, a, ch.us.Left?, coin);
  }

  lemma ReceivedCommitMovesToHold(ch: Chan, a: SendAction, sig: CommitSig, w: World, loc: Local, coin: Coin)
    requires ReceiveStep(ch, CoopCommit(a, sig), w, loc).Ok?
    ensures
      var after := ReceiveStep(ch, CoopCommit(a, sig), w, loc).value;
      && MovedToHold(ch.our, after.our, a, coin) && MovedToHold(ch.their, after.their, a, coin)
      && ch.pendingCommit == None && after.pendingCommit == Some(sig.msg) && sig.signer == ch.us.Other()
      && sig.msg.fromA == ch.us.Right? && CommitRequest(ch, a, ch.us.Right?) == Ok(sig.msg)
  {
    CommitMovesBothSides(ch, a, ch.us.Right?, coin);
  }

  /** Hence each side's Available falls by what the other had been owing it through the action, until the payout
      lands. */
  lemma CommitMovesAvailable(mine: Account, peer: Account, s: Side, t: Side, a: SendAction, coin: Coin, q: Quotes)
    requires MovedToHold(mine.side, s, a, coin) && MovedToHold(peer.side, t, a, coin)
    requires Sane(mine.side.data.conds) && OwedThrough(mine.side, a) >= 0
    ensures BalanceOf(mine.(side := s), peer.(side := t), coin, q).Available() ==
            BalanceOf(mine, peer, coin, q).Available() - Only(coin, a.coin, OwedThrough(peer.side, a))
  {
  }

  // ---------- executing a conditional ----------

  /** The payment an execution adds, by the amount its resolve claims. */
  predicate Pays(c: Conditional, r: Resolve, paid: int) {
    if c.Virtual? then paid == Max(r.amount + c.fee - c.prepay, 0)
    else if r.amount == 0 then paid == 0
    else if c.isInitiator then paid == Min(r.amount, c.amount) + c.fee
    else paid == Max(Min(r.amount, c.amount) - c.fee, 0)
  }

  /** Of the paying side: the conditional goes, its action grows by the payment, the rented deposit of that coin counts
      as much more used, up to its size. */
  ghost predicate PaidAndGone(s: Side, s': Side, id: Conditional, paid: int) {
    && id in s.data.conds && s.data.conds[id].action in s.data.acts
    && var a := s.data.conds[id].action;
       var was := s.data.acts[a];
       && s'.data.conds == s.data.conds - {id} && s'.transfers == s.transfers
       && s'.data.acts == s.data.acts[a := SendState(was.amount + paid, was.committed, was.seqno)]
       && s'.deposits.Keys == s.deposits.Keys
       && forall coin :: coin in s.deposits ==>
            s'.deposits[coin] == if coin != a.coin then s.deposits[coin] else
              s.deposits[coin].(used := Min(s.deposits[coin].used + paid, s.deposits[coin].amount))
  }

  lemma SettlingPays(s: Side, id: Conditional, r: Resolve) returns (paid: int)
    requires SettleOnSide(s, id, r).Ok? && Sane(s.data.conds) && Within(s.deposits)
    ensures PaidAndGone(s, SettleOnSide(s, id, r).value, id, paid) && Pays(s.data.conds[id], r, paid)
  {
    paid := Paid(s.data.conds[id], r);
  }

  /** The loss behind a derivative's resolve that was let through. */
  lemma ClaimIsNearLoss(c: Conditional, r: Resolve, prices: Prices, latest: map<nat, int>) returns (loss: int)
    requires c.Resolvable? && CondOk(c) && Validate(c, None, r, prices, latest).Fit?
    ensures r.Priced? && (c.details.asset, r.at) in prices && r.amount >= 0
    ensures LossOf(c, prices[(c.details.asset, r.at)], loss) && loss - 1 <= r.amount <= loss + 1
  {
    DerivativeLetThroughExactly(c, None, r, prices, latest);
    loss :| LossOf(c, prices[(c.details.asset, r.at)], loss) && loss - 1 <= r.amount <= loss + 1;
  }

  /** What executing a derivative costs its payer, by the price: at most one above the loss, and nothing but that one
      and the fee when the price has not moved against it. */
  ghost predicate CostsTheLoss(c: Conditional, price: int, paid: int)
    requires c.Resolvable?
  {
    exists loss :: LossOf(c, price, loss) && 0 <= paid <= loss + 1 + (if c.isInitiator then c.fee else 0)
      && (loss > 1 ==> paid >= loss - 1 - (if c.isInitiator then 0 else c.fee))
      && ((if c.details.isLong then price >= c.details.entry else price <= c.details.entry) ==> loss == 0)
  }

  lemma PaymentIsTheLoss(c: Conditional, r: Resolve, prices: Prices, latest: map<nat, int>, paid: int)
    requires c.Resolvable? && CondOk(c) && Validate(c, None, r, prices, latest).Fit? && Pays(c, r, paid)
    ensures (c.details.asset, r.at) in prices && CostsTheLoss(c, prices[(c.details.asset, r.at)], paid)
  {
    var loss := ClaimIsNearLoss(c, r, prices, latest);
  }

  /** The whole execution at its proposer: the other side pays by the resolve, and a derivative by the price. */
  lemma ProposedExecutionPays(ch: Chan, id: Conditional, r: Resolve, w: World, loc: Local) returns (paid: int)
    requires Sound(ch) && ProposeStep(ch, ExecuteCond(id, r), w, loc).Changed?
    ensures
      var c, after := ch.their.data.conds[id], ProposeStep(ch, ExecuteCond(id, r), w, loc).ch;
      && PaidAndGone(ch.their, after.their, id, paid) && Pays(c, r, paid) && c.Deadline() >= w.now
      && (c.Resolvable? ==>
            (c.details.asset, r.at) in w.prices && CostsTheLoss(c, w.prices[(c.details.asset, r.at)], paid))
  {
    var c := ch.their.data.conds[id];
    paid := SettlingPays(ch.their, id, r);
    if c.Resolvable? {
      PaymentIsTheLoss(c, r, w.prices, w.latest, paid);
    }
  }

  /** And at the paying node. */
  lemma ReceivedExecutionPays(ch: Chan, id: Conditional, r: Resolve, w: World, loc: Local) returns (paid: int)
    requires Sound(ch) && id in ch.our.data.conds && ReceiveStep(ch, ExecuteCond(id, r), w, loc).Ok?
    ensures
      var c, after := ch.our.data.conds[id], ReceiveStep(ch, ExecuteCond(id, r), w, loc).value;
      && PaidAndGone(ch.our, after.our, id, paid) && Pays(c, r, paid) && c.Deadline() >= w.now
      && (c.Resolvable? ==>
            (c.details.asset, r.at) in w.prices && CostsTheLoss(c, w.prices[(c.details.asset, r.at)], paid))
  {
    var c := ch.our.data.conds[id];
    paid := SettlingPays(ch.our, id, r);
    if c.Resolvable? {
      var known := loc.metas[c.key].known;
      DerivativeLetThroughExactly(c, known, r, w.prices, w.latest);
      DerivativeLetThroughExactly(c, None, r, w.prices, w.latest);
      PaymentIsTheLoss(c, r, w.prices, w.latest, paid);
    }
  }

  /** The derivative linked to it goes with it: it pays its own loss when the first claims nothing, otherwise
      nothing. */
  lemma LinkedSettlesItsLoss(s: Side, link: Conditional, r: Resolve, prices: Prices) returns (paid: int)
    requires link in s.data.conds && s.data.conds[link].Resolvable? && Sane(s.data.conds) && Within(s.deposits)
    requires SettleLinked(s, Some(link), r, prices).Ok? && s.data.conds[link].action in s.data.acts && r.amount >= 0
    ensures
      var c := s.data.conds[link];
      && PaidAndGone(s, SettleLinked(s, Some(link), r, prices).value, link, paid)
      && (r.amount > 0 ==> paid == 0)
      && (r.amount == 0 ==>
            && r.Priced? && (c.details.asset, r.at) in prices
            && exists loss :: LossOf(c, prices[(c.details.asset, r.at)], loss)
                 && Pays(c, Priced(c.key, loss, r.at), paid))
  {
    var c := s.data.conds[link];
    var lr := LinkedResolve(r, c, prices).value;
    paid := if lr.None? then 0 else Need(c, lr.value).value;
    if r.amount == 0 {
      LinkedResolveIsTheLoss(r, c, prices);
    }
  }

  // ---------- renting and swapping ----------

  /** A rent's fee, written out: free capacity for the added time and new capacity for the whole time, at the coin's
      rate, rounded up, plus the fixed part; nothing when there is no time or nothing new. */
  predicate IsFee(t: Tariff, ld: Option<Locked>, o: Order, now: int, fee: int)
    requires t.rateDen > 0
  {
    var active := ld.Some? && ld.value.till > now;
    var has, used, till := if active then ld.value.amount else 0, if active then ld.value.used else 0,
                           if active then ld.value.till else now;
    if o.till <= now || o.amount <= has then fee == 0
    else
      var kept := if has > used && o.till > till then (has - used) * (o.till - till) else 0;
      var cost := (kept + (o.amount - has) * (o.till - now)) * t.rateNum;
      t.rateDen * (fee - t.fixedFee - 1) < cost <= t.rateDen * (fee - t.fixedFee)
  }

  lemma DepositFeeIsWritten(t: Tariff, ld: Option<Locked>, o: Order, now: int)
    requires t.rateDen > 0
    ensures IsFee(t, ld, o, now, DepositFee(t, ld, o, now))
  {
    if o.till > now && o.amount > InForce(ld, now).amount {
      var cost, q := ChargedUnits(ld, o, now) * t.rateNum, DepositFee(t, ld, o, now) - t.fixedFee;
      CeilAtMost(cost, t.rateDen, q);
      CeilAtMost(cost, t.rateDen, q - 1);
    }
  }

  /** Of the renting side: it owes the fee through the coin's own action, and nothing else of it changes. */
  ghost predicate OwesMore(s: Side, s': Side, a: SendAction, x: int) {
    && s'.data.conds == s.data.conds && s'.deposits == s.deposits && s'.transfers == s.transfers
    && var was := if a in s.data.acts then s.data.acts[a] else SendState(0, 0, 0);
       s'.data.acts == s.data.acts[a := SendState(was.amount + x, was.committed, was.seqno)]
  }

  /** Of the side rented from: the deposit of that coin is as ordered, and keeps what an active one had used. */
  ghost predicate DepositIs(s: Side, s': Side, coin: Coin, o: Order, now: int) {
    && s'.data == s.data && s'.transfers == s.transfers
    && var used := if coin in s.deposits && s.deposits[coin].till > now then s.deposits[coin].used else 0;
       s'.deposits == s.deposits[coin := Locked(o.amount, o.till, used)]
  }

  /** The deposit held now, if any. */
  function RentedNow(s: Side, coin: Coin): Option<Locked> {
    if coin in s.deposits then Some(s.deposits[coin]) else None
  }

  /** The proposer of a rent pays the fee for the other side's deposit; an active deposit only grows in size and not
      shrinks in term. */
  lemma ProposedRentCharges(ch: Chan, coin: Coin, o: Order, w: World, loc: Local) returns (fee: int)
    requires ProposeStep(ch, RentCapacity(coin, o), w, loc).Changed?
    ensures coin in w.tariffs && w.tariffs[coin].rateDen > 0
    ensures
      var after := ProposeStep(ch, RentCapacity(coin, o), w, loc).ch;
      && IsFee(w.tariffs[coin], RentedNow(ch.their, coin), o, w.now, fee)
      && OwesMore(ch.our, after.our, SendAction(coin, w.addrA, w.addrB), fee)
      && DepositIs(ch.their, after.their, coin, o, w.now)
      && (coin in ch.their.deposits && ch.their.deposits[coin].till > w.now ==>
            o.amount > ch.their.deposits[coin].amount && o.till >= ch.their.deposits[coin].till)
  {
    fee := DepositFee(w.tariffs[coin], DepositOf(ch.their.deposits, coin), o, w.now);
    DepositFeeIsWritten(w.tariffs[coin], DepositOf(ch.their.deposits, coin), o, w.now);
  }

  /** And that is all a proposer has to see to. */
  lemma ProposedRentExactly(ch: Chan, coin: Coin, o: Order, w: World, loc: Local)
    requires loc.approves
    ensures !ProposeStep(ch, RentCapacity(coin, o), w, loc).Same?
    ensures ProposeStep(ch, RentCapacity(coin, o), w, loc).Changed? <==>
              (&& coin in w.tariffs && w.tariffs[coin].rateDen > 0
               && (coin in ch.their.deposits && ch.their.deposits[coin].till > w.now ==>
                     ch.their.deposits[coin].amount < o.amount && ch.their.deposits[coin].till <= o.till))
  {
  }

  /** The side rented from is owed the same fee; it accepts nothing for longer than 366 days, nothing that is not an
      increase within its limit, and nothing for free. */
  lemma ReceivedRentCharges(ch: Chan, coin: Coin, o: Order, w: World, loc: Local) returns (fee: int)
    requires ReceiveStep(ch, RentCapacity(coin, o), w, loc).Ok?
    ensures coin in w.tariffs && w.tariffs[coin].rateDen > 0 && coin in w.maxRent
    ensures
      var after := ReceiveStep(ch, RentCapacity(coin, o), w, loc).value;
      && IsFee(w.tariffs[coin], RentedNow(ch.our, coin), o, w.now, fee) && fee > 0
      && OwesMore(ch.their, after.their, SendAction(coin, w.addrA, w.addrB), fee)
      && DepositIs(ch.our, after.our, coin, o, w.now)
      && o.till - w.now <= 366 * 24 * 60 * 60
      && var has := if coin in ch.our.deposits && ch.our.deposits[coin].till > w.now
         then ch.our.deposits[coin].amount else 0;
         0 < o.amount - has <= w.maxRent[coin]
  {
    fee := DepositFee(w.tariffs[coin], DepositOf(ch.our.deposits, coin), o, w.now);
    DepositFeeIsWritten(w.tariffs[coin], DepositOf(ch.our.deposits, coin), o, w.now);
  }

  /** What an end adds to its own demands: a mirrored rent the proposer can make is accepted exactly when it is for a
      coin on offer, within the term and the limit, and costs something. */
  lemma RentIsAcceptedExactly(p: Chan, r: Chan, coin: Coin, o: Order, w: World, lp: Local, lr: Local, fee: int)
    requires Mirror(p, r) && ProposeStep(p, RentCapacity(coin, o), w, lp).Changed? && lr.approves
    requires IsFee(w.tariffs[coin], RentedNow(r.our, coin), o, w.now, fee)
    ensures ReceiveStep(r, RentCapacity(coin, o), w, lr).Ok? <==>
              (&& coin in w.maxRent && o.till - w.now <= 366 * 24 * 60 * 60 && fee > 0
               && var has := if coin in r.our.deposits && r.our.deposits[coin].till > w.now
                             then r.our.deposits[coin].amount else 0;
                  0 < o.amount - has <= w.maxRent[coin])
  {
    var t, ld := w.tariffs[coin], DepositOf(r.our.deposits, coin);
    DepositFeeIsWritten(t, ld, o, w.now);
    FeeIsOne(t, ld, o, w.now, fee, DepositFee(t, ld, o, w.now));
  }

  lemma FeeIsOne(t: Tariff, ld: Option<Locked>, o: Order, now: int, x: int, y: int)
    requires t.rateDen > 0 && IsFee(t, ld, o, now, x) && IsFee(t, ld, o, now, y)
    ensures x == y
  {
    if x < y {
      MulMonotone(t.rateDen, x - t.fixedFee, y - t.fixedFee - 1);
    } else if y < x {
      MulMonotone(t.rateDen, y - t.fixedFee, x - t.fixedFee - 1);
    }
  }

  /** A swap: the proposer's side owes the one coin, the other side the other, each through its own action and each
      using its rented deposit. */
  ghost predicate Swapped(s: Side, s': Side, a: SendAction, x: nat) {
    && OwesMore(s.(deposits := s'.deposits), s', a, x) && s'.deposits.Keys == s.deposits.Keys
    && forall coin :: coin in s.deposits ==>
         s'.deposits[coin] == if coin != a.coin then s.deposits[coin] else
           s.deposits[coin].(used := Min(s.deposits[coin].used + x, s.deposits[coin].amount))
  }

  lemma ProposedSwapPays(ch: Chan, fromCoin: Coin, x: nat, toCoin: Coin, y: nat, w: World, loc: Local)
    requires ProposeStep(ch, Swap(fromCoin, x, toCoin, y), w, loc).Changed?
    ensures
      var after := ProposeStep(ch, Swap(fromCoin, x, toCoin, y), w, loc).ch;
      && Swapped(ch.our, after.our, SendAction(fromCoin, w.addrA, w.addrB), x)
      && Swapped(ch.their, after.their, SendAction(toCoin, w.addrA, w.addrB), y)
  {
  }

  lemma ReceivedSwapPays(ch: Chan, fromCoin: Coin, x: nat, toCoin: Coin, y: nat, w: World, loc: Local)
    requires ReceiveStep(ch, Swap(fromCoin, x, toCoin, y), w, loc).Ok?
    ensures
      var after := ReceiveStep(ch, Swap(fromCoin, x, toCoin, y), w, loc).value;
      && Swapped(ch.their, after.their, SendAction(fromCoin, w.addrA, w.addrB), x)
      && Swapped(ch.our, after.our, SendAction(toCoin, w.addrA, w.addrB), y)
  {
  }

  // ---------- adding a conditional ----------

  /** The other half of a derivative: same stake, entry and resolver, opposite direction and role, under the linked
      key. */
  predicate OtherHalf(c: Conditional, l: Conditional)
    requires c.Resolvable?
  {
    && l.Resolvable? && l.key == LinkedTo(c.key) && l.amount == c.amount && l.fee == c.fee && l.resolver == c.resolver
    && l.isInitiator == !c.isInitiator && l.details.isLong == !c.details.isLong && l.details.asset == c.details.asset
    && l.details.leverage == c.details.leverage && l.details.entry == c.details.entry
    && l.action == SendAction(c.action.coin, c.action.addrB, c.action.addrA)
  }

  /** What may be added: positive stakes, nothing prepaid, and time to settle on chain before the deadline. */
  predicate MayBeAdded(c: Conditional, w: World, minSafe: int) {
    && (if c.Virtual? then c.capacity > 0 && c.fee >= 0 && c.prepay == 0 && w.now <= c.deadline
                           && minSafe <= c.deadline - w.now - w.closePeriod
        else c.amount > 0 && c.fee >= 0 && 1 <= c.details.leverage <= 20
             && minSafe <= 32503680000 - w.now - w.closePeriod)
  }

  /** A side with a conditional put on it, and a fresh state for its action if there was none. */
  ghost predicate PutOn(s: Side, s': Side, c: Conditional) {
    && s'.deposits == s.deposits && s'.transfers == s.transfers && s'.data.conds == s.data.conds[c := c]
    && s'.data.acts == if c.action in s.data.acts then s.data.acts else s.data.acts[c.action := SendState(0, 0, 0)]
  }

  /** The proposer adds a conditional to its own side exactly when it may be added and its action is known or sent
      along; a derivative's other half goes to the other side, unless it is there. */
  lemma ProposedAddPuts(ch: Chan, c: Conditional, na: Option<SendAction>, w: World, loc: Local)
    requires loc.approves
    ensures ProposeStep(ch, AddCond(c, na), w, loc).Changed? <==>
              MayBeAdded(c, w, loc.minSafe) && c !in ch.our.data.conds && (c.action in ch.our.data.acts || na.Some?)
    ensures ProposeStep(ch, AddCond(c, na), w, loc).Same? <==>
              MayBeAdded(c, w, loc.minSafe) && c in ch.our.data.conds
    ensures ProposeStep(ch, AddCond(c, na), w, loc).Changed? ==>
      var after := ProposeStep(ch, AddCond(c, na), w, loc).ch;
      && PutOn(ch.our, after.our, c)
      && (c.Virtual? ==> after.their == ch.their)
      && (c.Resolvable? ==> OtherHalf(c, LinkedOf(c)) && EnsuredOn(ch.their, after.their, LinkedOf(c)))
  {
  }

  /** What is there already is kept. */
  ghost predicate EnsuredOn(s: Side, s': Side, c: Conditional) {
    && s'.deposits == s.deposits && s'.transfers == s.transfers
    && s'.data.conds == (if c in s.data.conds then s.data.conds else s.data.conds[c := c])
    && s'.data.acts == if c.action in s.data.acts then s.data.acts else s.data.acts[c.action := SendState(0, 0, 0)]
  }

  /** The receiver accepts a new conditional exactly when it may be added, a new action is between the channel's own
      addresses, and a derivative comes from its initiator. */
  lemma ReceivedAddPuts(ch: Chan, c: Conditional, na: Option<SendAction>, w: World, loc: Local)
    requires loc.approves && c !in ch.their.data.conds
    ensures ReceiveStep(ch, AddCond(c, na), w, loc).Ok? <==>
              (&& MayBeAdded(c, w, loc.minSafe) && (c.Resolvable? ==> c.isInitiator)
               && (na.Some? && na.value !in ch.their.data.acts ==>
                     na.value == SendAction(na.value.coin, w.addrA, w.addrB)))
    ensures ReceiveStep(ch, AddCond(c, na), w, loc).Ok? ==>
      var after := ReceiveStep(ch, AddCond(c, na), w, loc).value;
      && after.their.data.conds == ch.their.data.conds[c := c]
      && after.their.data.acts == (if na.Some? && na.value !in ch.their.data.acts
                                   then ch.their.data.acts[na.value := SendState(0, 0, 0)] else ch.their.data.acts)
      && (c.Virtual? ==> after.our == ch.our)
      && (c.Resolvable? ==> OtherHalf(c, LinkedOf(c)) && EnsuredOn(ch.our, after.our, LinkedOf(c)))
  {
  }

  // ---------- prepaying ----------

  /** The same conditional but for what is prepaid of it. */
  predicate SameButPrepay(c: Conditional, u: Conditional) {
    && c.Virtual? && u.Virtual? && u.key == c.key && u.capacity == c.capacity && u.fee == c.fee
    && u.deadline == c.deadline && u.action == c.action
  }

  /** A prepay is carried out on a side exactly when the conditional is there with a state for its action and only its
      prepaid part changes, not downwards; the action then owes the difference at once. */
  lemma PrepayExactly(s: Side, id: Conditional, u: Conditional)
    ensures CommitOnSide(s, id, u).Ok? <==>
              (&& id in s.data.conds && s.data.conds[id].action in s.data.acts && SameButPrepay(s.data.conds[id], u)
               && s.data.conds[id].prepay <= u.prepay)
    ensures CommitOnSide(s, id, u).Ok? ==>
      var s', a := CommitOnSide(s, id, u).value, u.action;
      && s'.data.conds == s.data.conds[id := u] && s'.deposits == s.deposits && s'.transfers == s.transfers
      && s'.data.acts == s.data.acts[a := SendState(s.data.acts[a].amount + u.prepay - s.data.conds[id].prepay,
                                                    s.data.acts[a].committed, s.data.acts[a].seqno)]
  {
  }

  /** The proposer prepays its own conditional, the receiver the proposer's; an unchanged one is only confirmed
      again. */
  lemma PrepaySteps(ch: Chan, id: Conditional, u: Conditional, w: World, loc: Local)
    requires loc.approves
    ensures ProposeStep(ch, CommitVirtual(id, u), w, loc).Changed? <==>
              CommitOnSide(ch.our, id, u).Ok? && u != ch.our.data.conds[id]
    ensures ProposeStep(ch, CommitVirtual(id, u), w, loc).Same? <==>
              id in ch.our.data.conds && ch.our.data.conds[id].action in ch.our.data.acts && u == ch.our.data.conds[id]
    ensures ProposeStep(ch, CommitVirtual(id, u), w, loc).Changed? ==>
              ProposeStep(ch, CommitVirtual(id, u), w, loc).ch == ch.(our := CommitOnSide(ch.our, id, u).value)
    ensures ReceiveStep(ch, CommitVirtual(id, u), w, loc).Ok? <==> CommitOnSide(ch.their, id, u).Ok?
    ensures ReceiveStep(ch, CommitVirtual(id, u), w, loc).Ok? ==>
              ReceiveStep(ch, CommitVirtual(id, u), w, loc).value == ch.(their := CommitOnSide(ch.their, id, u).value)
  {
  }

  // ---------- removing, and what goes with a conditional ----------

  /** The conditional that goes with another is the one its record names: through the incoming side at the node that
      receives, through the outgoing one at the node that pays. */
  lemma LinksAreRead(metas: map<Key, Meta>, k: Key, lk: Key, c: Conditional)
    requires k in metas && lk in metas
    ensures metas[k].incoming.Some? && metas[k].incoming.value.linked == Some(lk) && metas[lk].outgoing.Some? ==>
              ExecuteLink(metas, k) == Some(metas[lk].outgoing.value.cond) == RemoveLink(metas, k)
    ensures metas[k].incoming.Some? && metas[k].incoming.value.linked == Some(lk) && metas[lk].outgoing.None? ==>
              ExecuteLink(metas, k) == None && RemoveLink(metas, k) == CondOf(metas[lk].incoming)
    ensures LinkKey(metas[k].incoming).None? && metas[k].outgoing.Some?
            && metas[k].outgoing.value.linked == Some(lk) ==>
              RemoveLink(metas, k) == if metas[lk].outgoing.Some? then CondOf(metas[lk].outgoing)
                else CondOf(metas[lk].incoming)
    ensures metas[k].outgoing.Some? && metas[k].outgoing.value.linked == Some(lk) ==>
              ReceiverLink(metas, k) == Ok(if metas[lk].incoming.Some? then Some(metas[lk].incoming.value.cond)
                                           else None)
  {
  }

  lemma NoLinkIsRead(metas: map<Key, Meta>, k: Key)
    requires k in metas
    ensures LinkKey(metas[k].incoming).None? ==> ExecuteLink(metas, k) == None
    ensures LinkKey(metas[k].incoming).None? && LinkKey(metas[k].outgoing).None? ==> RemoveLink(metas, k) == None
    ensures LinkKey(metas[k].outgoing).None? ==> ReceiverLink(metas, k) == Ok(None)
    ensures LinkKey(metas[k].outgoing).Some? && LinkKey(metas[k].outgoing).value !in metas ==>
              ReceiverLink(metas, k).Err?
    ensures LinkKey(metas[k].incoming).Some? && LinkKey(metas[k].incoming).value !in metas ==>
              ExecuteLink(metas, k) == None && RemoveLink(metas, k) == None
  {
  }

  /** Of a side, only conditionals go. */
  ghost predicate Dropped(s: Side, s': Side, gone: set<Conditional>) {
    s'.data.conds == s.data.conds - gone && s'.data.acts == s.data.acts && s'.deposits == s.deposits
      && s'.transfers == s.transfers
  }

  function Gone(link: Option<Conditional>): set<Conditional> { if link.Some? then {link.value} else {} }

  /** The proposer removes the other side's conditional if it has its record, and the linked one of its own. */
  lemma ProposedRemovalDrops(ch: Chan, id: Conditional, w: World, loc: Local)
    requires loc.approves
    ensures ProposeStep(ch, RemoveCond(id), w, loc).Same? <==> id !in ch.their.data.conds
    ensures ProposeStep(ch, RemoveCond(id), w, loc).Changed? <==>
              id in ch.their.data.conds && ch.their.data.conds[id].key in loc.metas
    ensures ProposeStep(ch, RemoveCond(id), w, loc).Changed? ==>
      var after := ProposeStep(ch, RemoveCond(id), w, loc).ch;
      && Dropped(ch.their, after.their, {id})
      && Dropped(ch.our, after.our, Gone(RemoveLink(loc.metas, ch.their.data.conds[id].key)))
  {
  }

  /** The receiver drops its own conditional and the linked one of the other side, and needs both records; what is gone
      already is left alone. */
  lemma ReceivedRemovalDrops(ch: Chan, id: Conditional, w: World, loc: Local)
    requires loc.approves
    ensures id !in ch.our.data.conds ==> ReceiveStep(ch, RemoveCond(id), w, loc) == Ok(ch)
    ensures id in ch.our.data.conds ==>
              (ReceiveStep(ch, RemoveCond(id), w, loc).Ok? <==>
                 ch.our.data.conds[id].key in loc.metas && ReceiverLink(loc.metas, ch.our.data.conds[id].key).Ok?)
    ensures id in ch.our.data.conds && ReceiveStep(ch, RemoveCond(id), w, loc).Ok? ==>
      var after := ReceiveStep(ch, RemoveCond(id), w, loc).value;
      && Dropped(ch.our, after.our, {id})
      && Dropped(ch.their, after.their, Gone(ReceiverLink(loc.metas, ch.our.data.conds[id].key).value))
  {
  }

  // ---------- when an execution goes through ----------

  /** A resolve a conditional can be executed with: signed by its key, or priced under its key and not negative. */
  predicate Executable(c: Conditional, r: Resolve) {
    if c.Virtual? then r.Signed? && r.signer == c.key else r.Priced? && r.key == c.key && r.amount >= 0
  }

  /** A side settles a conditional exactly when it is there with a state for its action and the resolve can execute it;
      a derivative that claims nothing goes whatever its resolve's key. */
  lemma SettlesExactly(s: Side, id: Conditional, r: Resolve)
    ensures SettleOnSide(s, id, r).Ok? <==>
              (&& id in s.data.conds && s.data.conds[id].action in s.data.acts
               && (Executable(s.data.conds[id], r) || (s.data.conds[id].Resolvable? && r.Priced? && r.amount == 0)))
  {
  }

  /** The linked conditional stops an execution only when it is there and its own settlement is impossible: of a
      derivative when the first claims nothing and there is no price, no entry price, or a loss to pay and no state to
      pay it from. */
  lemma LinkedSettlesExactly(s: Side, link: Option<Conditional>, r: Resolve, prices: Prices)
    requires link.Some? && link.value in s.data.conds ==>
               s.data.conds[link.value].Virtual? || (CondOk(s.data.conds[link.value]) && r.amount >= 0)
    ensures SettleLinked(s, link, r, prices).Ok? <==>
              link.Some? && link.value in s.data.conds ==>
                var c := s.data.conds[link.value];
                if c.Virtual? then c.action in s.data.acts && r.Signed? && r.signer == c.key
                else
                  && r.Priced?
                  && (r.amount > 0 ||
                      (&& (c.details.asset, r.at) in prices && c.details.entry > 0
                       && (c.action in s.data.acts || LossOf(c, prices[(c.details.asset, r.at)], 0))))
    ensures link.None? || link.value !in s.data.conds ==> SettleLinked(s, link, r, prices) == Ok(s)
  {
    if link.Some? && link.value in s.data.conds {
      var c := s.data.conds[link.value];
      if c.Resolvable? && r.Priced? && r.amount == 0 && (c.details.asset, r.at) in prices && c.details.entry > 0 {
        LossIsWritten(c, prices[(c.details.asset, r.at)], 0);
        LossIsWritten(c, prices[(c.details.asset, r.at)], CappedLoss(c, prices[(c.details.asset, r.at)]));
      }
    }
  }

  /** At the proposer: validated as new, not past its deadline, recorded, and both halves settle. */
  lemma ProposedExecutionExactly(ch: Chan, id: Conditional, r: Resolve, w: World, loc: Local)
    requires loc.approves
    ensures ProposeStep(ch, ExecuteCond(id, r), w, loc).Same? <==> id !in ch.their.data.conds
    ensures id in ch.their.data.conds ==>
      var c := ch.their.data.conds[id];
      ProposeStep(ch, ExecuteCond(id, r), w, loc).Changed? <==>
        (&& Validate(c, None, r, w.prices, w.latest).Fit? && w.now <= c.Deadline() && c.key in loc.metas
         && SettleOnSide(ch.their, id, r).Ok?
         && SettleLinked(ch.our, Found(ExecuteLink(loc.metas, c.key), ch.our.data.conds), r, w.prices).Ok?)
  {
  }

  /** At the paying node: let through against what it knows, not past its deadline, both records there, and both halves
      settle; what is gone already is left alone. */
  lemma ReceivedExecutionExactly(ch: Chan, id: Conditional, r: Resolve, w: World, loc: Local)
    requires loc.approves
    ensures id !in ch.our.data.conds ==> ReceiveStep(ch, ExecuteCond(id, r), w, loc) == Ok(ch)
    ensures id in ch.our.data.conds ==>
      var c := ch.our.data.conds[id];
      ReceiveStep(ch, ExecuteCond(id, r), w, loc).Ok? <==>
        (&& c.key in loc.metas && w.now <= c.Deadline()
         && !Validate(c, loc.metas[c.key].known, r, w.prices, w.latest).Wrong?
         && ReceiverLink(loc.metas, c.key).Ok? && SettleOnSide(ch.our, id, r).Ok?
         && SettleLinked(ch.their, Found(ReceiverLink(loc.metas, c.key).value, ch.their.data.conds), r, w.prices).Ok?)
  {
  }

  /** The last moment of a virtual channel is its deadline, of a derivative the year 3000. */
  lemma DeadlineIs(c: Conditional)
    ensures c.Deadline() == if c.Virtual? then c.deadline else 32503680000
  {
  }
}
