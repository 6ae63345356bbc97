/** What every stored channel keeps in every run: sane conditionals, each with a state for its action, nothing committed
    that is not owed, and no rented deposit used beyond its size. These are the premises of the balance, rent and
    settlement theorems. */
module RowData {
  import opened Prelude
  import opened Arith
  import opened Rent
  import opened Payments
  import opened Channel
  import opened Protocol
  import opened ProtocolTheorems
  import opened Balance
  import opened BalanceTheorems

  /** No deposit is used beyond its size. */
  ghost predicate Within(d: Deposits) { forall c :: c in d ==> 0 <= d[c].used <= d[c].amount }

  /** Never is more committed than owed, and nothing of it is negative. */
  ghost predicate Owing(acts: ActDict) { forall a :: a in acts ==> acts[a].amount >= acts[a].committed >= 0 }

  /** Every conditional's action has a state. */
  ghost predicate Stated(d: Data) { forall id :: id in d.conds ==> d.conds[id].action in d.acts }

  ghost predicate DataSound(d: Data) { Sane(d.conds) && Owing(d.acts) }

  ghost predicate SideSound(s: Side) { DataSound(s.data) && Within(s.deposits) }

  ghost predicate Sound(ch: Chan) { SideSound(ch.our) && SideSound(ch.their) }

  ghost predicate AllStated(ch: Chan) { Stated(ch.our.data) && Stated(ch.their.data) }

  // ---------- one edit ----------

  /** Using a deposit in steps is using it once, of its own coin only, and never beyond its size. */
  lemma UsesAddUp(d: Deposits, coin: Coin, x: nat, y: nat)
    requires Within(d)
    ensures Within(MarkUsed(d, coin, x)) && MarkUsed(d, coin, x).Keys == d.Keys
    ensures MarkUsed(MarkUsed(d, coin, x), coin, y) == MarkUsed(d, coin, x + y)
    ensures forall c :: c in d && c != coin ==> MarkUsed(d, coin, x)[c] == d[c]
    ensures coin in d && d[coin].used + x <= d[coin].amount ==>
              MarkUsed(d, coin, x)[coin] == d[coin].(used := d[coin].used + x)
  {
  }

  lemma NeedIsNonNegative(c: Conditional, r: Resolve)
    requires CondOk(c) && Need(c, r).Ok?
    ensures Need(c, r).value >= 0
  {
  }

  lemma ExecutingKeepsSound(s: Side, c: Conditional, r: Resolve)
    requires SideSound(s) && CondOk(c) && c.action in s.data.acts
    requires Execute(c, s.data.acts[c.action], r, s.deposits).Ok?
    ensures
      var (st, dep) := Execute(c, s.data.acts[c.action], r, s.deposits).value;
      Owing(s.data.acts[c.action := st]) && Within(dep)
  {
    NeedIsNonNegative(c, r);
  }

  lemma SettlingKeepsSound(s: Side, id: Conditional, r: Resolve)
    requires SideSound(s) && SettleOnSide(s, id, r).Ok?
    ensures SideSound(SettleOnSide(s, id, r).value)
    ensures Stated(s.data) ==> Stated(SettleOnSide(s, id, r).value.data)
  {
    var c := s.data.conds[id];
    if Execute(c, s.data.acts[c.action], r, s.deposits).Ok? {
      ExecutingKeepsSound(s, c, r);
    }
  }

  lemma LinkedKeepsSound(s: Side, link: Option<Conditional>, r: Resolve, prices: Prices)
    requires SideSound(s) && SettleLinked(s, link, r, prices).Ok?
    ensures SideSound(SettleLinked(s, link, r, prices).value)
    ensures Stated(s.data) ==> Stated(SettleLinked(s, link, r, prices).value.data)
  {
    if link.Some? && link.value in s.data.conds {
      var c := s.data.conds[link.value];
      var state := if c.Resolvable? then LinkedResolve(r, c, prices) else Ok(Some(r));
      if state.value.Some? {
        ExecutingKeepsSound(s, c, state.value.value);
      }
    }
  }

  lemma PayingKeepsSound(s: Side, a: SendAction, x: int)
    requires SideSound(s) && x >= 0
    ensures SideSound(PayOnSide(s, a, x)) && (Stated(s.data) ==> Stated(PayOnSide(s, a, x).data))
  {
  }

  lemma SwappingKeepsSound(s: Side, a: SendAction, x: nat)
    requires SideSound(s)
    ensures SideSound(SwapOnSide(s, a, x)) && (Stated(s.data) ==> Stated(SwapOnSide(s, a, x).data))
  {
    PayingKeepsSound(s, a, x);
    UsesAddUp(s.deposits, a.coin, x, 0);
  }

  lemma PrepayingKeepsSound(s: Side, id: Conditional, u: Conditional)
    requires SideSound(s) && CommitOnSide(s, id, u).Ok?
    ensures SideSound(CommitOnSide(s, id, u).value)
    ensures Stated(s.data) ==> Stated(CommitOnSide(s, id, u).value.data)
  {
  }

  /** What a payout prepares is owed, so never negative. */
  lemma PreparedIsOwed(s: Side, a: SendAction, seqno: nat)
    requires Owing(s.data.acts) && PreparedOn(s, a, seqno).Ok? && PreparedOn(s, a, seqno).value.Some?
    ensures
      var st := PreparedOn(s, a, seqno).value.value;
      st.amount == st.committed >= 0
  {
  }

  lemma CommittingKeepsSound(s: Side, a: SendAction, seqno: nat)
    requires SideSound(s) && PreparedOn(s, a, seqno).Ok?
    ensures
      var s' := CommittedSide(s, a, seqno, PreparedOn(s, a, seqno).value);
      SideSound(s') && (Stated(s.data) ==> Stated(s'.data))
  {
  }

  /** An active deposit is replaced by a larger one, an expired one starts unused. */
  lemma RentKeepsWithin(d: Deposits, coin: Coin, o: Order, now: int)
    requires Within(d) && (Active(DepositOf(d, coin), now) ==> o.amount > d[coin].amount)
    ensures Within(d[coin := Rented(DepositOf(d, coin), o, now)])
  {
  }

  lemma FeeIsNonNegative(t: Tariff, ld: Option<Locked>, o: Order, now: int)
    requires t.rateDen > 0
    ensures DepositFee(t, ld, o, now) >= 0
  {
    var cur := InForce(ld, now);
    var delta, left, free := o.amount - cur.amount, o.till - now, cur.amount - cur.used;
    if left > 0 && delta > 0 {
      ProductIsNonNegative(delta, left);
      if free > 0 && o.till > cur.till {
        ProductIsNonNegative(free, o.till - cur.till);
      }
      var units := ChargedUnits(ld, o, now);
      ProductIsNonNegative(units, t.rateNum);
      CeilingIsNonNegative(units * t.rateNum, t.rateDen);
    }
  }

  lemma ProductIsNonNegative(x: int, y: int)
    requires x >= 0 && y >= 0
    ensures x * y >= 0
  {
  }

  lemma CeilingIsNonNegative(x: int, d: int)
    requires x >= 0 && d > 0
    ensures CeilDiv(x, d) >= 0
  {
    if x > 0 {
      CeilAtMost(x, d, 0);
    }
  }

  lemma EnsuringKeepsSound(d: Data, c: Conditional)
    requires DataSound(d) && CondOk(c)
    ensures DataSound(Ensured(d, c)) && (Stated(d) ==> Stated(Ensured(d, c)))
  {
  }

  lemma PuttingKeepsSound(d: Data, c: Conditional, acts: ActDict)
    requires DataSound(d) && CondOk(c) && Owing(acts)
    ensures DataSound(Data(d.conds[c := c], acts))
  {
  }

  // ---------- the proposer ----------

  lemma ProposedAddKeepsSound(ch: Chan, c: Conditional, na: Option<SendAction>, w: World, loc: Local)
    requires Sound(ch) && ProposeAdd(ch, c, na, w, loc).Changed?
    ensures Sound(ProposeAdd(ch, c, na, w, loc).ch)
    ensures AllStated(ch) ==> AllStated(ProposeAdd(ch, c, na, w, loc).ch)
  {
    if c.Resolvable? {
      EnsuringKeepsSound(ch.their.data, LinkedOf(c));
    }
  }

  lemma ProposedRemovalKeepsSound(ch: Chan, id: Conditional, loc: Local)
    requires Sound(ch) && ProposeRemove(ch, id, loc).Changed?
    ensures Sound(ProposeRemove(ch, id, loc).ch)
    ensures AllStated(ch) ==> AllStated(ProposeRemove(ch, id, loc).ch)
  {
  }

  lemma ProposedExecutionKeepsSound(ch: Chan, id: Conditional, r: Resolve, w: World, loc: Local)
    requires Sound(ch) && ProposeExecute(ch, id, r, w, loc).Changed?
    ensures Sound(ProposeExecute(ch, id, r, w, loc).ch)
    ensures AllStated(ch) ==> AllStated(ProposeExecute(ch, id, r, w, loc).ch)
  {
    var link := Found(ExecuteLink(loc.metas, ch.their.data.conds[id].key), ch.our.data.conds);
    SettlingKeepsSound(ch.their, id, r);
    LinkedKeepsSound(ch.our, link, r, w.prices);
  }

  lemma ProposedRentKeepsSound(ch: Chan, coin: Coin, o: Order, w: World)
    requires Sound(ch) && ProposeRent(ch, coin, o, w).Changed?
    ensures Sound(ProposeRent(ch, coin, o, w).ch)
    ensures AllStated(ch) ==> AllStated(ProposeRent(ch, coin, o, w).ch)
  {
    var fee := DepositFee(w.tariffs[coin], DepositOf(ch.their.deposits, coin), o, w.now);
    FeeIsNonNegative(w.tariffs[coin], DepositOf(ch.their.deposits, coin), o, w.now);
    PayingKeepsSound(ch.our, w.ActionOf(coin), fee);
    RentKeepsWithin(ch.their.deposits, coin, o, w.now);
  }

  lemma CommitKeepsSound(ch: Chan, a: SendAction, fromA: bool)
    requires Sound(ch) && CommitRequest(ch, a, fromA).Ok?
    ensures Sound(WithCommit(ch, CommitRequest(ch, a, fromA).value))
    ensures AllStated(ch) ==> AllStated(WithCommit(ch, CommitRequest(ch, a, fromA).value))
  {
    CommittingKeepsSound(ch.our, a, CurrentBody(ch).seqno + 1);
    CommittingKeepsSound(ch.their, a, CurrentBody(ch).seqno + 1);
  }

  lemma ProposeKeepsSound(ch: Chan, act: Action, w: World, loc: Local)
    requires Sound(ch) && ProposeStep(ch, act, w, loc).Changed?
    ensures Sound(ProposeStep(ch, act, w, loc).ch)
    ensures AllStated(ch) ==> AllStated(ProposeStep(ch, act, w, loc).ch)
  {
    match act
    case Increment =>
    case AddCond(c, na) => ProposedAddKeepsSound(ch, c, na, w, loc);
    case CommitVirtual(id, u) => PrepayingKeepsSound(ch.our, id, u);
    case RemoveCond(id) => ProposedRemovalKeepsSound(ch, id, loc);
    case ExecuteCond(id, r) => ProposedExecutionKeepsSound(ch, id, r, w, loc);
    case RentCapacity(coin, o) => ProposedRentKeepsSound(ch, coin, o, w);
    case CoopCommit(a, _) => CommitKeepsSound(ch, a, ch.us.Left?);
    case Swap(fc, fa, tc, ta) =>
      SwappingKeepsSound(ch.our, w.ActionOf(fc), fa);
      SwappingKeepsSound(ch.their, w.ActionOf(tc), ta);
  }

  // ---------- the receiver ----------

  lemma ReceivedAddKeepsSound(ch: Chan, c: Conditional, na: Option<SendAction>, w: World, loc: Local)
    requires Sound(ch) && ReceiveAdd(ch, c, na, w, loc).Ok?
    ensures Sound(ReceiveAdd(ch, c, na, w, loc).value)
  {
    if c !in ch.their.data.conds {
      PuttingKeepsSound(ch.their.data, c, ReceiveAdd(ch, c, na, w, loc).value.their.data.acts);
      if c.Resolvable? {
        EnsuringKeepsSound(ch.our.data, LinkedOf(c));
      }
    }
  }

  lemma ReceivedExecutionKeepsSound(ch: Chan, id: Conditional, r: Resolve, w: World, loc: Local)
    requires Sound(ch) && ReceiveExecute(ch, id, r, w, loc).Ok?
    ensures Sound(ReceiveExecute(ch, id, r, w, loc).value)
  {
    if id in ch.our.data.conds {
      var link := ReceiverLink(loc.metas, ch.our.data.conds[id].key).value;
      SettlingKeepsSound(ch.our, id, r);
      LinkedKeepsSound(ch.their, Found(link, ch.their.data.conds), r, w.prices);
    }
  }

  lemma ReceivedRentKeepsSound(ch: Chan, coin: Coin, o: Order, w: World)
    requires Sound(ch) && ReceiveRent(ch, coin, o, w).Ok?
    ensures Sound(ReceiveRent(ch, coin, o, w).value)
  {
    var fee := DepositFee(w.tariffs[coin], DepositOf(ch.our.deposits, coin), o, w.now);
    PayingKeepsSound(ch.their, w.ActionOf(coin), fee);
    RentKeepsWithin(ch.our.deposits, coin, o, w.now);
  }

  lemma ReceiveKeepsSound(ch: Chan, act: Action, w: World, loc: Local)
    requires Sound(ch) && ReceiveStep(ch, act, w, loc).Ok?
    ensures Sound(ReceiveStep(ch, act, w, loc).value)
  {
    match act
    case Increment =>
    case AddCond(c, na) => ReceivedAddKeepsSound(ch, c, na, w, loc);
    case CommitVirtual(id, u) => PrepayingKeepsSound(ch.their, id, u);
    case RemoveCond(id) =>
    case ExecuteCond(id, r) => ReceivedExecutionKeepsSound(ch, id, r, w, loc);
    case RentCapacity(coin, o) => ReceivedRentKeepsSound(ch, coin, o, w);
    case CoopCommit(a, _) => CommitKeepsSound(ch, a, !ch.us.Left?);
    case Swap(fc, fa, tc, ta) =>
      SwappingKeepsSound(ch.their, w.ActionOf(fc), fa);
      SwappingKeepsSound(ch.our, w.ActionOf(tc), ta);
  }

  /** A rent both ends agree on grows: what the rent theorems assume of a series. */
  lemma AgreedRentGrows(p: Chan, r: Chan, coin: Coin, o: Order, w: World)
    requires p.their.deposits == r.our.deposits
    requires ProposeRent(p, coin, o, w).Changed? && ReceiveRent(r, coin, o, w).Ok?
    ensures Grows(DepositOf(r.our.deposits, coin), o, w.now)
  {
  }

  // ---------- what a body seals ----------

  function DictOf<K, V>(h: DictHash<K, V>): map<K, V> { if h.ZeroHash? then map[] else h.dict }

  ghost predicate HashStated(h: SideHash) { Stated(Data(DictOf(h.conds), DictOf(h.acts))) }

  /** The dictionaries a body seals have a state for every conditional's action. The receiver of a conditional may be
      sent no action code; that its row is complete all the same follows from the proposer's seal. */
  ghost predicate BodyStated(b: Body) { HashStated(b.a) && HashStated(b.b) }

  lemma SealTells(ch: Chan, seqno: nat)
    ensures BodyStated(Sealed(ch, seqno)) <==> AllStated(ch)
  {
    assert Data(ch.our.data.conds, ch.our.data.acts) == ch.our.data;
    assert Data(ch.their.data.conds, ch.their.data.acts) == ch.their.data;
  }

  // ---------- through the protocol ----------

  ghost predicate SavedOk(pending: map<Body, Saved>) {
    forall b :: b in pending ==>
      DataSound(pending[b].our) && DataSound(pending[b].their) && Stated(pending[b].our) && Stated(pending[b].their)
  }

  ghost predicate RowSound(ch: Chan) { Sound(ch) && AllStated(ch) }

  ghost predicate LockOk(l: Lock) {
    match l
    case Free => true
    case Proposing(c) => RowSound(c.edited)
    case Processing(j) => RowSound(j.snapshot)
  }

  ghost predicate DataOk(n: Node) {
    && RowSound(n.store.ch) && SavedOk(n.store.pending) && LockOk(n.lock)
    && forall b :: b in n.proposed ==> BodyStated(b)
  }

  lemma StartKeepsData(n: Node, p: Party, base: nat, act: Action, w: World, loc: Local)
    requires DataOk(n) && RowOk(n.store.ch, p, base)
    ensures DataOk(DoStart(n, act, w, loc))
  {
    if n.lock.Free? && Propose(n.store.ch, act, w, loc).Ok? {
      ProposedIsOk(n.store.ch, act, w, loc);
      var (edited, prop) := Propose(n.store.ch, act, w, loc).value;
      OpenedIsOk(n, act, edited, prop);
    }
  }

  lemma ProposedIsOk(ch: Chan, act: Action, w: World, loc: Local)
    requires RowSound(ch) && RowOk(ch, ch.us, ch.baseSeqno) && Propose(ch, act, w, loc).Ok?
    ensures
      var (edited, prop) := Propose(ch, act, w, loc).value;
      RowSound(edited) && BodyStated(prop.body)
  {
    ProposeFacts(ch, act, w, loc);
    var (edited, prop) := Propose(ch, act, w, loc).value;
    if ProposeStep(ch, act, w, loc).Changed? {
      ProposeKeepsSound(ch, act, w, loc);
    }
    SealTells(edited, prop.body.seqno);
  }

  lemma OpenedIsOk(n: Node, act: Action, edited: Chan, prop: SignedBody)
    requires DataOk(n) && RowSound(edited) && BodyStated(prop.body)
    ensures DataOk(Opened(n, act, edited, prop))
  {
  }

  lemma AcceptedIsOk(ch: Chan, p: SignedBody, act: Action, w: World, loc: Local)
    requires RowSound(ch) && BodyStated(p.body) && Receive(ch, p, act, w, loc).Accepted?
    ensures RowSound(Receive(ch, p, act, w, loc).ch)
  {
    var c := ReceiveStep(ch, act, w, loc).value;
    ReceiveKeepsSound(ch, act, w, loc);
    SealTells(c, p.body.seqno);
  }

  lemma EndKeepsData(n: Node, peer: Node, full: set<Body>, w: World, loc: Local)
    requires DataOk(n) && DataOk(peer) && (n.lock.Processing? ==> n.lock.job.proposal.body in peer.proposed)
    ensures DataOk(DoEnd(n, peer, full, w, loc).0) && DataOk(DoEnd(n, peer, full, w, loc).1)
  {
    if n.lock.Processing? {
      var job := n.lock.job;
      var ans := Receive(job.snapshot, job.proposal, job.act, w, loc);
      if ans.Accepted? {
        AcceptedIsOk(job.snapshot, job.proposal, job.act, w, loc);
      }
      AnsweredIsOk(n, peer, full, ans);
    }
  }

  lemma AnsweredIsOk(n: Node, peer: Node, full: set<Body>, ans: Answer)
    requires DataOk(n) && DataOk(peer) && n.lock.Processing? && (ans.Accepted? ==> RowSound(ans.ch))
    ensures DataOk(Answered(n, peer, full, ans).0) && DataOk(Answered(n, peer, full, ans).1)
  {
  }

  lemma OwnStepKeepsData(n: Node, peer: Node, full: set<Body>, e: Event)
    requires DataOk(n) && DataOk(peer)
    ensures DataOk(DoBegin(n, peer)) && DataOk(DoFinish(n)) && DataOk(n.(lock := Free))
    ensures e.Touch? ==> DataOk(DoTouch(n, e))
    ensures e.Recover? ==> DataOk(DoRecover(n, full, e.rec))
  {
  }

  /** What the protocol's invariant says of a node about to take a step. */
  ghost predicate MayStep(n: Node, peer: Node, p: Party, base: nat) {
    && DataOk(n) && DataOk(peer) && RowOk(n.store.ch, p, base)
    && (n.lock.Processing? ==> n.lock.job.proposal.body in peer.proposed)
  }

  lemma InvariantLetsStep(s: System, base: nat, p: Party)
    requires Inv(s, base) && DataOk(s.left) && DataOk(s.right)
    ensures MayStep(At(s, p), At(s, p.Other()), p, base)
  {
    SeenFrom(s, base, p);
  }

  lemma StepKeepsData(s: System, base: nat, e: Event, p: Party)
    requires MayStep(At(s, e.at), At(s, e.at.Other()), e.at, base)
    ensures DataOk(At(Step(s, e), p))
  {
    var n, peer := At(s, e.at), At(s, e.at.Other());
    match e {
      case StartPropose(_, act, w, loc) => StartKeepsData(n, e.at, base, act, w, loc);
      case EndProcess(_, w, loc) => EndKeepsData(n, peer, s.full, w, loc);
      case _ => OwnStepKeepsData(n, peer, s.full, e);
    }
  }

  lemma {:induction false} RunKeepsData(s: System, base: nat, events: seq<Event>)
    requires Inv(s, base) && DataOk(s.left) && DataOk(s.right)
    ensures DataOk(Run(s, events).left) && DataOk(Run(s, events).right)
    decreases |events|
  {
    if events != [] {
      InvariantLetsStep(s, base, events[0].at);
      StepKeepsData(s, base, events[0], Left);
      StepKeepsData(s, base, events[0], Right);
      StepKeeps(s, base, events[0]);
      RunKeepsData(Step(s, events[0]), base, events[1..]);
    }
  }

  /** At every reachable moment, of whatever a node stores, proposes, handles or saved: conditionals carry positive
      capacities and collaterals and nothing negative, every conditional's action has a state, no more is committed than
      owed, and no rented deposit of either side is used beyond its size. */
  lemma ReachableDataIsOk(s: System, base: nat, p: Party)
    requires Reachable(s, base)
    ensures DataOk(At(s, p))
  {
    var events :| s == Run(Start(base), events);
    StartIsOk(base);
    RunKeepsData(Start(base), base, events);
  }

  /** So at every reachable moment, whatever execution a node proposes from its row is within the capacity and in no
      coin lowers the Available of either side. */
  lemma ReachableExecutionIsCovered(s: System, base: nat, p: Party, our: Account, their: Account, id: Conditional,
                                    r: Resolve, w: World, loc: Local, coin: Coin, q: Quotes)
    requires Reachable(s, base)
    requires our.side == At(s, p).store.ch.our && their.side == At(s, p).store.ch.their
    requires ProposeStep(At(s, p).store.ch, ExecuteCond(id, r), w, loc).Changed?
    requires
      var ch := At(s, p).store.ch;
      Quoted(ch.their, ch.our, id, Found(ExecuteLink(loc.metas, ch.their.data.conds[id].key), ch.our.data.conds), q)
    ensures
      var ch := At(s, p).store.ch;
      && (ch.their.data.conds[id].Virtual? ==> 0 <= r.amount <= ch.their.data.conds[id].capacity)
      && NeverLower(ProposeStep(ch, ExecuteCond(id, r), w, loc).ch, our, their, coin, q)
  {
    ReachableDataIsOk(s, base, p);
    ProposedExecutionIsWithinCapacity(At(s, p).store.ch, id, r, w, loc);
    ProposedExecutionNeverLowersAvailable(At(s, p).store.ch, our, their, id, r, w, loc, coin, q);
  }

  /** At every reachable moment a signed payout leaves the payer's Available exactly as it was, in every coin. */
  lemma ReachableCommitKeepsAvailable(s: System, base: nat, p: Party, mine: Account, peer: Account, a: SendAction,
                                      seqno: nat, coin: Coin, q: Quotes)
    requires Reachable(s, base) && mine.side.transfers == map[]
    requires mine.side == At(s, p).store.ch.our || mine.side == At(s, p).store.ch.their
    requires PreparedOn(mine.side, a, seqno).Ok? && PreparedOn(mine.side, a, seqno).value.Some?
    ensures
      var st := PreparedOn(mine.side, a, seqno).value;
      var after := mine.(side := CommittedSide(mine.side, a, seqno, st));
      st.value.amount >= 0 && BalanceOf(after, peer, coin, q).Available() == BalanceOf(mine, peer, coin, q).Available()
  {
    ReachableDataIsOk(s, base, p);
    PreparedIsOwed(mine.side, a, seqno);
    CommittingKeepsAvailable(mine, peer, a, seqno, coin, q);
  }

  /** At every reachable moment the balance of a row can be computed, except while it has a derivative whose entry price
      is zero or whose asset has no price. */
  lemma ReachableBalanceFailsExactly(s: System, base: nat, p: Party, coins: set<Coin>, q: Quotes)
    requires Reachable(s, base)
    requires
      var ch := At(s, p).store.ch;
      coins >= CoinsOf(ch.our.data.acts) + CoinsOf(ch.their.data.acts)
    ensures
      var ch := At(s, p).store.ch;
      && (AnyStuck(coins, ch.our.data.conds, q) <==> Unpriced(ch.our.data.conds, q))
      && (AnyStuck(coins, ch.their.data.conds, q) <==> Unpriced(ch.their.data.conds, q))
  {
    ReachableDataIsOk(s, base, p);
    StuckIsUnpriced(At(s, p).store.ch.our.data, coins, q);
    StuckIsUnpriced(At(s, p).store.ch.their.data, coins, q);
  }

  ghost predicate Unpriced(conds: CondDict, q: Quotes) {
    exists id ::
      id in conds && conds[id].Resolvable? && (conds[id].details.asset !in q || conds[id].details.entry == 0)
  }

  lemma StuckIsUnpriced(d: Data, coins: set<Coin>, q: Quotes)
    requires DataSound(d) && Stated(d) && coins >= CoinsOf(d.acts)
    ensures AnyStuck(coins, d.conds, q) <==> Unpriced(d.conds, q)
  {
    if Unpriced(d.conds, q) {
      var id :|
        id in d.conds && d.conds[id].Resolvable? && (d.conds[id].details.asset !in q || d.conds[id].details.entry == 0);
      assert Stuck(coins, d.conds[id], q);
    }
  }

  /** And at every reachable moment splitting a rent is never cheaper than renting once. */
  lemma ReachableSplitRentIsNeverCheaper(s: System, base: nat, p: Party, ours: bool, coin: Coin, t: Tariff,
                                         orders: seq<Order>, now: int)
    requires Reachable(s, base) && t.rateDen > 0 && orders != []
    requires
      var side := if ours then At(s, p).store.ch.our else At(s, p).store.ch.their;
      Series(DepositOf(side.deposits, coin), orders, now)
    ensures
      var ld := DepositOf((if ours then At(s, p).store.ch.our else At(s, p).store.ch.their).deposits, coin);
      && SeriesUnits(ld, orders, now) == ChargedUnits(ld, orders[|orders| - 1], now)
      && SeriesFee(t, ld, orders, now) >= DepositFee(t, ld, orders[|orders| - 1], now)
  {
    ReachableDataIsOk(s, base, p);
    var side := if ours then At(s, p).store.ch.our else At(s, p).store.ch.their;
    assert SideSound(side);
    SplitRentChargesTheSame(DepositOf(side.deposits, coin), orders, now);
    SplitRentIsNeverCheaper(t, DepositOf(side.deposits, coin), orders, now);
  }
}
