/** The channel object as the service edits it: dictionaries, deposits and pending marks of its two sides
    change in place before the result is sealed and signed. A failed edit is thrown away by the caller. */
module LiveChannel {
  import opened Prelude
  import opened Payments
  import opened Rent
  import opened Channel

  /** One side's agreed data, rented deposits and pending transfers. */
  class SideObject {
    var data: Data
    var deposits: Deposits
    var transfers: map<nat, map<Coin, int>>

    ghost function View(): Side
      reads this
    {
      Side(data, deposits, transfers)
    }

    constructor (s: Side)
      ensures View() == s
    {
      data, deposits, transfers := s.data, s.deposits, s.transfers;
    }

    /** `ensureConditionalOnSide` and `ensureActionStateOnSide`: what is there already is kept. */
    method Ensure(c: Conditional)
      modifies this`data
      ensures data == Ensured(old(data), c)
    {
      if c !in data.conds {
        data := data.(conds := data.conds[c := c]);
      }
      if c.action !in data.acts {
        data := data.(acts := data.acts[c.action := EMPTY_SEND]);
      }
    }

    method Delete(id: Conditional)
      modifies this`data
      ensures data == old(data).(conds := old(data).conds - {id})
    {
      data := data.(conds := data.conds - {id});
    }

    /** `sendAddCoins`: the action grows and as much of the rented deposit counts as used. */
    method AddToAction(a: SendAction, x: int)
      requires a in data.acts
      modifies this`data, this`deposits
      ensures data == old(data).(acts := old(data).acts[a := AddCoins(old(data).acts[a], x)])
      ensures deposits == MarkUsed(old(deposits), a.coin, x)
    {
      data := data.(acts := data.acts[a := AddCoins(data.acts[a], x)]);
      if a.coin in deposits {
        var lk := deposits[a.coin];
        lk := lk.(used := lk.used + x);
        if lk.amount < lk.used {
          lk := lk.(used := lk.amount);
        }
        deposits := deposits[a.coin := lk];
      }
    }

    /** `Commit` of a virtual channel's raised prepay. */
    method Prepay(id: Conditional, updated: Conditional) returns (ok: bool)
      modifies this`data
      ensures ok == CommitOnSide(old(View()), id, updated).Ok?
      ensures ok ==> View() == CommitOnSide(old(View()), id, updated).value
    {
      if id !in data.conds || data.conds[id].action !in data.acts {
        return false;
      }
      var a := data.conds[id].action;
      var r := CommitPrepay(data.conds[id], updated, data.acts[a]);
      if r.Err? {
        return false;
      }
      data := Data(data.conds[id := r.value.0], data.acts[a := r.value.1]);
      return true;
    }

    /** `executeConditionalSettlement`, after which the conditional goes. */
    method Settle(id: Conditional, r: Resolve) returns (ok: bool)
      modifies this`data, this`deposits
      ensures ok == SettleOnSide(old(View()), id, r).Ok?
      ensures ok ==> View() == SettleOnSide(old(View()), id, r).value
    {
      if id !in data.conds || data.conds[id].action !in data.acts {
        return false;
      }
      var cond := data.conds[id];
      if cond.Resolvable? {
        if !r.Priced? {
          return false;
        }
        if r.amount == 0 {
          data := data.(acts := data.acts[cond.action := data.acts[cond.action]]);
          Delete(id);
          return true;
        }
      }
      var need := Need(cond, r);
      if need.Err? {
        return false;
      }
      AddToAction(cond.action, need.value);
      Delete(id);
      return true;
    }

    /** The linked conditional: a derivative pays only when the primary does not, anything else the same state. */
    method SettleAsLinked(link: Option<Conditional>, r: Resolve, prices: Prices) returns (ok: bool)
      modifies this`data, this`deposits
      ensures ok == SettleLinked(old(View()), link, r, prices).Ok?
      ensures ok ==> View() == SettleLinked(old(View()), link, r, prices).value
    {
      if link.None? || link.value !in data.conds {
        return true;
      }
      var cond, state := data.conds[link.value], Some(r);
      if cond.Resolvable? {
        var lr := LinkedResolve(r, cond, prices);
        if lr.Err? {
          return false;
        }
        state := lr.value;
      }
      if state.Some? {
        var need := Need(cond, state.value);
        if cond.action !in data.acts || need.Err? {
          return false;
        }
        AddToAction(cond.action, need.value);
      }
      Delete(link.value);
      return true;
    }

    /** A payment by an action that may be new to the side. */
    method Pay(a: SendAction, x: int)
      modifies this`data
      ensures View() == PayOnSide(old(View()), a, x)
    {
      data := data.(acts := data.acts[a := AddCoins(ActionState(data.acts, a), x)]);
    }

    method Swap(a: SendAction, x: int)
      modifies this`data, this`deposits
      ensures View() == SwapOnSide(old(View()), a, x)
    {
      if a !in data.acts {
        data := data.(acts := data.acts[a := EMPTY_SEND]);
      }
      AddToAction(a, x);
    }

    method PutCommitted(a: SendAction, seqno: nat, st: Option<SendState>)
      modifies this`data, this`transfers
      ensures View() == CommittedSide(old(View()), a, seqno, st)
    {
      if st.Some? {
        data := data.(acts := data.acts[a := st.value]);
        transfers := transfers[seqno := map[a.coin := st.value.committed]];
      }
    }
  }

  datatype Outcome = Failed | Idempotent | Edited

  class ChannelObject {
    const us: Party
    const baseSeqno: nat
    const our: SideObject
    const their: SideObject
    var signed: Option<SignedBody>
    var pendingCommit: Option<CommitMsg>

    ghost predicate Valid() { our != their }

    ghost function View(): Chan
      reads this, our, their
    {
      Chan(us, our.View(), their.View(), signed, pendingCommit, baseSeqno)
    }

    constructor (ch: Chan)
      ensures Valid() && View() == ch && fresh(our) && fresh(their)
    {
      us, baseSeqno, signed, pendingCommit := ch.us, ch.baseSeqno, ch.signed, ch.pendingCommit;
      our := new SideObject(ch.our);
      their := new SideObject(ch.their);
    }

    method Snapshot() returns (ch: Chan)
      ensures ch == View()
    {
      ch := Chan(us, Side(our.data, our.deposits, our.transfers), Side(their.data, their.deposits, their.transfers),
                 signed, pendingCommit, baseSeqno);
    }

    // ---------- proposer ----------

    method AddOurConditional(c: Conditional, newAction: Option<SendAction>, w: World, loc: Local) returns (o: Outcome)
      requires Valid()
      modifies this, our, their
      ensures Matches(o, ProposeAdd(old(View()), c, newAction, w, loc), old(View()), View())
    {
      if !ValidOnAdd(c, w.now) || c.Deadline() - (w.now + w.closePeriod) < loc.minSafe {
        return Failed;
      }
      if c in our.data.conds {
        return Idempotent;
      }
      if c.action !in our.data.acts && newAction.None? {
        return Failed;
      }
      our.Ensure(c);
      if c.Resolvable? {
        their.Ensure(LinkedOf(c));
      }
      return Edited;
    }

    method RemoveTheirConditional(id: Conditional, loc: Local) returns (o: Outcome)
      requires Valid()
      modifies this, our, their
      ensures Matches(o, ProposeRemove(old(View()), id, loc), old(View()), View())
    {
      if id !in their.data.conds {
        return Idempotent;
      }
      var k := their.data.conds[id].key;
      if k !in loc.metas {
        return Failed;
      }
      var link := Found(RemoveLink(loc.metas, k), our.data.conds);
      their.Delete(id);
      if link.Some? {
        our.Delete(link.value);
      }
      return Edited;
    }

    method ExecuteTheirConditional(id: Conditional, r: Resolve, w: World, loc: Local) returns (o: Outcome)
      requires Valid()
      modifies this, our, their
      ensures Matches(o, ProposeExecute(old(View()), id, r, w, loc), old(View()), View())
    {
      if id !in their.data.conds {
        return Idempotent;
      }
      var cond := their.data.conds[id];
      if !Validate(cond, None, r, w.prices, w.latest).Fit? || cond.Deadline() < w.now || cond.key !in loc.metas {
        return Failed;
      }
      var link := Found(ExecuteLink(loc.metas, cond.key), our.data.conds);
      var ok := their.Settle(id, r);
      if ok {
        ok := our.SettleAsLinked(link, r, w.prices);
      }
      return if ok then Edited else Failed;
    }

    method RentTheirCapacity(coin: Coin, order: Order, w: World) returns (o: Outcome)
      requires Valid()
      modifies this, our, their
      ensures Matches(o, ProposeRent(old(View()), coin, order, w), old(View()), View())
    {
      if coin !in w.tariffs || w.tariffs[coin].rateDen == 0 {
        return Failed;
      }
      var ld, used := DepositOf(their.deposits, coin), 0;
      our.Pay(w.ActionOf(coin), DepositFee(w.tariffs[coin], ld, order, w.now));
      if Active(ld, w.now) {
        used := ld.value.used;
        if order.amount <= ld.value.amount || order.till < ld.value.till {
          return Failed;
        }
      }
      their.deposits := their.deposits[coin := Locked(order.amount, order.till, used)];
      return Edited;
    }

    /** Both ends of a cooperative commit: the request is rebuilt, its signature compared, both states replaced. */
    method CommitCooperatively(a: SendAction, fromA: bool, sig: CommitSig, signer: Party) returns (ok: bool)
      requires Valid()
      modifies this, our, their
      ensures
        var req := CommitRequest(old(View()), a, fromA);
        && ok == (old(MayCommit(View())) && req.Ok? && sig == CommitSig(signer, req.value))
        && (ok ==> View() == WithCommit(old(View()), req.value))
    {
      if pendingCommit.Some? || their.transfers != map[] || our.transfers != map[] {
        return false;
      }
      var ch := Snapshot();
      var req := CommitRequest(ch, a, fromA);
      if req.Err? || sig != CommitSig(signer, req.value) {
        return false;
      }
      var m := req.value;
      our.PutCommitted(m.action, m.seqno, if us.Left? then m.stateA else m.stateB);
      their.PutCommitted(m.action, m.seqno, if us.Left? then m.stateB else m.stateA);
      pendingCommit := Some(m);
      return true;
    }

    method EditAsProposer(act: Action, w: World, loc: Local) returns (o: Outcome)
      requires Valid()
      modifies this, our, their
      ensures Matches(o, ProposeStep(old(View()), act, w, loc), old(View()), View())
    {
      if !loc.approves {
        return Failed;
      }
      match act
      case Increment => o := Edited;
      case AddCond(c, na) => o := AddOurConditional(c, na, w, loc);
      case CommitVirtual(id, u) => o := CommitOurConditional(id, u);
      case RemoveCond(id) => o := RemoveTheirConditional(id, loc);
      case ExecuteCond(id, r) => o := ExecuteTheirConditional(id, r, w, loc);
      case RentCapacity(coin, order) => o := RentTheirCapacity(coin, order, w);
      case CoopCommit(a, sig) =>
        var ok := CommitCooperatively(a, us.Left?, sig, us);
        o := if ok then Edited else Failed;
      case Swap(fc, fa, tc, ta) =>
        our.Swap(w.ActionOf(fc), fa);
        their.Swap(w.ActionOf(tc), ta);
        o := Edited;
    }

    method CommitOurConditional(id: Conditional, u: Conditional) returns (o: Outcome)
      requires Valid()
      modifies this, our, their
      ensures Matches(o, ProposeCommitVirtual(old(View()), id, u), old(View()), View())
    {
      if id in our.data.conds && our.data.conds[id].action in our.data.acts && u == our.data.conds[id] {
        return Idempotent;
      }
      var ok := our.Prepay(id, u);
      return if ok then Edited else Failed;
    }

    /** `updateOurStateWithAction`: on success the object holds the edited channel and the
        returned proposal seals it. */
    method UpdateOurStateWithAction(act: Action, w: World, loc: Local) returns (r: Result<SignedBody>)
      requires Valid()
      modifies this, our, their
      ensures match Propose(old(View()), act, w, loc)
              case Err => r.Err?
              case Ok((edited, prop)) => r == Ok(prop) && View() == edited
    {
      var before := Snapshot();
      var o := EditAsProposer(act, w, loc);
      if o.Failed? {
        return Err;
      }
      var body := CurrentBody(before);
      if o.Edited? {
        var after := Snapshot();
        body := Sealed(after, body.seqno + 1);
      }
      return Ok(SignedOnlyBy(us, body));
    }

    // ---------- receiver ----------

    method AddTheirConditional(c: Conditional, newAction: Option<SendAction>, w: World, loc: Local) returns (ok: bool)
      requires Valid()
      modifies this, our, their
      ensures Yields(ok, ReceiveAdd(old(View()), c, newAction, w, loc), View())
    {
      if newAction.Some? && newAction.value !in their.data.acts {
        if newAction.value != w.ActionOf(newAction.value.coin) {
          return false;
        }
        their.data := their.data.(acts := their.data.acts[newAction.value := EMPTY_SEND]);
      }
      if c.Deadline() - (w.now + w.closePeriod) < loc.minSafe {
        return false;
      }
      if c in their.data.conds {
        return true;
      }
      if !ValidOnAdd(c, w.now) || (c.Resolvable? && !c.isInitiator) {
        return false;
      }
      their.data := their.data.(conds := their.data.conds[c := c]);
      if c.Resolvable? {
        our.Ensure(LinkedOf(c));
      }
      return true;
    }

    method RemoveOurConditional(id: Conditional, loc: Local) returns (ok: bool)
      requires Valid()
      modifies this, our, their
      ensures Yields(ok, ReceiveRemove(old(View()), id, loc), View())
    {
      if id !in our.data.conds {
        return true;
      }
      var k := our.data.conds[id].key;
      if k !in loc.metas || ReceiverLink(loc.metas, k).Err? {
        return false;
      }
      var link := Found(ReceiverLink(loc.metas, k).value, their.data.conds);
      our.Delete(id);
      if link.Some? {
        their.Delete(link.value);
      }
      return true;
    }

    method ExecuteOurConditional(id: Conditional, r: Resolve, w: World, loc: Local) returns (ok: bool)
      requires Valid()
      modifies this, our, their
      ensures Yields(ok, ReceiveExecute(old(View()), id, r, w, loc), View())
    {
      if id !in our.data.conds {
        return true;
      }
      var cond := our.data.conds[id];
      if cond.key !in loc.metas || cond.Deadline() < w.now {
        return false;
      }
      if Validate(cond, loc.metas[cond.key].known, r, w.prices, w.latest).Wrong?
         || ReceiverLink(loc.metas, cond.key).Err? {
        return false;
      }
      var link := Found(ReceiverLink(loc.metas, cond.key).value, their.data.conds);
      ok := our.Settle(id, r);
      if ok {
        ok := their.SettleAsLinked(link, r, w.prices);
      }
    }

    method RentOurCapacity(coin: Coin, order: Order, w: World) returns (ok: bool)
      requires Valid()
      modifies this, our, their
      ensures Yields(ok, ReceiveRent(old(View()), coin, order, w), View())
    {
      if coin !in w.tariffs || w.tariffs[coin].rateDen == 0 || coin !in w.maxRent {
        return false;
      }
      var ld, used, diff := DepositOf(our.deposits, coin), 0, order.amount;
      if Active(ld, w.now) {
        used, diff := ld.value.used, diff - ld.value.amount;
      }
      var fee := DepositFee(w.tariffs[coin], ld, order, w.now);
      if order.till - w.now > MAX_RENT_SECONDS || diff <= 0 || diff > w.maxRent[coin] || fee <= 0 {
        return false;
      }
      their.Pay(w.ActionOf(coin), fee);
      our.deposits := our.deposits[coin := Locked(order.amount, order.till, used)];
      return true;
    }

    method EditAsReceiver(act: Action, w: World, loc: Local) returns (ok: bool)
      requires Valid()
      modifies this, our, their
      ensures Yields(ok, ReceiveStep(old(View()), act, w, loc), View())
    {
      if !loc.approves {
        return false;
      }
      match act
      case Increment => ok := true;
      case AddCond(c, na) => ok := AddTheirConditional(c, na, w, loc);
      case CommitVirtual(id, u) => ok := their.Prepay(id, u);
      case RemoveCond(id) => ok := RemoveOurConditional(id, loc);
      case ExecuteCond(id, r) => ok := ExecuteOurConditional(id, r, w, loc);
      case RentCapacity(coin, order) => ok := RentOurCapacity(coin, order, w);
      case CoopCommit(a, sig) => ok := CommitCooperatively(a, !us.Left?, sig, us.Other());
      case Swap(fc, fa, tc, ta) =>
        their.Swap(w.ActionOf(fc), fa);
        our.Swap(w.ActionOf(tc), ta);
        ok := true;
    }

    /** `ProcessAction` up to the store: a repeat is answered from the stored state and changes nothing,
        an accepted proposal leaves the object at the co-signed state. */
    method ProcessAction(p: SignedBody, act: Action, w: World, loc: Local) returns (r: Result<SignedBody>)
      requires Valid()
      modifies this, our, their
      ensures match Receive(old(View()), p, act, w, loc)
              case Rejected => r.Err?
              case Known(reply) => r == Ok(reply) && View() == old(View())
              case Accepted(ch, reply) => r == Ok(reply) && View() == ch
    {
      var them := us.Other();
      var before := Snapshot();
      if !loc.accepting || p.SigBy(them) != SigOf(them, p.body) || p.SigBy(us) != NoSig {
        return Err;
      }
      if p.body.seqno == CurrentBody(before).seqno {
        if signed.None? || !signed.value.WithSig(them, p.SigBy(them)).Full() {
          return Err;
        }
        return Ok(signed.value.WithSig(them, p.SigBy(them)));
      }
      if p.body.seqno != CurrentBody(before).seqno + 1 {
        return Err;
      }
      var ok := EditAsReceiver(act, w, loc);
      var after := Snapshot();
      if !ok || Sealed(after, p.body.seqno) != p.body {
        return Err;
      }
      var rec := p.WithSig(us, SigOf(us, p.body));
      signed := Some(rec);
      return Ok(rec);
    }
  }

  /** A mutating edit agrees with the proposer's transition. */
  ghost predicate Matches(o: Outcome, want: Proposed, before: Chan, after: Chan) {
    match want
    case Fails => o == Failed
    case Same => o == Idempotent && after == before
    case Changed(ch) => o == Edited && after == ch
  }

  /** A mutating edit agrees with the receiver's transition. */
  ghost predicate Yields(ok: bool, want: Result<Chan>, after: Chan) {
    match want
    case Err => !ok
    case Ok(ch) => ok && after == ch
  }
}
