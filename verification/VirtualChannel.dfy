/** Virtual channels: prepaying a conditional in steps, executing it, and agreeing with the contract. */
module VirtualChannel {
  import opened Prelude
  import opened Payments

  // ---------- prepay commits ----------

  /** `PrepareCommit`: the conditional with everything up to the signed amount, fee included, prepaid. */
  function PrepareCommit(c: Conditional, r: Resolve): Result<Conditional> {
    if !c.Virtual? || !r.Signed? || r.signer != c.key || r.amount > c.capacity then Err
    else if c.prepay > r.amount + c.fee then Err
    else Ok(c.(prepay := r.amount + c.fee))
  }

  /** Commits built from signed states one after another; a refused one changes nothing. */
  function CommitAll(c: Conditional, s: SendState, states: seq<Resolve>): (Conditional, SendState)
    decreases |states|
  {
    if states == [] then (c, s)
    else match PrepareCommit(c, states[0])
      case Err => CommitAll(c, s, states[1..])
      case Ok(u) => match CommitPrepay(c, u, s)
        case Err => CommitAll(c, s, states[1..])
        case Ok((c', s')) => CommitAll(c', s', states[1..])
  }

  /** The largest amount among the states signed by `key` within `capacity`; -1 when there is none. */
  function Largest(states: seq<Resolve>, key: Key, capacity: int): (m: int)
    ensures m >= -1
    decreases |states|
  {
    if states == [] then -1
    else
      var rest := Largest(states[1..], key, capacity);
      var r := states[0];
      if r.Signed? && r.signer == key && 0 <= r.amount <= capacity then Max(r.amount, rest) else rest
  }

  predicate NonNegative(states: seq<Resolve>) {
    forall i :: 0 <= i < |states| ==> states[i].amount >= 0
  }

  /** With `best` committed before, the prepaid part is that amount plus the fee. */
  predicate PrepaidUpTo(c: Conditional, best: int) {
    c.Virtual? && c.fee >= 0 && best >= -1 && c.prepay == (if best < 0 then 0 else best + c.fee)
  }

  lemma {:induction false} CommitsTrackTheLargest(c: Conditional, s: SendState, states: seq<Resolve>, best: int)
    requires PrepaidUpTo(c, best) && NonNegative(states)
    ensures
      var (c', s') := CommitAll(c, s, states);
      && PrepaidUpTo(c', Max(best, Largest(states, c.key, c.capacity)))
      && c' == c.(prepay := c'.prepay)
      && s' == AddCoins(s, c'.prepay - c.prepay)
    decreases |states|
  {
    if states != [] {
      var r, rest := states[0], states[1..];
      assert NonNegative(rest) by {
        assert forall i :: 0 <= i < |rest| ==> rest[i] == states[i + 1];
      }
      if r.Signed? && r.signer == c.key && r.amount <= c.capacity && r.amount >= best {
        var c1 := c.(prepay := r.amount + c.fee);
        assert PrepareCommit(c, r) == Ok(c1);
        CommitsTrackTheLargest(c1, AddCoins(s, c1.prepay - c.prepay), rest, r.amount);
      } else {
        assert PrepareCommit(c, r).Err?;
        CommitsTrackTheLargest(c, s, rest, best);
      }
    }
  }

  /** However the commits were split, prepaying and then executing adds the larger of the final and
      the largest committed amount, plus the fee once. */
  lemma {:induction false} PrepayThenExecuteAddsOnce(c: Conditional, s: SendState, states: seq<Resolve>,
                                                     final: Resolve, d: Deposits)
    requires c.Virtual? && c.prepay == 0 && c.fee >= 0 && NonNegative(states)
    requires final.Signed? && final.signer == c.key && final.amount >= 0
    ensures
      var (c', s') := CommitAll(c, s, states);
      var done := Execute(c', s', final, d);
      && done.Ok?
      && done.value.0 == AddCoins(s, Max(final.amount, Largest(states, c.key, c.capacity)) + c.fee)
  {
    CommitsTrackTheLargest(c, s, states, -1);
  }

  // ---------- the contract ----------

  /** `conditional_coins`: what the contract adds, or a throw. */
  function ContractAdds(c: Conditional, amount: int): Result<int>
    requires c.Virtual?
  {
    if amount <= c.capacity && c.prepay <= amount then Ok((amount - c.prepay) + c.fee) else Err
  }

  /** Off chain and on chain add the same exactly when prepay <= amount <= capacity; elsewhere the
      contract throws, and off chain the difference still owed is the unpaid part of the fee. */
  lemma ExecuteAgreesWithContract(c: Conditional, amount: int)
    requires c.Virtual? && c.fee >= 0
    ensures ContractAdds(c, amount) == Ok(VirtualNeed(c, amount)) <==> c.prepay <= amount <= c.capacity
    ensures amount < c.prepay ==> VirtualNeed(c, amount) == Max(c.fee - (c.prepay - amount), 0)
  {
  }

  /** After committing a state, the contract refuses that very state exactly when the fee is positive:
      it was prepaid in full, and nothing more is owed for it. */
  lemma CommittedStateOnChain(c: Conditional, r: Resolve)
    requires c.fee >= 0 && PrepareCommit(c, r).Ok?
    ensures
      var u := PrepareCommit(c, r).value;
      VirtualNeed(u, r.amount) == 0 && (ContractAdds(u, r.amount).Err? <==> c.fee > 0)
  {
  }

  /** `conditional_derivative`: the capped amount with the initiator's fee on top, or the fee kept from it. */
  function DerivativeContractAdds(c: Conditional, amount: nat): int
    requires c.Resolvable?
  {
    var capped := if c.amount != 0 && amount > c.amount then c.amount else amount;
    if c.isInitiator then capped + c.fee else if c.fee < capped then capped - c.fee else 0
  }

  /** Executing a derivative adds what its contract adds; cooperative settlement differs exactly when
      nothing is settled and the initiator's fee is positive. */
  lemma DerivativeAgreesWithContract(c: Conditional, r: Resolve, s: SendState, d: Deposits)
    requires c.Resolvable? && c.amount >= 0 && c.fee >= 0 && r.Priced? && r.key == c.key && r.amount >= 0
    ensures Need(c, r) == Ok(DerivativeContractAdds(c, r.amount))
    ensures Settle(c, s, r, d).Ok?
    ensures (Settle(c, s, r, d).value.0 == AddCoins(s, DerivativeContractAdds(c, r.amount))) <==>
            !(r.amount == 0 && c.isInitiator && c.fee > 0)
  {
  }

  // ---------- which states reach execution ----------

  /** A node's record of one conditional: the form it receives, the form it passes on, and the best resolve it knows. */
  datatype Record = Record(incoming: Option<Conditional>, outgoing: Option<Conditional>, known: Option<Resolve>)

  /** `AddKnownResolve` against one of the forms: the record afterwards, or a refusal. */
  function Learned(rec: Record, c: Conditional, r: Resolve, now: int, errOnOlder: bool, prices: Prices,
                   latest: map<nat, int>): Result<Record> {
    if c.Deadline() < now then Err
    else match Validate(c, rec.known, r, prices, latest)
      case Wrong => Err
      case Older => if errOnOlder then Err else Ok(rec)
      case Fit => Ok(rec.(known := Some(r)))
  }

  /** The record as the service edits it. */
  class ConditionalRecord {
    const incoming: Option<Conditional>
    const outgoing: Option<Conditional>
    var known: Option<Resolve>

    ghost function View(): Record
      reads this
    {
      Record(incoming, outgoing, known)
    }

    constructor (incoming: Option<Conditional>, outgoing: Option<Conditional>)
      ensures View() == Record(incoming, outgoing, None)
    {
      this.incoming, this.outgoing, known := incoming, outgoing, None;
    }

    /** `AddKnownResolve`. Of a virtual channel the known amount never shrinks. */
    method AddKnownResolve(c: Conditional, r: Resolve, now: int, errOnOlder: bool, prices: Prices,
                           latest: map<nat, int>)
      returns (ok: bool)
      modifies this
      ensures ok == Learned(old(View()), c, r, now, errOnOlder, prices, latest).Ok?
      ensures View() == if ok then Learned(old(View()), c, r, now, errOnOlder, prices, latest).value else old(View())
      ensures c.Virtual? && old(known).Some? ==> known.Some? && known.value.amount >= old(known).value.amount
    {
      if c.Deadline() < now {
        return false;
      }
      var v := Validate(c, known, r, prices, latest);
      if v.Older? && !errOnOlder {
        return true;
      }
      if !v.Fit? {
        return false;
      }
      known := Some(r);
      return true;
    }

    /** `AddConditionalResolve`: checked against the incoming form when there is one. */
    method AddConditionalResolve(r: Resolve, now: int, prices: Prices, latest: map<nat, int>) returns (ok: bool)
      modifies this
      ensures View() == Heard(old(View()), Learn(r, now), prices, latest)
    {
      if incoming.Some? {
        ok := AddKnownResolve(incoming.value, r, now, true, prices, latest);
      } else if outgoing.Some? {
        ok := AddKnownResolve(outgoing.value, r, now, true, prices, latest);
      } else {
        ok := false;
      }
    }
  }

  /** A resolve reaches a record from outside, or with the request to execute its outgoing form. */
  datatype Arrival = Learn(r: Resolve, now: int) | Asked(r: Resolve, now: int)

  function Heard(rec: Record, e: Arrival, prices: Prices, latest: map<nat, int>): Record {
    var form := if e.Learn? && rec.incoming.Some? then rec.incoming else rec.outgoing;
    if form.None? then rec
    else match Learned(rec, form.value, e.r, e.now, e.Learn?, prices, latest)
      case Err => rec
      case Ok(next) => next
  }

  function HeardAll(rec: Record, es: seq<Arrival>, prices: Prices, latest: map<nat, int>): Record
    decreases |es|
  {
    if es == [] then rec else HeardAll(Heard(rec, es[0], prices, latest), es[1..], prices, latest)
  }

  /** What a record learns, resolve by resolve: from outside by the form it receives, or the one it passes on when it
      is the first; with a request always by the one it passes on, and then an older resolve does no harm. */
  lemma RecordLearns(rec: Record, c: Conditional, r: Resolve, now: int, prices: Prices, latest: map<nat, int>)
    requires now <= c.Deadline() && Validate(c, rec.known, r, prices, latest).Fit?
    ensures rec.incoming == Some(c) || (rec.incoming == None && rec.outgoing == Some(c)) ==>
              Heard(rec, Learn(r, now), prices, latest) == rec.(known := Some(r))
    ensures rec.outgoing == Some(c) ==> Heard(rec, Asked(r, now), prices, latest) == rec.(known := Some(r))
  {
  }

  lemma RecordRefuses(rec: Record, c: Conditional, r: Resolve, now: int, prices: Prices, latest: map<nat, int>)
    requires c.Deadline() < now || !Validate(c, rec.known, r, prices, latest).Fit?
    ensures rec.incoming == Some(c) || (rec.incoming == None && rec.outgoing == Some(c)) ==>
              Heard(rec, Learn(r, now), prices, latest) == rec
    ensures rec.outgoing == Some(c) ==> Heard(rec, Asked(r, now), prices, latest) == rec
    ensures Learned(rec, c, r, now, true, prices, latest).Err?
    ensures Learned(rec, c, r, now, false, prices, latest).Ok? <==>
              now <= c.Deadline() && Validate(c, rec.known, r, prices, latest).Older?
  {
  }

  /** A virtual channel's record: both forms of one key. */
  predicate Tunnelled(rec: Record) {
    && rec.outgoing.Some? && rec.outgoing.value.Virtual? && rec.outgoing.value.capacity > 0
    && (rec.incoming.Some? ==> rec.incoming.value.Virtual? && rec.incoming.value.key == rec.outgoing.value.key)
  }

  /** The largest amount the record can come to know. */
  function Limit(rec: Record): int
    requires Tunnelled(rec)
  {
    if rec.incoming.Some? then Max(rec.incoming.value.capacity, rec.outgoing.value.capacity)
    else rec.outgoing.value.capacity
  }

  predicate KnownWithin(rec: Record, limit: int) {
    rec.known.Some? ==> rec.known.value.Signed? && rec.known.value.amount <= limit
  }

  lemma {:induction false} KnownStaysWithin(rec: Record, es: seq<Arrival>, prices: Prices, latest: map<nat, int>)
    requires Tunnelled(rec) && KnownWithin(rec, Limit(rec))
    ensures
      var after := HeardAll(rec, es, prices, latest);
      KnownWithin(after, Limit(rec)) && after.incoming == rec.incoming && after.outgoing == rec.outgoing
    decreases |es|
  {
    if es != [] {
      KnownStaysWithin(Heard(rec, es[0], prices, latest), es[1..], prices, latest);
    }
  }

  /** A state that passes validation for execution, also as an ignored older one. */
  predicate LetThrough(c: Conditional, known: Option<Resolve>, r: Resolve, prices: Prices, latest: map<nat, int>) {
    !Validate(c, known, r, prices, latest).Wrong?
  }

  /** Of a virtual channel, what is let through is signed by its key for no less than nothing, and no more than the
      capacity or less than what is known; it fits when it is within the capacity and no less than what is known. */
  lemma StateLetThroughExactly(c: Conditional, known: Option<Resolve>, r: Resolve, prices: Prices,
                               latest: map<nat, int>)
    requires c.Virtual? && (known.Some? ==> known.value.Signed?)
    ensures LetThrough(c, known, r, prices, latest) <==>
              (&& r.Signed? && r.signer == c.key && 0 <= r.amount
               && (r.amount <= c.capacity || (known.Some? && r.amount < known.value.amount)))
    ensures Validate(c, known, r, prices, latest).Fit? <==>
              (&& r.Signed? && r.signer == c.key && 0 <= r.amount <= c.capacity
               && (known.Some? ==> known.value.amount <= r.amount))
  {
  }

  /** Everything let through is within the capacity exactly when the known amount is at most one above it: a known
      state above the capacity shields older ones from the size check. */
  lemma LetThroughExactly(c: Conditional, known: Option<Resolve>, prices: Prices, latest: map<nat, int>)
    requires c.Virtual? && c.capacity > 0 && (known.Some? ==> known.value.Signed?)
    ensures (forall r :: LetThrough(c, known, r, prices, latest) ==> r.amount <= c.capacity)
            <==> (known.Some? ==> known.value.amount <= c.capacity + 1)
  {
    var above := Signed(c.capacity + 1, c.key);
    if known.Some? && known.value.amount > c.capacity + 1 {
      assert LetThrough(c, known, above, prices, latest);
    }
  }

  /** After the arrivals `es` a request at `now` to execute the outgoing form with `r` is let through, its deadline
      included. */
  predicate Reaches(rec: Record, es: seq<Arrival>, r: Resolve, now: int, prices: Prices, latest: map<nat, int>)
    requires rec.outgoing.Some?
  {
    Learned(HeardAll(rec, es, prices, latest), rec.outgoing.value, r, now, false, prices, latest).Ok?
  }

  /** So over every series of arrivals, what is let through for the outgoing form is within its capacity exactly when
      the node has no incoming form, or one at most one coin larger. */
  lemma OutgoingIsCoveredExactly(rec: Record, prices: Prices, latest: map<nat, int>)
    requires Tunnelled(rec) && rec.known.None?
    ensures (forall es, r, now :: Reaches(rec, es, r, now, prices, latest) ==> r.amount <= rec.outgoing.value.capacity)
            <==> (rec.incoming.Some? ==> rec.incoming.value.capacity <= rec.outgoing.value.capacity + 1)
  {
    var out := rec.outgoing.value;
    if rec.incoming.Some? && rec.incoming.value.capacity > out.capacity + 1 {
      LargerIncomingLetsThrough(rec, prices, latest);
      var now := Min(rec.incoming.value.deadline, out.deadline);
      var es := [Learn(Signed(rec.incoming.value.capacity, out.key), now)];
      var r := Signed(out.capacity + 1, out.key);
      assert Reaches(rec, es, r, now, prices, latest) && r.amount > out.capacity;
    } else {
      forall es, r, now | Reaches(rec, es, r, now, prices, latest) ensures r.amount <= out.capacity {
        KnownStaysWithin(rec, es, prices, latest);
        var known := HeardAll(rec, es, prices, latest).known;
        LetThroughExactly(out, known, prices, latest);
        assert LetThrough(out, known, r, prices, latest);
      }
    }
  }

  /** The series that shows it, all while both forms are open: the whole incoming amount becomes known, then an older
      state above the outgoing capacity is let through. */
  lemma LargerIncomingLetsThrough(rec: Record, prices: Prices, latest: map<nat, int>)
    requires Tunnelled(rec) && rec.known.None? && rec.incoming.Some?
    requires rec.incoming.value.capacity > rec.outgoing.value.capacity + 1
    ensures
      var now := Min(rec.incoming.value.deadline, rec.outgoing.value.deadline);
      var first := Learn(Signed(rec.incoming.value.capacity, rec.outgoing.value.key), now);
      Reaches(rec, [first], Signed(rec.outgoing.value.capacity + 1, rec.outgoing.value.key), now, prices, latest)
  {
    var now := Min(rec.incoming.value.deadline, rec.outgoing.value.deadline);
    var first := Learn(Signed(rec.incoming.value.capacity, rec.outgoing.value.key), now);
    assert HeardAll(rec, [first], prices, latest) == Heard(rec, first, prices, latest);
  }
}
