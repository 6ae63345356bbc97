/** Coins owed through a send action: what the node adds and commits off chain, what the contract's
    `action_ton` pays, and that together they never lose or mint a coin. */
module Payout {
  import opened Prelude
  import opened Payments

  // ---------- the contract ----------

  /** What a state still owes once commits up to `chain` were paid. */
  function Owed(chain: nat, s: SendState): int {
    if chain >= s.seqno then s.amount - s.committed else s.amount
  }

  /** `action_ton` executed at the side owing `our`: a missing counter state counts as zero,
      and only our commit seqno decides whether the committed parts are taken out. */
  function ContractPays(chain: nat, our: Option<SendState>, their: Option<SendState>): int {
    if our.None? then 0
    else
      var t := if their.Some? then their.value else EMPTY_SEND;
      var landed := chain >= our.value.seqno;
      var amt := (if landed then our.value.amount - our.value.committed else our.value.amount)
                 - (if landed then t.amount - t.committed else t.amount);
      if amt <= 0 then 0 else amt
  }

  /** Coins the two contracts together move from A to B. */
  function ContractNet(chain: nat, a: Option<SendState>, b: Option<SendState>): int {
    ContractPays(chain, a, b) - ContractPays(chain, b, a)
  }

  // ---------- a run ----------

  datatype WhoPays = Nobody | SideA | SideB

  /** A commit both parties signed and nobody has seen on chain yet. */
  datatype Commit = Commit(seqno: nat, a: Option<SendState>, b: Option<SendState>)

  /** `netPaid` moved from A to B on chain so far; `addedX` is everything ever added for side X, fees included. */
  datatype Ledger = Ledger(a: Option<SendState>, b: Option<SendState>, chain: nat, pending: Option<Commit>,
                           netPaid: int, paidA: int, paidB: int, addedA: int, addedB: int)

  datatype Event =
    | Add(onA: bool, amount: nat)
    | Sign(seqno: nat, fee: nat, who: WhoPays)
    | Land

  function Added(s: Option<SendState>, x: nat): Option<SendState> {
    Some(AddCoins(if s.Some? then s.value else EMPTY_SEND, x))
  }

  function Prepared(s: Option<SendState>, seqno: nat, fee: nat): Result<Option<SendState>> {
    if s.None? then Ok(None)
    else match PrepareExecute(s.value, seqno, fee)
      case Err => Err
      case Ok(r) => Ok(Some(r))
  }

  /** Signing waits for the pending commit; a fee needs the payer's state to exist. */
  function DoSign(l: Ledger, e: Event): Ledger
    requires e.Sign?
  {
    var feeA, feeB := if e.who.SideA? then e.fee else 0, if e.who.SideB? then e.fee else 0;
    if l.pending.Some? || (l.a.None? && l.b.None?) || e.seqno <= l.chain
       || (e.who.SideA? && l.a.None?) || (e.who.SideB? && l.b.None?) then l
    else match (Prepared(l.a, e.seqno, feeA), Prepared(l.b, e.seqno, feeB))
      case (Ok(a), Ok(b)) =>
        l.(a := a, b := b, pending := Some(Commit(e.seqno, a, b)), addedA := l.addedA + feeA, addedB := l.addedB + feeB)
      case _ => l
  }

  /** The pending commit executes on chain: its own states are paid by the contract formula. */
  function DoLand(l: Ledger): Ledger {
    if l.pending.None? then l
    else
      var c := l.pending.value;
      l.(chain := c.seqno, pending := None,
         netPaid := l.netPaid + ContractNet(l.chain, c.a, c.b),
         paidA := l.paidA + (if c.a.Some? then c.a.value.committed else 0),
         paidB := l.paidB + (if c.b.Some? then c.b.value.committed else 0))
  }

  function Step(l: Ledger, e: Event): Ledger {
    match e
    case Add(onA, x) =>
      if onA then l.(a := Added(l.a, x), addedA := l.addedA + x) else l.(b := Added(l.b, x), addedB := l.addedB + x)
    case Sign(_, _, _) => DoSign(l, e)
    case Land => DoLand(l)
  }

  function Run(l: Ledger, es: seq<Event>): Ledger
    decreases |es|
  {
    if es == [] then l else Run(Step(l, es[0]), es[1..])
  }

  const EMPTY_LEDGER := Ledger(None, None, 0, None, 0, 0, 0, 0, 0)

  // ---------- invariant ----------

  function OwedOn(chain: nat, s: Option<SendState>): int {
    if s.None? then 0 else Owed(chain, s.value)
  }

  /** A side's state: a commit above the chain's is exactly the pending one. */
  ghost predicate SideOk(l: Ledger, s: Option<SendState>, inCommit: Option<SendState>, paid: int, added: int) {
    && paid + OwedOn(l.chain, s) == added
    && (s.Some? ==> s.value.amount >= s.value.committed >= 0)
    && (s.Some? && s.value.seqno > l.chain ==>
          l.pending.Some? && s.value.seqno == l.pending.value.seqno && inCommit.Some?
          && inCommit.value.committed == s.value.committed)
    && (s.Some? && s.value.seqno <= l.chain && l.pending.Some? ==> inCommit.None? && s.value.committed == 0)
    && (s.None? ==> inCommit.None?)
    && (inCommit.Some? ==> l.pending.Some? && inCommit.value.amount == inCommit.value.committed
                           && inCommit.value.seqno == l.pending.value.seqno)
  }

  ghost predicate Balanced(l: Ledger) {
    var (ca, cb) := if l.pending.Some? then (l.pending.value.a, l.pending.value.b) else (None, None);
    && SideOk(l, l.a, ca, l.paidA, l.addedA) && SideOk(l, l.b, cb, l.paidB, l.addedB)
    && l.netPaid == l.paidA - l.paidB
    && (l.pending.Some? ==> l.pending.value.seqno > l.chain)
  }

  lemma SignKeeps(l: Ledger, e: Event)
    requires Balanced(l) && e.Sign?
    ensures Balanced(DoSign(l, e))
  {
  }

  /** A landing commit moves exactly the difference of the committed parts. */
  lemma LandKeeps(l: Ledger)
    requires Balanced(l)
    ensures Balanced(DoLand(l))
  {
  }

  lemma AddKeeps(l: Ledger, e: Event)
    requires Balanced(l) && e.Add?
    ensures Balanced(Step(l, e))
  {
  }

  lemma StepKeeps(l: Ledger, e: Event)
    requires Balanced(l)
    ensures Balanced(Step(l, e))
  {
    match e
    case Add(_, _) => AddKeeps(l, e);
    case Sign(_, _, _) => SignKeeps(l, e);
    case Land => LandKeeps(l);
  }

  lemma {:induction false} RunStaysBalanced(l: Ledger, es: seq<Event>)
    requires Balanced(l)
    ensures Balanced(Run(l, es))
    decreases |es|
  {
    if es != [] {
      StepKeeps(l, es[0]);
      RunStaysBalanced(Step(l, es[0]), es[1..]);
    }
  }

  /** The ledgers some run leads to. */
  ghost predicate Reached(l: Ledger) { exists es :: l == Run(EMPTY_LEDGER, es) }

  lemma ReachedIsBalanced(l: Ledger)
    requires Reached(l)
    ensures Balanced(l)
  {
    var es :| l == Run(EMPTY_LEDGER, es);
    RunStaysBalanced(EMPTY_LEDGER, es);
  }

  // ---------- conservation ----------

  /** Coins paid on chain plus what the contract would still pay are everything ever added, fees included. */
  predicate Conserved(l: Ledger) {
    l.netPaid + ContractNet(l.chain, l.a, l.b) == l.addedA - l.addedB
  }

  /** Both sides' commits landed, or neither did: the contract's assumption that their seqnos are in sync. */
  predicate InSync(l: Ledger) {
    l.a.Some? && l.b.Some? ==> (l.chain >= l.a.value.seqno <==> l.chain >= l.b.value.seqno)
  }

  /** A side with a commit in flight owes so much that the fresh counter side still pays nothing. */
  predicate Harmless(busy: SendState, idle: SendState) {
    busy.committed == 0 || idle.amount + busy.committed <= busy.amount
  }

  predicate HarmlessOutOfSync(l: Ledger) {
    l.a.Some? && l.b.Some? &&
    if l.a.value.seqno > l.chain then Harmless(l.a.value, l.b.value) else Harmless(l.b.value, l.a.value)
  }

  lemma ConservedExactly(l: Ledger)
    requires Balanced(l)
    ensures Conserved(l) <==> InSync(l) || HarmlessOutOfSync(l)
  {
  }

  /** In every run conservation holds exactly while the commit seqnos are in sync, or the side without
      a commit is too small to matter. */
  lemma CoinsAreConservedExactly(l: Ledger)
    requires Reached(l)
    ensures Conserved(l) <==> InSync(l) || HarmlessOutOfSync(l)
  {
    ReachedIsBalanced(l);
    ConservedExactly(l);
  }

  lemma NetIsOwedDifference(chain: nat, a: Option<SendState>, b: Option<SendState>)
    requires a.Some? && b.Some? ==> (chain >= a.value.seqno <==> chain >= b.value.seqno)
    requires a.Some? ==> Owed(chain, a.value) >= 0 && a.value.committed >= 0
    requires b.Some? ==> Owed(chain, b.value) >= 0 && b.value.committed >= 0
    ensures ContractNet(chain, a, b) == OwedOn(chain, a) - OwedOn(chain, b)
  {
  }

  /** The two states exist before the first commit is signed. */
  predicate BothKnownBeforeSigning(es: seq<Event>, knowA: bool, knowB: bool)
    decreases |es|
  {
    es == [] ||
    (match es[0]
     case Add(onA, _) => BothKnownBeforeSigning(es[1..], knowA || onA, knowB || !onA)
     case Sign(_, _, _) => knowA && knowB && BothKnownBeforeSigning(es[1..], knowA, knowB)
     case Land => BothKnownBeforeSigning(es[1..], knowA, knowB))
  }

  lemma {:induction false} SyncKept(l: Ledger, es: seq<Event>)
    requires Balanced(l) && BothKnownBeforeSigning(es, l.a.Some?, l.b.Some?)
    requires l.a.Some? && l.b.Some? ==> l.a.value.seqno == l.b.value.seqno
    requires l.a.None? || l.b.None? ==> l.pending.None?
    requires l.a.None? ==> l.b.Some? ==> l.b.value.seqno == 0
    requires l.b.None? ==> l.a.Some? ==> l.a.value.seqno == 0
    ensures InSync(Run(l, es))
    decreases |es|
  {
    if es != [] {
      StepKeeps(l, es[0]);
      SyncKept(Step(l, es[0]), es[1..]);
    }
  }

  /** So a run whose commits are signed once both sides have a state conserves every coin. */
  lemma {:induction false} CoinsAreConserved(l: Ledger, es: seq<Event>)
    requires l == EMPTY_LEDGER && BothKnownBeforeSigning(es, l.a.Some?, l.b.Some?)
    ensures Conserved(Run(l, es))
  {
    SyncKept(l, es);
    RunStaysBalanced(l, es);
    ConservedExactly(Run(l, es));
  }

  lemma RunOfThree(l: Ledger, x: Event, y: Event, z: Event)
    ensures Run(l, [x, y, z]) == Step(Step(Step(l, x), y), z)
  {
    assert [x, y, z][1..] == [y, z] && [y, z][1..] == [z] && [z][1..] == [];
    assert Run(Step(l, x), [y, z]) == Run(Step(Step(l, x), y), [z]);
  }

  /** Without that order coins can be paid twice: A's commit of 10 is in flight when B's state appears. */
  lemma LateCounterStateBreaksConservation(l: Ledger)
    requires l == EMPTY_LEDGER
    ensures !Conserved(Run(l, [Add(true, 10), Sign(1, 0, Nobody), Add(false, 1)]))
  {
    RunOfThree(l, Add(true, 10), Sign(1, 0, Nobody), Add(false, 1));
    var l2 := Step(Step(l, Add(true, 10)), Sign(1, 0, Nobody));
    assert l2.a == Some(SendState(10, 10, 1)) && l2.b == None;
  }

  // ---------- closing ----------

  /** `checkCanRemove`. */
  function CanRemove(chain: nat, s: SendState): bool {
    (if chain >= s.seqno then s.amount - s.committed else s.amount) <= 0
  }

  lemma RemovableExactly(l: Ledger)
    requires Balanced(l)
    ensures l.a.Some? ==> (CanRemove(l.chain, l.a.value) <==> l.paidA == l.addedA)
    ensures l.b.Some? ==> (CanRemove(l.chain, l.b.value) <==> l.paidB == l.addedB)
    ensures Closable(l) && InSync(l) ==>
              && ContractPays(l.chain, l.a, l.b) == 0 && ContractPays(l.chain, l.b, l.a) == 0
              && l.netPaid == l.addedA - l.addedB
  {
  }

  predicate Closable(l: Ledger) {
    (l.a.Some? ==> CanRemove(l.chain, l.a.value)) && (l.b.Some? ==> CanRemove(l.chain, l.b.value))
  }

  /** In every run a side's state may be dropped exactly when all that was added on it has been paid;
      when both may be, the contracts pay nothing more. */
  lemma RemovableOwesNothing(l: Ledger)
    requires Reached(l)
    ensures l.a.Some? ==> (CanRemove(l.chain, l.a.value) <==> l.paidA == l.addedA)
    ensures l.b.Some? ==> (CanRemove(l.chain, l.b.value) <==> l.paidB == l.addedB)
    ensures Closable(l) && InSync(l) ==>
              && ContractPays(l.chain, l.a, l.b) == 0 && ContractPays(l.chain, l.b, l.a) == 0
              && l.netPaid == l.addedA - l.addedB
  {
    ReachedIsBalanced(l);
    RemovableExactly(l);
  }

  /** The loops of `getCooperativeCloseRequest`: deadlines of both sides' conditionals, then both
      sides' action states against that side's last committed seqno. */
  method MayCloseCooperatively(transfers: nat, deadlines: seq<int>, now: int,
                               our: seq<SendState>, ourChain: nat, their: seq<SendState>, theirChain: nat)
    returns (ok: bool)
    ensures ok <==> && transfers == 0
                    && (forall i :: 0 <= i < |deadlines| ==> deadlines[i] <= now)
                    && (forall i :: 0 <= i < |our| ==> Owed(ourChain, our[i]) <= 0)
                    && (forall i :: 0 <= i < |their| ==> Owed(theirChain, their[i]) <= 0)
  {
    if transfers > 0 {
      return false;
    }
    for i := 0 to |deadlines|
      invariant forall k :: 0 <= k < i ==> deadlines[k] <= now
    {
      if deadlines[i] > now {
        return false;
      }
    }
    var ourOk := AllRemovable(our, ourChain);
    if !ourOk {
      return false;
    }
    ok := AllRemovable(their, theirChain);
  }

  method AllRemovable(states: seq<SendState>, chain: nat) returns (ok: bool)
    ensures ok <==> forall i :: 0 <= i < |states| ==> Owed(chain, states[i]) <= 0
  {
    for i := 0 to |states|
      invariant forall k :: 0 <= k < i ==> Owed(chain, states[k]) <= 0
    {
      if !CanRemove(chain, states[i]) {
        return false;
      }
    }
    return true;
  }
}
