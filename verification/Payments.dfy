/** The things a channel agrees on: send actions and their states, conditionals,
    the resolves that settle them, and the rented deposits they consume.
    A serialized cell is identified with its content, so a hash is the content itself. */
module Payments {
  import opened Prelude
  import opened Rent

  type Coin = nat

  /** A conditional's key. The linked key is a salted hash, so it is never a plain key
      and determines the key it was made from. */
  datatype Key = Plain(id: nat) | LinkedTo(base: Key)

  /** An insured send action; its identity is its code. */
  datatype SendAction = SendAction(coin: Coin, addrA: nat, addrB: nat) {
    function Reversed(): SendAction { SendAction(coin, addrB, addrA) }
  }

  /** `amount` is everything owed by this side, of which `committed` was signed for payout at `seqno`. */
  datatype SendState = SendState(amount: int, committed: int, seqno: nat)

  const EMPTY_SEND := SendState(0, 0, 0)

  datatype Details = Details(asset: nat, isLong: bool, leverage: nat, entry: int)

  datatype Conditional =
    | Virtual(key: Key, capacity: int, fee: int, prepay: int, deadline: int, action: SendAction)
    | Resolvable(key: Key, amount: int, fee: int, isInitiator: bool, resolver: nat, details: Details,
                 action: SendAction)
  {
    function Deadline(): int {
      if Virtual? then deadline else NO_DEADLINE
    }
  }

  // 3000-01-01 UTC
  const NO_DEADLINE := 32503680000

  /** Evidence that settles a conditional: a signed amount, or a price-based amount at a second. */
  datatype Resolve = Signed(amount: int, signer: Key) | Priced(key: Key, amount: int, at: int)

  type Deposits = map<Coin, Locked>

  /** Price answers by (asset, second). */
  type Prices = map<(nat, int), int>

  function AddCoins(s: SendState, x: int): SendState {
    s.(amount := s.amount + x)
  }

  /** Marks part of a rented deposit as used, never more than the deposit. */
  function MarkUsed(d: Deposits, coin: Coin, x: int): Deposits {
    if coin !in d then d
    else d[coin := d[coin].(used := Min(d[coin].used + x, d[coin].amount))]
  }

  /** What a signed state still costs: the part above the prepaid, never negative. */
  function VirtualNeed(c: Conditional, amount: int): int
    requires c.Virtual?
  {
    Max(amount + c.fee - c.prepay, 0)
  }

  /** What a priced state adds: capped by the collateral, fee paid to or kept from the initiator. */
  function ResolvableNeed(c: Conditional, amount: int): int
    requires c.Resolvable?
  {
    var capped := if c.amount > 0 && amount > c.amount then c.amount else amount;
    if c.isInitiator then capped + c.fee else Max(capped - c.fee, 0)
  }

  /** The amount `Execute` adds, or an error when the resolve is not for this conditional. */
  function Need(c: Conditional, r: Resolve): Result<int> {
    match c
    case Virtual(_, _, _, _, _, _) =>
      if r.Signed? && r.signer == c.key then Ok(VirtualNeed(c, r.amount)) else Err
    case Resolvable(_, _, _, _, _, _, _) =>
      if r.Priced? && r.key == c.key && r.amount >= 0 then Ok(ResolvableNeed(c, r.amount)) else Err
  }

  function Execute(c: Conditional, s: SendState, r: Resolve, d: Deposits): Result<(SendState, Deposits)> {
    match Need(c, r)
    case Err => Err
    case Ok(x) => Ok((AddCoins(s, x), MarkUsed(d, c.action.coin, x)))
  }

  /** Cooperative settlement: a price-based conditional that pays nothing is dropped without executing. */
  function Settle(c: Conditional, s: SendState, r: Resolve, d: Deposits): Result<(SendState, Deposits)> {
    if c.Resolvable? && !r.Priced? then Err
    else if c.Resolvable? && r.amount == 0 then Ok((s, d))
    else Execute(c, s, r, d)
  }

  /** Raises the prepaid part; nothing else of the conditional may change. */
  function CommitPrepay(c: Conditional, updated: Conditional, s: SendState): Result<(Conditional, SendState)> {
    if !c.Virtual? || !updated.Virtual? || c.(prepay := 0) != updated.(prepay := 0) then Err
    else if updated.prepay < c.prepay then Err
    else Ok((updated, AddCoins(s, updated.prepay - c.prepay)))
  }

  /** The committed form of a state for a cooperative payout at `seqno`: the fee is added,
      and what an earlier commit covered is taken out. */
  function PrepareExecute(s: SendState, seqno: nat, fee: int): Result<SendState> {
    if s.seqno >= seqno then Err
    else
      var amount := s.amount + fee;
      var due := if s.committed != 0 then amount - s.committed else amount;
      Ok(SendState(due, due, seqno))
  }

  /** The conditional put on the other side of a derivative: inverted direction and action, linked key. */
  function LinkedOf(c: Conditional): Conditional
    requires c.Resolvable?
  {
    Resolvable(LinkedTo(c.key), c.amount, c.fee, !c.isInitiator, c.resolver,
               c.details.(isLong := !c.details.isLong), c.action.Reversed())
  }

  /** Signed price move in favour of the conditional's direction. */
  function Move(d: Details, price: int): int {
    if d.isLong then price - d.entry else d.entry - price
  }

  function Pnl(c: Conditional, price: int): int
    requires c.Resolvable? && c.details.entry > 0
  {
    (c.amount * c.details.leverage * Move(c.details, price)) / c.details.entry
  }

  /** Loss at a price, capped by the collateral. */
  function CappedLoss(c: Conditional, price: int): int
    requires c.Resolvable? && c.details.entry > 0
  {
    var pnl := Pnl(c, price);
    if pnl >= 0 then 0 else if c.amount > 0 && -pnl > c.amount then c.amount else -pnl
  }

  /** Resolve of the linked conditional given the primary one; `Ok(None)` when it pays nothing. */
  function LinkedResolve(primary: Resolve, linked: Conditional, prices: Prices): Result<Option<Resolve>>
    requires linked.Resolvable?
  {
    if !primary.Priced? then Err
    else if primary.amount > 0 then Ok(None)
    else if (linked.details.asset, primary.at) !in prices || linked.details.entry <= 0 then Err
    else
      var loss := CappedLoss(linked, prices[(linked.details.asset, primary.at)]);
      if loss <= 0 then Ok(None) else Ok(Some(Priced(linked.key, loss, primary.at)))
  }

  // ---------- validating a state ----------

  datatype Validity = Fit | Older | Wrong

  const ACCEPTANCE_WINDOW := 10

  /** `ValidateState`, given the resolve already known: a signed amount within the capacity, or a priced
      amount within one of the capped loss at a recent second. Of a virtual channel, a state below the
      known one is reported before its size is checked. */
  function Validate(c: Conditional, known: Option<Resolve>, r: Resolve, prices: Prices,
                    latest: map<nat, int>): Validity {
    match c
    case Virtual(_, _, _, _, _, _) =>
      if !r.Signed? || r.signer != c.key || r.amount < 0 || (known.Some? && !known.value.Signed?) then Wrong
      else if known.Some? && known.value.amount > r.amount then Older
      else if r.amount > c.capacity then Wrong
      else Fit
    case Resolvable(_, _, _, _, _, d, _) =>
      if known.Some? || !r.Priced? || r.key != c.key || d.asset !in latest || latest[d.asset] <= 0 then Wrong
      else if r.at > latest[d.asset] + 2 || latest[d.asset] - r.at > ACCEPTANCE_WINDOW || r.amount < 0 then Wrong
      else if (d.asset, r.at) !in prices || d.entry <= 0 then Wrong
      else if AmountAccepted(c, r.amount, prices[(d.asset, r.at)]) then Fit
      else Wrong
  }

  /** Within one of the capped loss at that price. */
  predicate AmountAccepted(c: Conditional, amount: int, price: int)
    requires c.Resolvable? && c.details.entry > 0
  {
    -1 <= amount - CappedLoss(c, price) <= 1
  }
}
