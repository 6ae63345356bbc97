/** Balance emulation: what each side of a channel may still spend, and how the agreed
    operations change it. */
module Balance {
  import opened Prelude
  import opened Payments
  import opened Channel

  // ---------- sums over dictionaries ----------

  /** The total of a weight over a dictionary, in whatever order it is walked. */
  ghost function Sum<K(!new), V(!new)>(m: map<K, V>, w: (K, V) -> int): int
    decreases m.Keys
  {
    if m == map[] then 0
    else
      var k :| k in m;
      w(k, m[k]) + Sum(m - {k}, w)
  }

  lemma {:induction false} SumDrop<K(!new), V(!new)>(m: map<K, V>, w: (K, V) -> int, k: K)
    requires k in m
    ensures Sum(m, w) == w(k, m[k]) + Sum(m - {k}, w)
    decreases m.Keys
  {
    var j :| j in m && Sum(m, w) == w(j, m[j]) + Sum(m - {j}, w);
    if j != k {
      SumDrop(m - {j}, w, k);
      SumDrop(m - {k}, w, j);
      assert m - {j} - {k} == m - {k} - {j};
    }
  }

  lemma SumPut<K(!new), V(!new)>(m: map<K, V>, w: (K, V) -> int, k: K, v: V)
    ensures Sum(m[k := v], w) == Sum(m, w) + w(k, v) - (if k in m then w(k, m[k]) else 0)
  {
    SumDrop(m[k := v], w, k);
    assert m[k := v] - {k} == m - {k};
    if k in m {
      SumDrop(m, w, k);
    } else {
      assert m - {k} == m;
    }
  }

  lemma {:induction false} SumNonNegative<K(!new), V(!new)>(m: map<K, V>, w: (K, V) -> int)
    requires forall k :: k in m ==> w(k, m[k]) >= 0
    ensures Sum(m, w) >= 0
    decreases m.Keys
  {
    if m != map[] {
      var k :| k in m && Sum(m, w) == w(k, m[k]) + Sum(m - {k}, w);
      SumNonNegative(m - {k}, w);
    }
  }

  // ---------- what one entry weighs ----------

  type Quotes = map<nat, int>

  function EmulatedRoi(c: Conditional, price: int): int
    requires c.Resolvable? && c.details.entry != 0
  {
    (Move(c.details, price) * c.amount * c.details.leverage) / c.details.entry
  }

  predicate Priceable(c: Conditional, q: Quotes) {
    c.Resolvable? ==> c.details.asset in q && c.details.entry != 0
  }

  /** Coins kept back from the payer while the conditional is open. */
  function LockOf(c: Conditional, q: Quotes): int {
    match c
    case Virtual(_, cap, fee, prepay, _, _) => Max(cap + fee - (if prepay > 0 then prepay else 0), 0)
    case Resolvable(_, amount, fee, init, _, _, _) =>
      if !Priceable(c, q) then 0
      else
        var roi := EmulatedRoi(c, q[c.details.asset]);
        var base := if roi < 0 && -roi > Max(amount, -amount) then -roi else amount;
        if init then base + fee else Max(base - fee, 0)
  }

  /** Coins shown as possibly incoming to the other side. */
  function PendOf(c: Conditional, q: Quotes): int {
    match c
    case Virtual(_, cap, fee, prepay, _, _) => Max(cap + fee - (if prepay > 0 then prepay else 0), 0)
    case Resolvable(_, amount, fee, init, _, _, _) =>
      if !Priceable(c, q) then 0
      else
        var roi := EmulatedRoi(c, q[c.details.asset]);
        Max(if init then roi + fee else roi - fee, 0)
  }

  ghost function OwedWeight(coin: Coin): (SendAction, SendState) -> int {
    (a: SendAction, s: SendState) => if a.coin == coin then s.amount - s.committed else 0
  }

  ghost function LockWeight(coin: Coin, q: Quotes): (Conditional, Conditional) -> int {
    (id: Conditional, c: Conditional) => if c.action.coin == coin then LockOf(c, q) else 0
  }

  ghost function PendWeight(coin: Coin, q: Quotes): (Conditional, Conditional) -> int {
    (id: Conditional, c: Conditional) => if c.action.coin == coin then PendOf(c, q) else 0
  }

  ghost function HoldWeight(coin: Coin): (nat, map<Coin, int>) -> int {
    (id: nat, amounts: map<Coin, int>) => if coin in amounts then amounts[coin] else 0
  }

  // ---------- the balance of a side ----------

  datatype Info = Info(onchain: int, action: int, onHold: int, locked: int, pending: int) {
    /** `BalanceInfo.Available`. */
    function Available(): int {
      onchain + action - (if onHold > 0 then onHold else 0) - (if locked > 0 then locked else 0)
    }
  }

  const NEW_INFO := Info(0, 0, 0, 0, 0)

  /** A side with its contract's coins. */
  datatype Account = Account(active: bool, onchain: map<Coin, int>, side: Side)

  function Coins(a: Account, coin: Coin): int {
    if a.active && coin in a.onchain then a.onchain[coin] else 0
  }

  ghost function OwedBy(s: Side, coin: Coin): int { Sum(s.data.acts, OwedWeight(coin)) }
  ghost function Held(s: Side, coin: Coin): int { Sum(s.transfers, HoldWeight(coin)) }
  ghost function LockedBy(s: Side, coin: Coin, q: Quotes): int { Sum(s.data.conds, LockWeight(coin, q)) }
  ghost function PendingFrom(s: Side, coin: Coin, q: Quotes): int { Sum(s.data.conds, PendWeight(coin, q)) }

  /** What `CalcBalance` should report for `mine` against `peer`. */
  ghost function BalanceOf(mine: Account, peer: Account, coin: Coin, q: Quotes): Info {
    Info(Coins(mine, coin), OwedBy(peer.side, coin) - OwedBy(mine.side, coin), Held(mine.side, coin),
         LockedBy(mine.side, coin, q), PendingFrom(peer.side, coin, q))
  }

  // ---------- CalcBalance ----------

  type Balances = map<Coin, Info>

  function Entry(b: Balances, coin: Coin): Info { if coin in b then b[coin] else NEW_INFO }

  method SetOnchain(b: Balances, onchain: map<Coin, int>) returns (r: Balances)
    requires onchain.Keys <= b.Keys
    ensures r.Keys == b.Keys
    ensures forall c :: c in r ==> r[c] == if c in onchain then b[c].(onchain := onchain[c]) else b[c]
  {
    r := b;
    var rest := onchain;
    while rest != map[]
      invariant rest.Keys <= onchain.Keys && r.Keys == b.Keys
      invariant forall c :: c in rest ==> rest[c] == onchain[c]
      invariant forall c :: c in r ==>
        r[c] == if c in onchain && c !in rest then b[c].(onchain := onchain[c]) else b[c]
      decreases |rest|
    {
      var c :| c in rest;
      r := r[c := r[c].(onchain := rest[c])];
      rest := rest - {c};
    }
  }

  method AddTransfer(b: Balances, amounts: map<Coin, int>) returns (r: Balances)
    requires amounts.Keys <= b.Keys
    ensures r.Keys == b.Keys
    ensures forall c :: c in r ==> r[c] == b[c].(onHold := b[c].onHold + (if c in amounts then amounts[c] else 0))
  {
    r := b;
    var rest := amounts;
    while rest != map[]
      invariant rest.Keys <= amounts.Keys && r.Keys == b.Keys
      invariant forall c :: c in rest ==> rest[c] == amounts[c]
      invariant forall c :: c in r ==>
        r[c] == b[c].(onHold := b[c].onHold + (if c in amounts && c !in rest then amounts[c] else 0))
      decreases |rest|
    {
      var c :| c in rest;
      r := r[c := r[c].(onHold := r[c].onHold + rest[c])];
      rest := rest - {c};
    }
  }

  /** `r` is `b` with the transfers outside `rest` put on hold. */
  ghost predicate TransfersCounted(b: Balances, r: Balances, transfers: map<nat, map<Coin, int>>,
                                   rest: map<nat, map<Coin, int>>) {
    && r.Keys == b.Keys && (forall id :: id in rest ==> rest[id].Keys <= b.Keys)
    && forall c :: c in b ==>
         r[c] == b[c].(onHold := b[c].onHold + Sum(transfers, HoldWeight(c)) - Sum(rest, HoldWeight(c)))
  }

  lemma CountTransfer(b: Balances, r: Balances, r': Balances, transfers: map<nat, map<Coin, int>>,
                      rest: map<nat, map<Coin, int>>, id: nat)
    requires TransfersCounted(b, r, transfers, rest) && id in rest && r'.Keys == r.Keys
    requires forall c :: c in r ==>
      r'[c] == r[c].(onHold := r[c].onHold + (if c in rest[id] then rest[id][c] else 0))
    ensures TransfersCounted(b, r', transfers, rest - {id})
  {
    forall c | c in b
      ensures r'[c] == b[c].(onHold := b[c].onHold + Sum(transfers, HoldWeight(c)) - Sum(rest - {id}, HoldWeight(c)))
    {
      SumDrop(rest, HoldWeight(c), id);
    }
  }

  method AddTransfers(b: Balances, transfers: map<nat, map<Coin, int>>) returns (r: Balances)
    requires forall id :: id in transfers ==> transfers[id].Keys <= b.Keys
    ensures TransfersCounted(b, r, transfers, map[])
  {
    r := b;
    var rest := transfers;
    while rest != map[]
      invariant TransfersCounted(b, r, transfers, rest)
      decreases |rest|
    {
      var id :| id in rest;
      ghost var before := r;
      r := AddTransfer(r, rest[id]);
      CountTransfer(b, before, r, transfers, rest, id);
      rest := rest - {id};
    }
  }

  lemma {:induction false} UnheldCoin(transfers: map<nat, map<Coin, int>>, c: Coin)
    requires forall id :: id in transfers ==> c !in transfers[id]
    ensures Sum(transfers, HoldWeight(c)) == 0
    decreases transfers.Keys
  {
    if transfers != map[] {
      var id :| id in transfers;
      SumDrop(transfers, HoldWeight(c), id);
      UnheldCoin(transfers - {id}, c);
    }
  }

  function CoinsOf(acts: ActDict): set<Coin> { set a | a in acts :: a.coin }

  /** `r` is `b` with the action states of `acts` outside `rest` counted, to our cost or to our gain. */
  ghost predicate ActionsCounted(b: Balances, r: Balances, acts: ActDict, rest: ActDict, fromUs: bool) {
    && r.Keys + CoinsOf(rest) == b.Keys + CoinsOf(acts)
    && forall c :: Entry(r, c) == WithAction(Entry(b, c), Sum(acts, OwedWeight(c)) - Sum(rest, OwedWeight(c)), fromUs)
  }

  function WithAction(i: Info, amt: int, fromUs: bool): Info {
    i.(action := if fromUs then i.action - amt else i.action + amt)
  }

  lemma CountAction(b: Balances, r: Balances, acts: ActDict, rest: ActDict, a: SendAction, fromUs: bool)
    requires ActionsCounted(b, r, acts, rest, fromUs) && a in rest
    ensures
      var amt := rest[a].amount - rest[a].committed;
      ActionsCounted(b, r[a.coin := WithAction(Entry(r, a.coin), amt, fromUs)], acts, rest - {a}, fromUs)
  {
    var r' := r[a.coin := WithAction(Entry(r, a.coin), rest[a].amount - rest[a].committed, fromUs)];
    forall c: Coin
      ensures Entry(r', c) == WithAction(Entry(b, c), Sum(acts, OwedWeight(c)) - Sum(rest - {a}, OwedWeight(c)), fromUs)
    {
      SumDrop(rest, OwedWeight(c), a);
    }
    assert CoinsOf(rest) == CoinsOf(rest - {a}) + {a.coin};
  }

  /** The two loops over action states: what a side owes, as a loss to it and a gain to the other. */
  method AddActions(b: Balances, acts: ActDict, fromUs: bool) returns (r: Balances)
    ensures ActionsCounted(b, r, acts, map[], fromUs)
  {
    r := b;
    var rest := acts;
    while rest != map[]
      invariant ActionsCounted(b, r, acts, rest, fromUs)
      decreases |rest|
    {
      var a :| a in rest;
      var amt := rest[a].amount - rest[a].committed;
      CountAction(b, r, acts, rest, a, fromUs);
      r := r[a.coin := WithAction(Entry(r, a.coin), amt, fromUs)];
      rest := rest - {a};
    }
  }

  /** A conditional whose effect cannot be computed: unknown coin, no price, or no entry price. */
  predicate Stuck(coins: set<Coin>, c: Conditional, q: Quotes) { c.action.coin !in coins || !Priceable(c, q) }

  ghost predicate AnyStuck(coins: set<Coin>, conds: CondDict, q: Quotes) {
    exists id :: id in conds && Stuck(coins, conds[id], q)
  }

  function WithConditional(i: Info, lock: int, pend: int, fromUs: bool): Info {
    if fromUs then i.(locked := i.locked + lock) else i.(pending := i.pending + pend)
  }

  /** By coin, what the conditionals of `conds` outside `rest` lock and promise. */
  ghost function LockDone(conds: CondDict, rest: CondDict, q: Quotes): Coin -> int {
    (c: Coin) => Sum(conds, LockWeight(c, q)) - Sum(rest, LockWeight(c, q))
  }

  ghost function PendDone(conds: CondDict, rest: CondDict, q: Quotes): Coin -> int {
    (c: Coin) => Sum(conds, PendWeight(c, q)) - Sum(rest, PendWeight(c, q))
  }

  ghost predicate Counted(b: Balances, r: Balances, lock: Coin -> int, pend: Coin -> int, fromUs: bool) {
    r.Keys == b.Keys && forall c :: c in b ==> r[c] == WithConditional(b[c], lock(c), pend(c), fromUs)
  }

  /** `r` is `b` with the conditionals of `conds` outside `rest` counted. */
  ghost predicate CondsCounted(b: Balances, r: Balances, conds: CondDict, rest: CondDict, fromUs: bool, q: Quotes) {
    && Counted(b, r, LockDone(conds, rest, q), PendDone(conds, rest, q), fromUs)
    && (AnyStuck(b.Keys, rest, q) <==> AnyStuck(b.Keys, conds, q))
  }

  /** Counting one more conditional adds to its own coin and to no other. */
  lemma ConditionalCounts(conds: CondDict, rest: CondDict, id: Conditional, q: Quotes, c: Coin)
    requires id in rest
    ensures LockDone(conds, rest - {id}, q)(c) == LockDone(conds, rest, q)(c)
            + (if c == rest[id].action.coin then LockOf(rest[id], q) else 0)
    ensures PendDone(conds, rest - {id}, q)(c) == PendDone(conds, rest, q)(c)
            + (if c == rest[id].action.coin then PendOf(rest[id], q) else 0)
  {
    SumDrop(rest, LockWeight(c, q), id);
    SumDrop(rest, PendWeight(c, q), id);
  }

  lemma CountOne(b: Balances, r: Balances, l: Coin -> int, p: Coin -> int, l': Coin -> int, p': Coin -> int,
                 coin: Coin, lock: int, pend: int, fromUs: bool)
    requires Counted(b, r, l, p, fromUs) && coin in b
    requires forall c :: l'(c) == l(c) + (if c == coin then lock else 0)
    requires forall c :: p'(c) == p(c) + (if c == coin then pend else 0)
    ensures Counted(b, r[coin := WithConditional(r[coin], lock, pend, fromUs)], l', p', fromUs)
  {
  }

  lemma CountConditional(b: Balances, r: Balances, conds: CondDict, rest: CondDict, id: Conditional, fromUs: bool,
                         q: Quotes)
    requires CondsCounted(b, r, conds, rest, fromUs, q) && id in rest && !Stuck(b.Keys, rest[id], q)
    ensures
      var coin := rest[id].action.coin;
      CondsCounted(b, r[coin := WithConditional(r[coin], LockOf(rest[id], q), PendOf(rest[id], q), fromUs)], conds,
                   rest - {id}, fromUs, q)
  {
    var l, p := LockDone(conds, rest, q), PendDone(conds, rest, q);
    var l', p' := LockDone(conds, rest - {id}, q), PendDone(conds, rest - {id}, q);
    var coin, lock, pend := rest[id].action.coin, LockOf(rest[id], q), PendOf(rest[id], q);
    forall c: Coin
      ensures l'(c) == l(c) + (if c == coin then lock else 0) && p'(c) == p(c) + (if c == coin then pend else 0)
    {
      ConditionalCounts(conds, rest, id, q, c);
    }
    CountOne(b, r, l, p, l', p', coin, lock, pend, fromUs);
    StuckDrop(b.Keys, rest, id, q);
  }

  lemma StuckDrop(coins: set<Coin>, conds: CondDict, id: Conditional, q: Quotes)
    requires id in conds && !Stuck(coins, conds[id], q)
    ensures AnyStuck(coins, conds - {id}, q) <==> AnyStuck(coins, conds, q)
  {
    if AnyStuck(coins, conds, q) {
      var k :| k in conds && Stuck(coins, conds[k], q);
      assert k in conds - {id} && (conds - {id})[k] == conds[k];
    }
  }

  lemma NothingCounted(b: Balances, conds: CondDict, fromUs: bool, q: Quotes)
    ensures CondsCounted(b, b, conds, conds, fromUs, q)
  {
  }

  lemma StuckIsStuck(b: Balances, r: Balances, conds: CondDict, rest: CondDict, id: Conditional, fromUs: bool,
                     q: Quotes)
    requires CondsCounted(b, r, conds, rest, fromUs, q) && id in rest && Stuck(r.Keys, rest[id], q)
    ensures AnyStuck(b.Keys, conds, q)
  {
  }

  /** One turn of the loops over conditionals. */
  method AddConditional(bal: Balances, rest: CondDict, fromUs: bool, q: Quotes, ghost b: Balances,
                        ghost conds: CondDict)
    returns (r: Result<Balances>, left: CondDict)
    requires rest != map[] && CondsCounted(b, bal, conds, rest, fromUs, q)
    ensures |left| < |rest|
    ensures r.Err? ==> AnyStuck(b.Keys, conds, q)
    ensures r.Ok? ==> CondsCounted(b, r.value, conds, left, fromUs, q)
  {
    var id :| id in rest;
    var cond := rest[id];
    left := rest - {id};
    if Stuck(bal.Keys, cond, q) {
      StuckIsStuck(b, bal, conds, rest, id, fromUs, q);
      r := Err;
    } else {
      CountConditional(b, bal, conds, rest, id, fromUs, q);
      var coin := cond.action.coin;
      r := Ok(bal[coin := WithConditional(bal[coin], LockOf(cond, q), PendOf(cond, q), fromUs)]);
    }
  }

  lemma AllCounted(b: Balances, r: Balances, conds: CondDict, fromUs: bool, q: Quotes)
    requires CondsCounted(b, r, conds, map[], fromUs, q)
    ensures !AnyStuck(b.Keys, conds, q)
  {
  }

  /** The two loops over conditionals. */
  method AddConditionals(b: Balances, conds: CondDict, fromUs: bool, q: Quotes) returns (r: Result<Balances>)
    ensures r.Err? <==> AnyStuck(b.Keys, conds, q)
    ensures r.Ok? ==> CondsCounted(b, r.value, conds, map[], fromUs, q)
  {
    r := Ok(b);
    var rest := conds;
    NothingCounted(b, conds, fromUs, q);
    while rest != map[]
      invariant r.Ok? && CondsCounted(b, r.value, conds, rest, fromUs, q)
      decreases |rest|
    {
      r, rest := AddConditional(r.value, rest, fromUs, q, b, conds);
      if r.Err? {
        return;
      }
    }
    AllCounted(b, r.value, conds, fromUs, q);
  }

  /** The balance before any conditional is looked at. */
  ghost function Unlocked(mine: Account, peer: Account, coin: Coin): Info {
    Info(Coins(mine, coin), OwedBy(peer.side, coin) - OwedBy(mine.side, coin), Held(mine.side, coin), 0, 0)
  }

  lemma WithBothConditionals(mine: Account, peer: Account, q: Quotes, b: Balances, half: Balances, r: Balances)
    requires forall c :: c in b ==> b[c] == Unlocked(mine, peer, c)
    requires CondsCounted(b, half, mine.side.data.conds, map[], true, q)
    requires CondsCounted(half, r, peer.side.data.conds, map[], false, q)
    ensures r.Keys == b.Keys && forall c :: c in r ==> r[c] == BalanceOf(mine, peer, c, q)
  {
  }

  /** Coins nobody told us about start from nothing. */
  lemma BeforeConditionals(known: set<Coin>, mine: Account, peer: Account, b0: Balances, b1: Balances, b: Balances)
    requires mine.active ==> mine.onchain.Keys <= known
    requires forall id :: id in mine.side.transfers ==> mine.side.transfers[id].Keys <= known
    requires b0.Keys == known
    requires forall c :: c in b0 ==> b0[c] == NEW_INFO.(onchain := Coins(mine, c), onHold := Held(mine.side, c))
    requires ActionsCounted(b0, b1, mine.side.data.acts, map[], true)
    requires ActionsCounted(b1, b, peer.side.data.acts, map[], false)
    ensures b.Keys == known + CoinsOf(mine.side.data.acts) + CoinsOf(peer.side.data.acts)
    ensures forall c :: c in b ==> b[c] == Unlocked(mine, peer, c)
  {
    forall c | c in b
      ensures b[c] == Unlocked(mine, peer, c)
    {
      if c !in known {
        UnheldCoin(mine.side.transfers, c);
      }
      assert Entry(b, c) == WithAction(Entry(b1, c), OwedBy(peer.side, c), false);
      assert Entry(b1, c) == WithAction(Entry(b0, c), OwedBy(mine.side, c), true);
    }
  }

  /** `CalcBalance`. It fails exactly when a conditional of either side is stuck; otherwise every known
      coin, and every coin an action state mentions, gets the balance the dictionaries add up to. */
  method CalcBalance(known: set<Coin>, mine: Account, peer: Account, q: Quotes) returns (r: Result<Balances>)
    requires mine.active ==> mine.onchain.Keys <= known
    requires forall id :: id in mine.side.transfers ==> mine.side.transfers[id].Keys <= known
    ensures
      var coins := known + CoinsOf(mine.side.data.acts) + CoinsOf(peer.side.data.acts);
      && (r.Err? <==> AnyStuck(coins, mine.side.data.conds, q) || AnyStuck(coins, peer.side.data.conds, q))
      && (r.Ok? ==> r.value.Keys == coins && forall c :: c in coins ==> r.value[c] == BalanceOf(mine, peer, c, q))
  {
    var b := CalcUnlocked(known, mine, peer);
    var half := AddConditionals(b, mine.side.data.conds, true, q);
    if half.Err? {
      return Err;
    }
    r := AddConditionals(half.value, peer.side.data.conds, false, q);
    if r.Ok? {
      WithBothConditionals(mine, peer, q, b, half.value, r.value);
    }
  }

  method CalcUnlocked(known: set<Coin>, mine: Account, peer: Account) returns (b: Balances)
    requires mine.active ==> mine.onchain.Keys <= known
    requires forall id :: id in mine.side.transfers ==> mine.side.transfers[id].Keys <= known
    ensures b.Keys == known + CoinsOf(mine.side.data.acts) + CoinsOf(peer.side.data.acts)
    ensures forall c :: c in b ==> b[c] == Unlocked(mine, peer, c)
  {
    b := CalcHeld(known, mine);
    ghost var b0 := b;
    b := AddActions(b, mine.side.data.acts, true);
    ghost var b1 := b;
    b := AddActions(b, peer.side.data.acts, false);
    BeforeConditionals(known, mine, peer, b0, b1, b);
  }

  /** Coins on chain and coins on hold. */
  method CalcHeld(known: set<Coin>, mine: Account) returns (b: Balances)
    requires mine.active ==> mine.onchain.Keys <= known
    requires forall id :: id in mine.side.transfers ==> mine.side.transfers[id].Keys <= known
    ensures b.Keys == known
    ensures forall c :: c in b ==> b[c] == NEW_INFO.(onchain := Coins(mine, c), onHold := Held(mine.side, c))
  {
    b := map c | c in known :: NEW_INFO;
    if mine.active {
      b := SetOnchain(b, mine.onchain);
    }
    b := AddTransfers(b, mine.side.transfers);
  }
}
