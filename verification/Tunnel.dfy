/** Tunnels: the instructions a sender writes for every hop, what each hop accepts and forwards,
    and what everyone along an accepted tunnel pays and earns. */
module Tunnel {
  import opened Prelude
  import opened Payments

  type PubKey = nat

  datatype Part = Part(target: PubKey, capacity: nat, fee: nat, deadline: int)

  /** One hop's instruction. `own` is the key it is encrypted with, so only `target` can open it, and only when told
      that key. */
  datatype Instruction =
    Instruction(own: PubKey, target: PubKey, nextKey: PubKey, expectedDeadline: int, nextTarget: PubKey,
                nextDeadline: int, expectedFee: nat, expectedCapacity: nat, nextFee: nat, nextCapacity: nat,
                final: Option<Resolve>)

  /** Not set. */
  const NO_KEY: PubKey := 0

  // ---------- writing instructions ----------

  /** The key of instruction `i`: freshly generated, but the sender's own for the last one when it is given. */
  function KeyAt(n: nat, pool: seq<PubKey>, sender: Option<PubKey>, i: nat): PubKey
    requires i < n <= |pool|
  {
    if i == n - 1 && sender.Some? then sender.value else pool[i]
  }

  function Keys(n: nat, pool: seq<PubKey>, sender: Option<PubKey>): (r: seq<PubKey>)
    requires n <= |pool|
    ensures |r| == n
  {
    seq(n, i requires 0 <= i < n => KeyAt(n, pool, sender, i))
  }

  /** Every hop's key is freshly generated, but the last one is the sender's own when it gave one, so that the receiver
      knows whom it is from. */
  lemma LastKeyIsTheSenders(n: nat, pool: seq<PubKey>, sender: Option<PubKey>)
    requires 0 < n <= |pool|
    ensures Keys(n, pool, sender)[n - 1] == if sender.Some? then sender.value else pool[n - 1]
    ensures forall i :: 0 <= i < n - 1 ==> Keys(n, pool, sender)[i] == pool[i]
  {
  }

  /** What hop `i` should be told: its own part of the chain, and the next one, or its own again at the end. */
  function Intended(chain: seq<Part>, keys: seq<PubKey>, i: nat, vkey: Key, withFinal: bool): Instruction
    requires i < |chain| == |keys|
  {
    var p := chain[i];
    if i < |chain| - 1 then
      var q := chain[i + 1];
      Instruction(keys[i], p.target, keys[i + 1], p.deadline, q.target, q.deadline, p.fee, p.capacity, q.fee,
                  q.capacity, None)
    else
      Instruction(keys[i], p.target, NO_KEY, p.deadline, p.target, p.deadline, p.fee, p.capacity, p.fee, p.capacity,
                  if withFinal then Some(Signed(p.capacity, vkey)) else None)
  }

  /** `GenerateTunnel` without stubs: each turn of the loop patches its key into the instruction before. */
  method GenerateTunnel(vkey: Key, chain: seq<Part>, withFinal: bool, sender: Option<PubKey>, pool: seq<PubKey>)
    returns (r: Result<(PubKey, seq<Instruction>)>)
    requires |pool| >= |chain|
    ensures r.Err? <==> chain == []
    ensures r.Ok? ==>
      var keys := Keys(|chain|, pool, sender);
      && r.value.0 == keys[0] && |r.value.1| == |chain|
      && forall i :: 0 <= i < |chain| ==> r.value.1[i] == Intended(chain, keys, i, vkey, withFinal)
  {
    if chain == [] {
      return Err;
    }
    ghost var keys := Keys(|chain|, pool, sender);
    var first := NO_KEY;
    var list: seq<Instruction> := [];
    var i := 0;
    while i < |chain|
      invariant 0 <= i <= |chain| && |list| == i
      invariant i > 0 ==> first == keys[0]
      invariant forall j :: 0 <= j < i - 1 ==> list[j] == Intended(chain, keys, j, vkey, withFinal)
      invariant i > 0 ==> list[i - 1] == Intended(chain, keys, i - 1, vkey, withFinal).(nextKey := NO_KEY)
    {
      var p := chain[i];
      var pub: PubKey;
      if i != |chain| - 1 || sender.None? {
        pub := pool[i];
      } else {
        pub := sender.value;
      }
      if i > 0 {
        list := list[i - 1 := list[i - 1].(nextKey := pub)];
      } else {
        first := pub;
      }
      var next, final := p, None;
      if i < |chain| - 1 {
        next := chain[i + 1];
      } else if withFinal {
        final := Some(Signed(p.capacity, vkey));
      }
      list := list + [Instruction(pub, p.target, NO_KEY, p.deadline, next.target, next.deadline, p.fee, p.capacity,
                                  next.fee, next.capacity, final)];
      i := i + 1;
    }
    return Ok((first, list));
  }

  // ---------- one hop ----------

  /** A node on the way: who it is, its clock and safety margins, its terms for the coin, the sender's Available
      balance with the new conditional counted, and the action of the channel it would forward through.
      `percent` is its proportional fee for an amount. */
  datatype Hop = Hop(node: PubKey, now: int, closePeriod: int, minSafe: int, minFee: nat, percent: int -> int,
                     maxCapacity: int, maxRent: int, tunnels: bool, available: int, nextAction: SendAction)

  datatype Verdict = Refused | Final | Forward(cond: Conditional, key: PubKey, target: PubKey)

  /** `DecryptOurInstruction`: the first instruction that opens with our key and the one we were told. */
  function Ours(list: seq<Instruction>, node: PubKey, key: PubKey): Option<Instruction>
    decreases |list|
  {
    if list == [] then None
    else if list[0].target == node && list[0].own == key then Some(list[0])
    else Ours(list[1..], node, key)
  }

  function WantedFee(h: Hop, ins: Instruction): int {
    Max(h.percent(ins.nextCapacity + ins.nextFee), h.minFee)
  }

  /** `CheckInstruction` of a virtual channel. */
  predicate InstructionOk(h: Hop, c: Conditional, ins: Instruction, isFinal: bool)
    requires c.Virtual?
  {
    && ins.expectedFee == c.fee && ins.expectedCapacity == c.capacity
    && if isFinal then
         if ins.final.Some? then
           ins.final.value.Signed? && ins.final.value.signer == c.key && ins.final.value.amount == c.capacity
           && ins.final.value.amount <= h.maxRent
         else h.available >= 0
       else
         && h.available >= 0 && ins.nextCapacity <= c.capacity && h.tunnels
         && ins.nextCapacity + ins.nextFee <= h.maxCapacity
         && c.fee - ins.nextFee >= WantedFee(h, ins)
  }

  /** `PrepareNext`. */
  function NextOf(c: Conditional, ins: Instruction, a: SendAction): Conditional
    requires c.Virtual?
  {
    Virtual(c.key, ins.nextCapacity, ins.nextFee, 0, ins.nextDeadline, a)
  }

  function MarginOf(h: Hop): int { h.closePeriod + h.minSafe }

  /** What a node does with a conditional it is asked to add. */
  function Visit(list: seq<Instruction>, h: Hop, c: Conditional, key: PubKey): Verdict {
    if !c.Virtual? || c.deadline - (h.now + h.closePeriod) < h.minSafe then Refused
    else if c.capacity <= 0 || c.fee < 0 || c.prepay != 0 || c.deadline < h.now then Refused
    else match Ours(list, h.node, key)
      case None => Refused
      case Some(ins) =>
        var isFinal := ins.nextTarget == h.node;
        if ins.expectedDeadline != c.deadline || !InstructionOk(h, c, ins, isFinal) then Refused
        else if isFinal then Final
        else if ins.nextDeadline > c.deadline - MarginOf(h) then Refused
        else Forward(NextOf(c, ins, h.nextAction), ins.nextKey, ins.nextTarget)
  }

  /** The hops visited one after another: accepted when the last one is the destination and nobody refused. */
  predicate Accepted(list: seq<Instruction>, hops: seq<Hop>, c: Conditional, key: PubKey)
    decreases |hops|
  {
    hops != [] &&
    match Visit(list, hops[0], c, key)
    case Refused => false
    case Final => |hops| == 1
    case Forward(next, k, target) => |hops| > 1 && hops[1].node == target && Accepted(list, hops[1..], next, k)
  }

  // ---------- what the chain must satisfy ----------

  /** The conditional described by one part of the chain. */
  predicate Describes(p: Part, c: Conditional, vkey: Key) {
    c.Virtual? && c.key == vkey && c.capacity == p.capacity && c.fee == p.fee && c.prepay == 0
      && c.deadline == p.deadline
  }

  predicate InTime(h: Hop, p: Part) {
    p.capacity > 0 && p.deadline - h.now >= MarginOf(h) && p.deadline >= h.now
  }

  /** A hop's terms for passing `p` on as `q`. */
  predicate PassesOn(h: Hop, p: Part, q: Part) {
    && InTime(h, p) && h.tunnels && h.available >= 0
    && q.capacity <= p.capacity && q.capacity + q.fee <= h.maxCapacity
    && p.fee - q.fee >= Max(h.percent(q.capacity + q.fee), h.minFee)
    && q.deadline <= p.deadline - MarginOf(h)
  }

  predicate TakesIn(h: Hop, p: Part, withFinal: bool) {
    InTime(h, p) && if withFinal then p.capacity <= h.maxRent else h.available >= 0
  }

  /** The terms of every hop from `i` on. */
  predicate TermsMet(chain: seq<Part>, hops: seq<Hop>, withFinal: bool, i: nat)
    requires |chain| == |hops|
    decreases |chain| - i
  {
    if i >= |chain| then true
    else if i == |chain| - 1 then TakesIn(hops[i], chain[i], withFinal)
    else PassesOn(hops[i], chain[i], chain[i + 1]) && TermsMet(chain, hops, withFinal, i + 1)
  }

  /** The instructions written for a chain, with keys and nodes that tell hops apart. */
  ghost predicate Written(list: seq<Instruction>, chain: seq<Part>, keys: seq<PubKey>, hops: seq<Hop>, vkey: Key,
                          withFinal: bool) {
    && |list| == |chain| == |keys| == |hops| > 0
    && (forall i :: 0 <= i < |chain| ==> list[i] == Intended(chain, keys, i, vkey, withFinal))
    && (forall i, j :: 0 <= i < j < |keys| ==> keys[i] != keys[j])
    && (forall i :: 0 <= i < |chain| ==> hops[i].node == chain[i].target)
    && (forall i :: 0 <= i < |chain| - 1 ==> chain[i].target != chain[i + 1].target)
  }

  lemma {:induction false} FindsItsOwn(list: seq<Instruction>, i: nat, node: PubKey, key: PubKey)
    requires i < |list| && list[i].target == node && list[i].own == key
    requires forall j :: 0 <= j < i ==> list[j].own != key
    ensures Ours(list, node, key) == Some(list[i])
    decreases i
  {
    if i > 0 {
      FindsItsOwn(list[1..], i - 1, node, key);
    }
  }

  lemma VisitFollows(list: seq<Instruction>, chain: seq<Part>, keys: seq<PubKey>, hops: seq<Hop>, vkey: Key,
                     withFinal: bool, i: nat, c: Conditional)
    requires Written(list, chain, keys, hops, vkey, withFinal) && i < |chain| && Describes(chain[i], c, vkey)
    ensures i == |chain| - 1 ==>
      Visit(list, hops[i], c, keys[i]) == if TakesIn(hops[i], chain[i], withFinal) then Final else Refused
    ensures i < |chain| - 1 ==>
      var v := Visit(list, hops[i], c, keys[i]);
      if PassesOn(hops[i], chain[i], chain[i + 1])
      then v.Forward? && Describes(chain[i + 1], v.cond, vkey) && v.key == keys[i + 1]
           && v.target == chain[i + 1].target && v.cond.action == hops[i].nextAction
      else v.Refused?
  {
    FindsItsOwn(list, i, hops[i].node, keys[i]);
  }

  lemma {:induction false} FollowsFrom(list: seq<Instruction>, chain: seq<Part>, keys: seq<PubKey>, hops: seq<Hop>,
                                       vkey: Key, withFinal: bool, i: nat, c: Conditional)
    requires Written(list, chain, keys, hops, vkey, withFinal) && i < |chain| && Describes(chain[i], c, vkey)
    ensures Accepted(list, hops[i..], c, keys[i]) <==> TermsMet(chain, hops, withFinal, i)
    decreases |chain| - i
  {
    VisitFollows(list, chain, keys, hops, vkey, withFinal, i, c);
    if i < |chain| - 1 && PassesOn(hops[i], chain[i], chain[i + 1]) {
      var v := Visit(list, hops[i], c, keys[i]);
      FollowsFrom(list, chain, keys, hops, vkey, withFinal, i + 1, v.cond);
      assert hops[i..][1..] == hops[i + 1..];
    }
  }

  /** Following the instructions re-creates the chain hop by hop, and the tunnel opens exactly when every hop's
      terms are met by the parts the sender chose. */
  lemma TunnelOpensExactly(list: seq<Instruction>, chain: seq<Part>, keys: seq<PubKey>, hops: seq<Hop>, vkey: Key,
                           withFinal: bool, c: Conditional)
    requires Written(list, chain, keys, hops, vkey, withFinal) && Describes(chain[0], c, vkey)
    ensures Accepted(list, hops, c, keys[0]) <==> TermsMet(chain, hops, withFinal, 0)
  {
    FollowsFrom(list, chain, keys, hops, vkey, withFinal, 0, c);
    assert hops[0..] == hops;
  }

  /** Targets must differ from hop to hop: a node named twice in a row takes itself for the destination. */
  lemma RepeatedTargetEndsEarly(list: seq<Instruction>, chain: seq<Part>, keys: seq<PubKey>, vkey: Key, withFinal: bool,
                                i: nat, h: Hop, c: Conditional)
    requires |list| == |chain| == |keys| && i + 1 < |chain| && chain[i].target == chain[i + 1].target == h.node
    requires forall j :: 0 <= j < |chain| ==> list[j] == Intended(chain, keys, j, vkey, withFinal)
    requires forall j, k :: 0 <= j < k < |keys| ==> keys[j] != keys[k]
    ensures !Visit(list, h, c, keys[i]).Forward?
  {
    FindsItsOwn(list, i, h.node, keys[i]);
  }

  // ---------- what an open tunnel promises ----------

  /** What the payer of hop `i` owes once the final amount is known. */
  function Payment(chain: seq<Part>, i: nat, amount: int): int
    requires i < |chain|
  {
    Max(amount + chain[i].fee, 0)
  }

  /** What the node at hop `i` keeps: it is paid as hop `i` and pays as hop `i + 1`. */
  function Earned(chain: seq<Part>, i: nat, amount: int): int
    requires i + 1 < |chain|
  {
    Payment(chain, i, amount) - Payment(chain, i + 1, amount)
  }

  function TotalEarned(chain: seq<Part>, i: nat, j: nat, amount: int): int
    requires i <= j < |chain|
    decreases j - i
  {
    if i == j then 0 else Earned(chain, i, amount) + TotalEarned(chain, i + 1, j, amount)
  }

  function TotalMargin(hops: seq<Hop>, i: nat, j: nat): int
    requires i <= j < |hops|
    decreases j - i
  {
    if i == j then 0 else MarginOf(hops[i]) + TotalMargin(hops, i + 1, j)
  }

  function TotalMinFee(hops: seq<Hop>, i: nat, j: nat): nat
    requires i <= j < |hops|
    decreases j - i
  {
    if i == j then 0 else hops[i].minFee + TotalMinFee(hops, i + 1, j)
  }

  /** The payment is what executing the hop's conditional adds, and what its contract adds. */
  lemma PaymentIsExecution(chain: seq<Part>, i: nat, c: Conditional, vkey: Key, amount: int)
    requires i < |chain| && Describes(chain[i], c, vkey)
    ensures Need(c, Signed(amount, vkey)) == Ok(Payment(chain, i, amount))
  {
  }

  lemma {:induction false} TermsFrom(chain: seq<Part>, hops: seq<Hop>, withFinal: bool, i: nat, k: nat)
    requires |chain| == |hops| && TermsMet(chain, hops, withFinal, i) && i <= k < |chain|
    ensures TermsMet(chain, hops, withFinal, k)
    ensures k + 1 < |chain| ==> PassesOn(hops[k], chain[k], chain[k + 1])
    decreases k - i
  {
    if i < k {
      TermsFrom(chain, hops, withFinal, i + 1, k);
    }
  }

  /** Between any two hops of an open tunnel: capacity never grows, the later deadline is earlier by every
      margin in between, and the earlier payment is the later one plus what the nodes in between keep, each at
      least its minimum fee, whatever amount up to the last capacity is finally claimed. */
  lemma {:induction false} OpenTunnelPromises(chain: seq<Part>, hops: seq<Hop>, withFinal: bool, i: nat, j: nat,
                                              amount: int)
    requires |chain| == |hops| && i <= j < |chain| && TermsMet(chain, hops, withFinal, i)
             && 0 <= amount <= chain[j].capacity
    ensures chain[j].capacity <= chain[i].capacity && amount <= chain[i].capacity
    ensures chain[j].deadline <= chain[i].deadline - TotalMargin(hops, i, j)
    ensures Payment(chain, i, amount) == Payment(chain, j, amount) + TotalEarned(chain, i, j, amount)
    ensures TotalEarned(chain, i, j, amount) >= TotalMinFee(hops, i, j)
    ensures i < j ==> Earned(chain, i, amount) >= hops[i].minFee
    decreases j - i
  {
    if i < j {
      OpenTunnelPromises(chain, hops, withFinal, i + 1, j, amount);
    }
  }

  /** A whole tunnel as its hops accepted it: sender and receiver payments differ by exactly what the nodes in
      between keep, and every one of them keeps at least its minimum fee. */
  lemma AcceptedTunnelIsFair(list: seq<Instruction>, chain: seq<Part>, keys: seq<PubKey>, hops: seq<Hop>, vkey: Key,
                             withFinal: bool, c: Conditional, amount: int)
    requires Written(list, chain, keys, hops, vkey, withFinal) && Describes(chain[0], c, vkey)
    requires Accepted(list, hops, c, keys[0]) && 0 <= amount <= chain[|chain| - 1].capacity
    ensures Payment(chain, 0, amount) == Payment(chain, |chain| - 1, amount)
            + TotalEarned(chain, 0, |chain| - 1, amount)
    ensures forall k :: 0 <= k < |chain| - 1 ==>
      && Earned(chain, k, amount) >= hops[k].minFee
      && chain[k + 1].capacity <= chain[k].capacity
      && chain[k + 1].deadline <= chain[k].deadline - MarginOf(hops[k])
  {
    TunnelOpensExactly(list, chain, keys, hops, vkey, withFinal, c);
    OpenTunnelPromises(chain, hops, withFinal, 0, |chain| - 1, amount);
    forall k | 0 <= k < |chain| - 1
      ensures Earned(chain, k, amount) >= hops[k].minFee
      ensures chain[k + 1].capacity <= chain[k].capacity
      ensures chain[k + 1].deadline <= chain[k].deadline - MarginOf(hops[k])
    {
      TermsFrom(chain, hops, withFinal, 0, k);
    }
  }
}
