/** A channel as one node stores it, and the two transitions of the update protocol:
    the proposer's (`updateOurStateWithAction`) and the receiver's (`ProcessAction`). */
module Channel {
  import opened Prelude
  import opened Payments
  import opened Rent

  datatype Party = Left | Right {
    function Other(): Party { if Left? then Right else Left }
  }

  type CondDict = map<Conditional, Conditional>
  type ActDict = map<SendAction, SendState>

  /** Agreed data of one side. A conditional is stored under the hash of its first form. */
  datatype Data = Data(conds: CondDict, acts: ActDict)

  datatype Side = Side(data: Data, deposits: Deposits, transfers: map<nat, map<Coin, int>>)

  /** Hashing is injective, and an empty dictionary hashes to 32 zero bytes. */
  datatype DictHash<K, V> = ZeroHash | HashOf(dict: map<K, V>)

  datatype SideHash = SideHash(conds: DictHash<Conditional, Conditional>, acts: DictHash<SendAction, SendState>)

  datatype Body = Body(seqno: nat, a: SideHash, b: SideHash)

  datatype Sig = NoSig | SigOf(signer: Party, over: Body)

  datatype SignedBody = SignedBody(body: Body, sigA: Sig, sigB: Sig) {
    function SigBy(p: Party): Sig { if p.Left? then sigA else sigB }

    function WithSig(p: Party, s: Sig): SignedBody { if p.Left? then this.(sigA := s) else this.(sigB := s) }

    /** `Verify` with both keys. */
    predicate Full() { sigA == SigOf(Left, body) && sigB == SigOf(Right, body) }
  }

  /** The double-signed payout message of a cooperative commit. */
  datatype CommitMsg = CommitMsg(seqno: nat, fromA: bool, stateA: Option<SendState>, stateB: Option<SendState>,
                                 action: SendAction)

  datatype CommitSig = CommitSig(signer: Party, msg: CommitMsg)

  datatype Chan = Chan(us: Party, our: Side, their: Side, signed: Option<SignedBody>,
                       pendingCommit: Option<CommitMsg>, baseSeqno: nat)

  datatype Action =
    | Increment
    | AddCond(cond: Conditional, newAction: Option<SendAction>)
    | CommitVirtual(id: Conditional, updated: Conditional)
    | RemoveCond(id: Conditional)
    | ExecuteCond(id: Conditional, resolve: Resolve)
    | RentCapacity(coin: Coin, order: Order)
    | CoopCommit(action: SendAction, sig: CommitSig)
    | Swap(fromCoin: Coin, fromAmount: nat, toCoin: Coin, toAmount: nat)

  /** What both nodes see alike: the clock, oracle prices and the last second they cover, addresses and coin tariffs. */
  datatype World = World(now: int, prices: Prices, latest: map<nat, int>, addrA: nat, addrB: nat,
                         tariffs: map<Coin, Tariff>, maxRent: map<Coin, int>, closePeriod: int)
  {
    function ActionOf(coin: Coin): SendAction { SendAction(coin, addrA, addrB) }
  }

  datatype MetaSide = MetaSide(cond: Conditional, linked: Option<Key>)

  datatype Meta = Meta(incoming: Option<MetaSide>, outgoing: Option<MetaSide>, known: Option<Resolve>)

  /** What is private to a node: its meta store, its safety margin, whether the channel takes actions,
      and the answer of every other check that can only refuse (balances, hooks, configuration). */
  datatype Local = Local(metas: map<Key, Meta>, minSafe: int, accepting: bool, approves: bool)

  // ---------- lookups ----------

  function LinkKey(s: Option<MetaSide>): Option<Key> {
    if s.Some? then s.value.linked else None
  }

  function CondOf(s: Option<MetaSide>): Option<Conditional> {
    if s.Some? then Some(s.value.cond) else None
  }

  /** Receiver's lookup of the linked conditional: through the outgoing side, a missing meta is an error. */
  function ReceiverLink(metas: map<Key, Meta>, k: Key): Result<Option<Conditional>>
    requires k in metas
  {
    match LinkKey(metas[k].outgoing)
    case None => Ok(None)
    case Some(lk) => if lk !in metas then Err else Ok(CondOf(metas[lk].incoming))
  }

  /** Proposer's lookup when executing: through the incoming side, a missing meta means no link. */
  function ExecuteLink(metas: map<Key, Meta>, k: Key): Option<Conditional>
    requires k in metas
  {
    match LinkKey(metas[k].incoming)
    case None => None
    case Some(lk) => if lk !in metas then None else CondOf(metas[lk].outgoing)
  }

  /** Proposer's lookup when removing: either side of either meta will do. */
  function RemoveLink(metas: map<Key, Meta>, k: Key): Option<Conditional>
    requires k in metas
  {
    var lk := if LinkKey(metas[k].incoming).Some? then LinkKey(metas[k].incoming) else LinkKey(metas[k].outgoing);
    match lk
    case None => None
    case Some(l) =>
      if l !in metas then None
      else if metas[l].outgoing.Some? then CondOf(metas[l].outgoing)
      else CondOf(metas[l].incoming)
  }

  function Found(link: Option<Conditional>, dict: CondDict): Option<Conditional> {
    if link.Some? && link.value in dict then link else None
  }

  function Without(dict: CondDict, id: Option<Conditional>): CondDict {
    if id.Some? then dict - {id.value} else dict
  }

  function ActionState(acts: ActDict, a: SendAction): SendState {
    if a in acts then acts[a] else EMPTY_SEND
  }

  function DepositOf(d: Deposits, coin: Coin): Option<Locked> {
    if coin in d then Some(d[coin]) else None
  }

  // ---------- one-sided edits both transitions share ----------

  /** Puts a linked conditional and its action on a side unless they are there. */
  function Ensured(d: Data, c: Conditional): Data {
    Data(if c in d.conds then d.conds else d.conds[c := c],
         if c.action in d.acts then d.acts else d.acts[c.action := EMPTY_SEND])
  }

  /** What parsing and `ValidateOnAdd` demand of a new conditional; a derivative without collateral is not parsed. */
  predicate ValidOnAdd(c: Conditional, now: int) {
    if c.Virtual? then c.capacity > 0 && c.fee >= 0 && c.prepay == 0 && c.deadline >= now
    else c.amount > 0 && c.fee >= 0 && 1 <= c.details.leverage <= 20
  }

  function CommitOnSide(s: Side, id: Conditional, updated: Conditional): Result<Side> {
    if id !in s.data.conds || s.data.conds[id].action !in s.data.acts then Err
    else
      var cond := s.data.conds[id];
      match CommitPrepay(cond, updated, s.data.acts[cond.action])
      case Err => Err
      case Ok((c, st)) => Ok(s.(data := Data(s.data.conds[id := c], s.data.acts[cond.action := st])))
  }

  /** Settles a conditional of side `s` and drops it. */
  function SettleOnSide(s: Side, id: Conditional, r: Resolve): Result<Side> {
    if id !in s.data.conds || s.data.conds[id].action !in s.data.acts then Err
    else
      var cond := s.data.conds[id];
      match Settle(cond, s.data.acts[cond.action], r, s.deposits)
      case Err => Err
      case Ok((st, dep)) =>
        Ok(s.(data := Data(s.data.conds - {id}, s.data.acts[cond.action := st]), deposits := dep))
  }

  /** Settles the linked conditional of side `s`: a derivative only when it pays, anything else with the same state. */
  function SettleLinked(s: Side, link: Option<Conditional>, r: Resolve, prices: Prices): Result<Side> {
    if link.None? || link.value !in s.data.conds then Ok(s)
    else
      var id, cond := link.value, s.data.conds[link.value];
      var dropped := s.(data := s.data.(conds := s.data.conds - {id}));
      match (if cond.Resolvable? then LinkedResolve(r, cond, prices) else Ok(Some(r)))
      case Err => Err
      case Ok(None) => Ok(dropped)
      case Ok(Some(lr)) =>
        if cond.action !in s.data.acts then Err
        else match Execute(cond, s.data.acts[cond.action], lr, s.deposits)
          case Err => Err
          case Ok((st, dep)) =>
            Ok(dropped.(data := dropped.data.(acts := s.data.acts[cond.action := st]), deposits := dep))
  }

  function PayOnSide(s: Side, a: SendAction, x: int): Side {
    s.(data := s.data.(acts := s.data.acts[a := AddCoins(ActionState(s.data.acts, a), x)]))
  }

  function SwapOnSide(s: Side, a: SendAction, x: int): Side {
    PayOnSide(s, a, x).(deposits := MarkUsed(s.deposits, a.coin, x))
  }

  function PreparedOn(s: Side, a: SendAction, seqno: nat): Result<Option<SendState>> {
    if a !in s.data.acts then Ok(None)
    else match PrepareExecute(s.data.acts[a], seqno, 0)
      case Err => Err
      case Ok(st) => Ok(Some(st))
  }

  function CommittedSide(s: Side, a: SendAction, seqno: nat, st: Option<SendState>): Side {
    if st.None? then s
    else s.(data := s.data.(acts := s.data.acts[a := st.value]),
            transfers := s.transfers[seqno := map[a.coin := st.value.committed]])
  }

  /** `getCommitRequest` without fee: the payout message of both sides' prepared states. */
  function CommitRequest(ch: Chan, a: SendAction, fromA: bool): Result<CommitMsg> {
    var seqno := CurrentBody(ch).seqno + 1;
    match PreparedOn(ch.our, a, seqno)
    case Err => Err
    case Ok(our) =>
      match PreparedOn(ch.their, a, seqno)
      case Err => Err
      case Ok(their) =>
        if our.None? && their.None? then Err
        else if ch.us.Left? then Ok(CommitMsg(seqno, fromA, our, their, a))
        else Ok(CommitMsg(seqno, fromA, their, our, a))
  }

  function WithCommit(ch: Chan, m: CommitMsg): Chan {
    var (our, their) := if ch.us.Left? then (m.stateA, m.stateB) else (m.stateB, m.stateA);
    ch.(our := CommittedSide(ch.our, m.action, m.seqno, our),
        their := CommittedSide(ch.their, m.action, m.seqno, their),
        pendingCommit := Some(m))
  }

  predicate MayCommit(ch: Chan) {
    ch.pendingCommit.None? && ch.our.transfers == map[] && ch.their.transfers == map[]
  }

  // ---------- bodies and signatures ----------

  function HashDict<K, V>(m: map<K, V>): DictHash<K, V> {
    if m == map[] then ZeroHash else HashOf(m)
  }

  function HashSide(d: Data): SideHash {
    SideHash(HashDict(d.conds), HashDict(d.acts))
  }

  const ZERO_SIDE := SideHash(ZeroHash, ZeroHash)

  /** `LoadSignedState().Body`: before the first signed state, zero hashes at the last committed seqno. */
  function CurrentBody(ch: Chan): Body {
    if ch.signed.Some? then ch.signed.value.body else Body(ch.baseSeqno, ZERO_SIDE, ZERO_SIDE)
  }

  /** The body that describes the channel's agreed data. */
  function Sealed(ch: Chan, seqno: nat): Body {
    var (a, b) := if ch.us.Left? then (ch.our.data, ch.their.data) else (ch.their.data, ch.our.data);
    Body(seqno, HashSide(a), HashSide(b))
  }

  // ---------- proposer ----------

  datatype Proposed = Fails | Same | Changed(ch: Chan)

  function ProposeAdd(ch: Chan, c: Conditional, newAction: Option<SendAction>, w: World, loc: Local): Proposed {
    if !ValidOnAdd(c, w.now) || c.Deadline() - (w.now + w.closePeriod) < loc.minSafe then Fails
    else if c in ch.our.data.conds then Same
    else if c.action !in ch.our.data.acts && newAction.None? then Fails
    else
      var d := ch.our.data;
      var our := ch.our.(data := Data(d.conds[c := c],
                                      if c.action in d.acts then d.acts else d.acts[c.action := EMPTY_SEND]));
      if c.Virtual? then Changed(ch.(our := our))
      else Changed(ch.(our := our, their := ch.their.(data := Ensured(ch.their.data, LinkedOf(c)))))
  }

  function ProposeCommitVirtual(ch: Chan, id: Conditional, updated: Conditional): Proposed {
    var d := ch.our.data;
    if id !in d.conds || d.conds[id].action !in d.acts then Fails
    else if updated == d.conds[id] then Same
    else match CommitOnSide(ch.our, id, updated)
      case Err => Fails
      case Ok(our) => Changed(ch.(our := our))
  }

  function ProposeRemove(ch: Chan, id: Conditional, loc: Local): Proposed {
    if id !in ch.their.data.conds then Same
    else
      var k := ch.their.data.conds[id].key;
      if k !in loc.metas then Fails
      else
        var link := Found(RemoveLink(loc.metas, k), ch.our.data.conds);
        Changed(ch.(their := ch.their.(data := ch.their.data.(conds := ch.their.data.conds - {id})),
                    our := ch.our.(data := ch.our.data.(conds := Without(ch.our.data.conds, link)))))
  }

  function ProposeExecute(ch: Chan, id: Conditional, r: Resolve, w: World, loc: Local): Proposed {
    if id !in ch.their.data.conds then Same
    else
      var cond := ch.their.data.conds[id];
      if !Validate(cond, None, r, w.prices, w.latest).Fit? then Fails
      else if cond.Deadline() < w.now || cond.key !in loc.metas then Fails
      else match (SettleOnSide(ch.their, id, r),
                  SettleLinked(ch.our, Found(ExecuteLink(loc.metas, cond.key), ch.our.data.conds), r, w.prices))
        case (Ok(their), Ok(our)) => Changed(ch.(their := their, our := our))
        case _ => Fails
  }

  function ProposeRent(ch: Chan, coin: Coin, o: Order, w: World): Proposed {
    if coin !in w.tariffs || w.tariffs[coin].rateDen == 0 then Fails
    else
      var ld := DepositOf(ch.their.deposits, coin);
      if Active(ld, w.now) && (o.amount <= ld.value.amount || o.till < ld.value.till) then Fails
      else
        var fee := DepositFee(w.tariffs[coin], ld, o, w.now);
        Changed(ch.(our := PayOnSide(ch.our, w.ActionOf(coin), fee),
                    their := ch.their.(deposits := ch.their.deposits[coin := Rented(ld, o, w.now)])))
  }

  function ProposeCoopCommit(ch: Chan, a: SendAction, sig: CommitSig): Proposed {
    if !MayCommit(ch) then Fails
    else match CommitRequest(ch, a, ch.us.Left?)
      case Err => Fails
      case Ok(m) => if sig != CommitSig(ch.us, m) then Fails else Changed(WithCommit(ch, m))
  }

  function ProposeSwap(ch: Chan, act: Action, w: World): Proposed
    requires act.Swap?
  {
    Changed(ch.(our := SwapOnSide(ch.our, w.ActionOf(act.fromCoin), act.fromAmount),
                their := SwapOnSide(ch.their, w.ActionOf(act.toCoin), act.toAmount)))
  }

  function ProposeStep(ch: Chan, act: Action, w: World, loc: Local): Proposed {
    if !loc.approves then Fails
    else match act
      case Increment => Changed(ch)
      case AddCond(c, na) => ProposeAdd(ch, c, na, w, loc)
      case CommitVirtual(id, u) => ProposeCommitVirtual(ch, id, u)
      case RemoveCond(id) => ProposeRemove(ch, id, loc)
      case ExecuteCond(id, r) => ProposeExecute(ch, id, r, w, loc)
      case RentCapacity(coin, o) => ProposeRent(ch, coin, o, w)
      case CoopCommit(a, sig) => ProposeCoopCommit(ch, a, sig)
      case Swap(_, _, _, _) => ProposeSwap(ch, act, w)
  }

  /** `updateOurStateWithAction`: the edited channel and the proposal signed by us alone.
      When nothing changes the current body is proposed again. */
  function Propose(ch: Chan, act: Action, w: World, loc: Local): Result<(Chan, SignedBody)> {
    match ProposeStep(ch, act, w, loc)
    case Fails => Err
    case Same => Ok((ch, SignedOnlyBy(ch.us, CurrentBody(ch))))
    case Changed(c) => Ok((c, SignedOnlyBy(ch.us, Sealed(c, CurrentBody(ch).seqno + 1))))
  }

  function SignedOnlyBy(p: Party, b: Body): SignedBody {
    SignedBody(b, NoSig, NoSig).WithSig(p, SigOf(p, b))
  }

  // ---------- receiver ----------

  function ReceiveAdd(ch: Chan, c: Conditional, newAction: Option<SendAction>, w: World, loc: Local): Result<Chan> {
    var d := ch.their.data;
    var acts := if newAction.Some? && newAction.value !in d.acts then d.acts[newAction.value := EMPTY_SEND] else d.acts;
    if newAction.Some? && newAction.value !in d.acts && newAction.value != w.ActionOf(newAction.value.coin) then Err
    else if c.Deadline() - (w.now + w.closePeriod) < loc.minSafe then Err
    else if c in d.conds then Ok(ch.(their := ch.their.(data := d.(acts := acts))))
    else if !ValidOnAdd(c, w.now) then Err
    else
      var their := ch.their.(data := Data(d.conds[c := c], acts));
      if c.Virtual? then Ok(ch.(their := their))
      else if !c.isInitiator then Err
      else Ok(ch.(their := their, our := ch.our.(data := Ensured(ch.our.data, LinkedOf(c)))))
  }

  function ReceiveCommitVirtual(ch: Chan, id: Conditional, updated: Conditional): Result<Chan> {
    match CommitOnSide(ch.their, id, updated)
    case Err => Err
    case Ok(their) => Ok(ch.(their := their))
  }

  function ReceiveRemove(ch: Chan, id: Conditional, loc: Local): Result<Chan> {
    if id !in ch.our.data.conds then Ok(ch)
    else
      var k := ch.our.data.conds[id].key;
      if k !in loc.metas then Err
      else match ReceiverLink(loc.metas, k)
        case Err => Err
        case Ok(l) =>
          Ok(ch.(our := ch.our.(data := ch.our.data.(conds := ch.our.data.conds - {id})),
                 their := ch.their.(data := ch.their.data.(conds :=
                                    Without(ch.their.data.conds, Found(l, ch.their.data.conds))))))
  }

  function ReceiveExecute(ch: Chan, id: Conditional, r: Resolve, w: World, loc: Local): Result<Chan> {
    if id !in ch.our.data.conds then Ok(ch)
    else
      var cond := ch.our.data.conds[id];
      if cond.key !in loc.metas || cond.Deadline() < w.now then Err
      else if Validate(cond, loc.metas[cond.key].known, r, w.prices, w.latest).Wrong? then Err
      else match ReceiverLink(loc.metas, cond.key)
        case Err => Err
        case Ok(l) =>
          match (SettleOnSide(ch.our, id, r), SettleLinked(ch.their, Found(l, ch.their.data.conds), r, w.prices))
          case (Ok(our), Ok(their)) => Ok(ch.(our := our, their := their))
          case _ => Err
  }

  const MAX_RENT_SECONDS := 366 * 24 * 3600

  function ReceiveRent(ch: Chan, coin: Coin, o: Order, w: World): Result<Chan> {
    if coin !in w.tariffs || w.tariffs[coin].rateDen == 0 || coin !in w.maxRent then Err
    else
      var ld := DepositOf(ch.our.deposits, coin);
      var diff := o.amount - InForce(ld, w.now).amount;
      var fee := DepositFee(w.tariffs[coin], ld, o, w.now);
      if o.till - w.now > MAX_RENT_SECONDS || diff <= 0 || diff > w.maxRent[coin] || fee <= 0 then Err
      else Ok(ch.(their := PayOnSide(ch.their, w.ActionOf(coin), fee),
                  our := ch.our.(deposits := ch.our.deposits[coin := Rented(ld, o, w.now)])))
  }

  function ReceiveCoopCommit(ch: Chan, a: SendAction, sig: CommitSig): Result<Chan> {
    if !MayCommit(ch) then Err
    else match CommitRequest(ch, a, !ch.us.Left?)
      case Err => Err
      case Ok(m) => if sig != CommitSig(ch.us.Other(), m) then Err else Ok(WithCommit(ch, m))
  }

  function ReceiveStep(ch: Chan, act: Action, w: World, loc: Local): Result<Chan> {
    if !loc.approves then Err
    else match act
      case Increment => Ok(ch)
      case AddCond(c, na) => ReceiveAdd(ch, c, na, w, loc)
      case CommitVirtual(id, u) => ReceiveCommitVirtual(ch, id, u)
      case RemoveCond(id) => ReceiveRemove(ch, id, loc)
      case ExecuteCond(id, r) => ReceiveExecute(ch, id, r, w, loc)
      case RentCapacity(coin, o) => ReceiveRent(ch, coin, o, w)
      case CoopCommit(a, sig) => ReceiveCoopCommit(ch, a, sig)
      case Swap(fc, fa, tc, ta) =>
        Ok(ch.(their := SwapOnSide(ch.their, w.ActionOf(fc), fa), our := SwapOnSide(ch.our, w.ActionOf(tc), ta)))
  }

  datatype Answer = Rejected | Known(reply: SignedBody) | Accepted(ch: Chan, reply: SignedBody)

  /** `ProcessAction`: verify the proposer's signature, answer a repeat of the current seqno from
      the stored state, otherwise re-execute, compare hashes and co-sign. */
  function Receive(ch: Chan, p: SignedBody, act: Action, w: World, loc: Local): Answer {
    var them := ch.us.Other();
    var cur := CurrentBody(ch);
    if !loc.accepting || p.SigBy(them) != SigOf(them, p.body) || p.SigBy(ch.us) != NoSig then Rejected
    else if p.body.seqno == cur.seqno then
      if ch.signed.Some? && ch.signed.value.WithSig(them, p.SigBy(them)).Full()
      then Known(ch.signed.value.WithSig(them, p.SigBy(them))) else Rejected
    else if p.body.seqno != cur.seqno + 1 then Rejected
    else match ReceiveStep(ch, act, w, loc)
      case Err => Rejected
      case Ok(c) =>
        if Sealed(c, p.body.seqno) != p.body then Rejected
        else
          var rec := p.WithSig(ch.us, SigOf(ch.us, p.body));
          Accepted(c.(signed := Some(rec)), rec)
  }

  /** The proposer's end of the call: the reply must carry both signatures over the proposed body. */
  function Confirmed(edited: Chan, p: SignedBody, reply: SignedBody): Result<Chan> {
    if !reply.Full() || reply.body != p.body then Err
    else Ok(edited.(signed := Some(p.WithSig(edited.us.Other(), reply.SigBy(edited.us.Other())))))
  }

  // ---------- mirror ----------

  /** Two stored channels are each other's mirror image and confirm the same body. */
  ghost predicate Mirror(p: Chan, r: Chan) {
    r.us == p.us.Other() && MirroredState(p, r) && CurrentBody(p) == CurrentBody(r)
  }

  ghost predicate MirroredState(p: Chan, r: Chan) {
    p.our == r.their && p.their == r.our && p.pendingCommit == r.pendingCommit
  }

  /** Where the action removes or executes a conditional, both nodes' meta stores lead to the same linked one. */
  ghost predicate SameFound(p: Chan, r: Chan, act: Action, lp: Local, lr: Local) {
    (act.RemoveCond? || act.ExecuteCond?) && act.id in p.their.data.conds ==>
      var k := p.their.data.conds[act.id].key;
      k in lp.metas && k in lr.metas && ReceiverLink(lr.metas, k).Ok? ==>
        var link := if act.RemoveCond? then RemoveLink(lp.metas, k) else ExecuteLink(lp.metas, k);
        Found(link, p.our.data.conds) == Found(ReceiverLink(lr.metas, k).value, r.their.data.conds)
  }

  /** The action code sent along with a new conditional is that conditional's own,
      or neither of the two is new to the channel. */
  predicate ActionCodeFits(ch: Chan, act: Action) {
    act.AddCond? && act.newAction.Some? && act.newAction.value != act.cond.action ==>
      act.newAction.value in ch.our.data.acts && act.cond.action in ch.our.data.acts
  }

  lemma SealedOfMirror(p: Chan, r: Chan, seqno: nat)
    requires r.us == p.us.Other() && p.our.data == r.their.data && p.their.data == r.our.data
    ensures Sealed(p, seqno) == Sealed(r, seqno)
  {
  }

  lemma RequestsAgree(p: Chan, r: Chan, a: SendAction, fromA: bool)
    requires Mirror(p, r)
    ensures CommitRequest(p, a, fromA) == CommitRequest(r, a, fromA)
  {
  }

  /** Every kind of action that both nodes carry out from mirrored channels leaves them mirrored:
      dictionaries, deposits, pending transfers and pending commit. The exceptions are exact: a new
      conditional sent with a foreign action code that would have to be registered, and meta stores that
      lead to different linked conditionals. */
  lemma StepsKeepMirror(p: Chan, r: Chan, act: Action, w: World, lp: Local, lr: Local)
    requires Mirror(p, r)
    requires ProposeStep(p, act, w, lp).Changed? && ReceiveStep(r, act, w, lr).Ok?
    ensures MirroredState(ProposeStep(p, act, w, lp).ch, ReceiveStep(r, act, w, lr).value)
            <==> ActionCodeFits(p, act) && SameFound(p, r, act, lp, lr)
    ensures ProposeStep(p, act, w, lp).ch.us == p.us && ReceiveStep(r, act, w, lr).value.us == r.us
  {
    var p', r' := ProposeStep(p, act, w, lp).ch, ReceiveStep(r, act, w, lr).value;
    if act.AddCond? && act.newAction.Some? && act.newAction.value != act.cond.action {
      assert act.newAction.value in r'.their.data.acts;
      assert act.cond.action in p'.our.data.acts;
    } else if act.CoopCommit? {
      RequestsAgree(p, r, act.action, p.us.Left?);
    } else if act.RemoveCond? {
      RemovalKeepsMirror(p, r, act, w, lp, lr);
    } else if act.ExecuteCond? {
      ExecutionKeepsMirror(p, r, act, w, lp, lr);
    }
  }

  lemma RemovalKeepsMirror(p: Chan, r: Chan, act: Action, w: World, lp: Local, lr: Local)
    requires Mirror(p, r) && act.RemoveCond?
    requires ProposeStep(p, act, w, lp).Changed? && ReceiveStep(r, act, w, lr).Ok?
    ensures MirroredState(ProposeStep(p, act, w, lp).ch, ReceiveStep(r, act, w, lr).value)
            <==> SameFound(p, r, act, lp, lr)
  {
    var k := p.their.data.conds[act.id].key;
    var a, b := Found(RemoveLink(lp.metas, k), p.our.data.conds),
        Found(ReceiverLink(lr.metas, k).value, p.our.data.conds);
    DropsDiffer(p.our.data.conds, a, b);
  }

  lemma ExecutionKeepsMirror(p: Chan, r: Chan, act: Action, w: World, lp: Local, lr: Local)
    requires Mirror(p, r) && act.ExecuteCond?
    requires ProposeStep(p, act, w, lp).Changed? && ReceiveStep(r, act, w, lr).Ok?
    ensures MirroredState(ProposeStep(p, act, w, lp).ch, ReceiveStep(r, act, w, lr).value)
            <==> SameFound(p, r, act, lp, lr)
  {
    var k := p.their.data.conds[act.id].key;
    var a, b := Found(ExecuteLink(lp.metas, k), p.our.data.conds),
        Found(ReceiverLink(lr.metas, k).value, p.our.data.conds);
    DropsDiffer(p.our.data.conds, a, b);
    LinkedDrops(p.our, a, act.resolve, w.prices);
    LinkedDrops(p.our, b, act.resolve, w.prices);
  }

  /** Dropping different entries leaves different dictionaries. */
  lemma DropsDiffer(dict: CondDict, a: Option<Conditional>, b: Option<Conditional>)
    requires a.Some? ==> a.value in dict
    requires b.Some? ==> b.value in dict
    ensures Without(dict, a) == Without(dict, b) <==> a == b
  {
    if a.Some? && a != b {
      assert a.value !in Without(dict, a) && a.value in Without(dict, b);
    } else if b.Some? && a != b {
      assert b.value !in Without(dict, b) && b.value in Without(dict, a);
    }
  }

  lemma LinkedDrops(s: Side, link: Option<Conditional>, r: Resolve, prices: Prices)
    requires SettleLinked(s, link, r, prices).Ok? && (link.Some? ==> link.value in s.data.conds)
    ensures SettleLinked(s, link, r, prices).value.data.conds == Without(s.data.conds, link)
  {
  }

  /** An honest proposal that finds the receiver at the mirrored state never fails the hash check;
      it is co-signed, the proposer confirms the reply, and the channels mirror each other again. */
  lemma HonestProposalIsConfirmed(p: Chan, r: Chan, act: Action, w: World, lp: Local, lr: Local)
    requires Mirror(p, r)
    requires ActionCodeFits(p, act) && SameFound(p, r, act, lp, lr)
    requires ProposeStep(p, act, w, lp).Changed? && ReceiveStep(r, act, w, lr).Ok? && lr.accepting
    ensures
      var (edited, proposal) := Propose(p, act, w, lp).value;
      var ans := Receive(r, proposal, act, w, lr);
      && ans.Accepted?
      && Confirmed(edited, proposal, ans.reply).Ok?
      && Mirror(Confirmed(edited, proposal, ans.reply).value, ans.ch)
      && CurrentBody(ans.ch).seqno == CurrentBody(p).seqno + 1
  {
    StepsKeepMirror(p, r, act, w, lp, lr);
    SealedOfMirror(ProposeStep(p, act, w, lp).ch, ReceiveStep(r, act, w, lr).value, CurrentBody(p).seqno + 1);
  }

  /** For instance, a conditional of one coin sent with the code of another: the two ends register different actions. */
  lemma ForeignCodeBreaksTheMirror(p: Chan, r: Chan, w: World, lp: Local, lr: Local)
    requires Mirror(p, r) && p.our.data == Data(map[], map[]) && lp.approves && lr.approves
    requires w.now == 0 && w.closePeriod == 0 && lp.minSafe == 0 && lr.minSafe == 0
    ensures
      var act := AddCond(Virtual(Plain(1), 10, 0, 0, 5, w.ActionOf(0)), Some(w.ActionOf(1)));
      && ProposeStep(p, act, w, lp).Changed? && ReceiveStep(r, act, w, lr).Ok?
      && !MirroredState(ProposeStep(p, act, w, lp).ch, ReceiveStep(r, act, w, lr).value)
  {
    var act := AddCond(Virtual(Plain(1), 10, 0, 0, 5, w.ActionOf(0)), Some(w.ActionOf(1)));
    StepsKeepMirror(p, r, act, w, lp, lr);
  }
}
