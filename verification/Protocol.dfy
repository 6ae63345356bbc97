/** Two nodes and a lossy network running the state update protocol.
    A node's channel lock is held by its own open proposal or by one request it is handling;
    a request starts being handled while the proposer's call is open, or never. */
module Protocol {
  import opened Prelude
  import opened Payments
  import opened Channel

  /** What survives a restart: the channel row, its version, and the data of states signed but unconfirmed. */
  datatype Store = Store(ch: Chan, version: nat, pending: map<Body, Saved>)

  datatype Saved = Saved(our: Data, their: Data)

  datatype Call = Call(act: Action, edited: Chan, base: nat, proposal: SignedBody, reply: Option<SignedBody>)

  datatype Job = Job(snapshot: Chan, base: nat, callId: nat, proposal: SignedBody, act: Action)

  datatype Lock = Free | Proposing(call: Call) | Processing(job: Job)

  /** `proposed` and `cosigned` are histories: the bodies this node put its signature on. */
  datatype Node = Node(store: Store, lock: Lock, callId: nat, proposed: set<Body>, cosigned: set<Body>)

  /** `full` is the history of bodies for which a record with both signatures was assembled. */
  datatype System = System(left: Node, right: Node, full: set<Body>)

  datatype Event =
    | StartPropose(at: Party, act: Action, w: World, loc: Local)
    | BeginProcess(at: Party)
    | EndProcess(at: Party, w: World, loc: Local)
    | FinishPropose(at: Party)
    | Release(at: Party)
    | Touch(at: Party, commit: Option<CommitMsg>, ours: map<nat, map<Coin, int>>, theirs: map<nat, map<Coin, int>>)
    | Recover(at: Party, rec: SignedBody)

  function At(s: System, p: Party): Node { if p.Left? then s.left else s.right }

  function Put(s: System, p: Party, n: Node): System { if p.Left? then s.(left := n) else s.(right := n) }

  function Cur(n: Node): Body { CurrentBody(n.store.ch) }

  // ---------- the store ----------

  /** `SaveChannelPendingState`: an entry already there is kept. */
  function SavePending(pending: map<Body, Saved>, b: Body, ch: Chan): map<Body, Saved> {
    if b in pending then pending else pending[b := Saved(ch.our.data, ch.their.data)]
  }

  /** `CleanupChannelPendingStates`: the confirmed body and every older seqno go. */
  function CleanPending(pending: map<Body, Saved>, b: Body): map<Body, Saved> {
    map x | x in pending && x != b && x.seqno >= b.seqno :: pending[x]
  }

  /** `UpdateChannel`: stored only if nobody wrote the row since it was read. */
  function UpdateChannel(st: Store, ch: Chan, base: nat): Result<Store> {
    if st.version == base then Ok(st.(ch := ch, version := st.version + 1)) else Err
  }

  /** On-chain recovery of a state the peer published: our row adopts the saved data of that body. */
  function Recovered(st: Store, rec: SignedBody): Result<Store> {
    var cur := CurrentBody(st.ch);
    if !rec.Full() || rec.body.seqno < cur.seqno || rec.body == cur || rec.body !in st.pending then Err
    else
      var d := st.pending[rec.body];
      Ok(st.(version := st.version + 1,
             ch := st.ch.(our := st.ch.our.(data := d.our), their := st.ch.their.(data := d.their),
                          signed := Some(rec))))
  }

  // ---------- steps; a step that is not enabled does nothing ----------

  function DoStart(n: Node, act: Action, w: World, loc: Local): Node {
    if !n.lock.Free? then n
    else match Propose(n.store.ch, act, w, loc)
      case Err => n
      case Ok((edited, prop)) =>
        Opened(n, act, edited, prop)
  }

  /** The pending data is saved before the request leaves. */
  function Opened(n: Node, act: Action, edited: Chan, prop: SignedBody): Node {
    n.(store := n.store.(pending := SavePending(n.store.pending, prop.body, edited)),
       lock := Proposing(Call(act, edited, n.store.version, prop, None)),
       callId := n.callId + 1,
       proposed := n.proposed + {prop.body})
  }

  function DoBegin(n: Node, peer: Node): Node {
    if !n.lock.Free? || !peer.lock.Proposing? then n
    else n.(lock := Processing(Job(n.store.ch, n.store.version, peer.callId, peer.lock.call.proposal,
                                   peer.lock.call.act)))
  }

  /** A reply reaches the proposer only if the call it answers is still open. */
  function Deliver(peer: Node, callId: nat, reply: SignedBody): Node {
    if peer.lock.Proposing? && peer.callId == callId
    then peer.(lock := Proposing(peer.lock.call.(reply := Some(reply)))) else peer
  }

  /** The handler's node, the proposer's node and the fully signed bodies after an answer. */
  function Answered(n: Node, peer: Node, full: set<Body>, ans: Answer): (Node, Node, set<Body>)
    requires n.lock.Processing?
  {
    var job, idle := n.lock.job, n.(lock := Free);
    match ans
    case Rejected => (idle, peer, full)
    case Known(reply) => (idle, Deliver(peer, job.callId, reply), full)
    case Accepted(ch, reply) =>
      match UpdateChannel(n.store, ch, job.base)
      case Err => (idle, peer, full)
      case Ok(st) =>
        (idle.(store := st, cosigned := n.cosigned + {reply.body}),
         Deliver(peer, job.callId, reply), full + {reply.body})
  }

  function DoEnd(n: Node, peer: Node, full: set<Body>, w: World, loc: Local): (Node, Node, set<Body>) {
    if !n.lock.Processing? then (n, peer, full)
    else Answered(n, peer, full, Receive(n.lock.job.snapshot, n.lock.job.proposal, n.lock.job.act, w, loc))
  }

  function DoFinish(n: Node): Node {
    if !n.lock.Proposing? || n.lock.call.reply.None? then n
    else
      var call, idle := n.lock.call, n.(lock := Free);
      match Confirmed(call.edited, call.proposal, call.reply.value)
      case Err => idle
      case Ok(ch) =>
        match UpdateChannel(n.store, ch, call.base)
        case Err => idle
        case Ok(st) => idle.(store := st.(pending := CleanPending(st.pending, call.proposal.body)))
  }

  function DoTouch(n: Node, e: Event): Node
    requires e.Touch?
  {
    var ch := n.store.ch;
    n.(store := n.store.(version := n.store.version + 1,
       ch := ch.(pendingCommit := e.commit, our := ch.our.(transfers := e.ours),
                 their := ch.their.(transfers := e.theirs))))
  }

  function DoRecover(n: Node, full: set<Body>, rec: SignedBody): Node {
    if rec.body !in full then n
    else match Recovered(n.store, rec)
      case Err => n
      case Ok(st) => n.(store := st)
  }

  function Step(s: System, e: Event): System {
    var n, peer := At(s, e.at), At(s, e.at.Other());
    match e
    case StartPropose(p, act, w, loc) => Put(s, p, DoStart(n, act, w, loc))
    case BeginProcess(p) => Put(s, p, DoBegin(n, peer))
    case EndProcess(p, w, loc) =>
      var (n', peer', full) := DoEnd(n, peer, s.full, w, loc);
      Put(Put(s, p, n'), p.Other(), peer').(full := full)
    case FinishPropose(p) => Put(s, p, DoFinish(n))
    case Release(p) => Put(s, p, n.(lock := Free))
    case Touch(p, _, _, _) => Put(s, p, DoTouch(n, e))
    case Recover(p, rec) => Put(s, p, DoRecover(n, s.full, rec))
  }

  function Run(s: System, events: seq<Event>): System
    decreases |events|
  {
    if events == [] then s else Run(Step(s, events[0]), events[1..])
  }

  function FreshSide(): Side { Side(Data(map[], map[]), map[], map[]) }

  function FreshNode(p: Party, base: nat): Node {
    Node(Store(Chan(p, FreshSide(), FreshSide(), None, None, base), 0, map[]), Free, 0, {}, {})
  }

  function Start(base: nat): System { System(FreshNode(Left, base), FreshNode(Right, base), {}) }

  // ---------- invariant ----------

  /** The row's dictionaries hash to the body it confirms, which carries both signatures. */
  ghost predicate RowOk(ch: Chan, p: Party, base: nat) {
    && ch.us == p && ch.baseSeqno == base
    && Sealed(ch, CurrentBody(ch).seqno) == CurrentBody(ch)
    && (ch.signed.Some? ==> ch.signed.value.Full())
  }

  ghost predicate SavedFits(b: Body, d: Saved, p: Party) {
    b == Body(b.seqno, HashSide(if p.Left? then d.our else d.their), HashSide(if p.Left? then d.their else d.our))
  }

  /** A body this node signed that the peer could still use against its row. */
  predicate Exposed(n: Node, b: Body) {
    b in n.proposed && (b.seqno > Cur(n).seqno || (b.seqno == Cur(n).seqno && b != Cur(n)))
  }

  ghost predicate PendingOk(n: Node, p: Party) {
    && (forall b :: b in n.store.pending ==> SavedFits(b, n.store.pending[b], p))
    && (forall b :: Exposed(n, b) ==> b in n.store.pending)
  }

  /** A proposal `b` of node `n` cannot be accepted by a peer at `other` unless it continues what `n` confirms. */
  ghost predicate ProposalOk(n: Node, other: Body, b: Body) {
    && b in n.proposed
    && b.seqno <= Cur(n).seqno + 1
    && (b.seqno == other.seqno + 1 ==> Cur(n).seqno <= other.seqno || Cur(n) == b)
  }

  ghost predicate CallOk(n: Node, p: Party, full: set<Body>) {
    n.lock.Proposing? ==>
      var c := n.lock.call;
      && c.edited.us == p && c.edited.baseSeqno == n.store.ch.baseSeqno
      && c.proposal == SignedOnlyBy(p, c.proposal.body)
      && Sealed(c.edited, c.proposal.body.seqno) == c.proposal.body
      && c.base <= n.store.version
      && (c.base == n.store.version ==> c.proposal.body == Cur(n) || c.proposal.body.seqno == Cur(n).seqno + 1)
      && (c.reply.Some? ==> c.reply.value.body in full)
  }

  ghost predicate JobOk(n: Node, p: Party) {
    n.lock.Processing? ==>
      var j := n.lock.job;
      && j.snapshot.us == p && j.base <= n.store.version
      && j.snapshot.baseSeqno == n.store.ch.baseSeqno
      && RowOk(j.snapshot, p, n.store.ch.baseSeqno)
      && (j.snapshot.signed.Some? ==> j.snapshot.signed.value.body.seqno <= Cur(n).seqno)
      && (j.base == n.store.version ==> j.snapshot == n.store.ch)
  }

  ghost predicate NodeOk(n: Node, p: Party, base: nat, full: set<Body>) {
    && RowOk(n.store.ch, p, base) && PendingOk(n, p) && CallOk(n, p, full) && JobOk(n, p)
    && (n.store.ch.signed.Some? ==> Cur(n) in full)
    && (n.lock.Processing? && n.lock.job.snapshot.signed.Some? ==> n.lock.job.snapshot.signed.value.body in full)
    && n.cosigned <= full
    && full <= n.proposed + n.cosigned
  }

  /** Facts about node `n` and its peer. */
  ghost predicate PairOk(n: Node, peer: Node) {
    && Cur(n).seqno <= Cur(peer).seqno + 1
    && (Cur(n).seqno == Cur(peer).seqno ==> Cur(n) == Cur(peer))
    && (Cur(peer).seqno == Cur(n).seqno + 1 ==> Cur(peer) in n.proposed)
    && (n.lock.Proposing? ==> ProposalOk(n, Cur(peer), n.lock.call.proposal.body))
    && (peer.lock.Processing? ==>
          !n.lock.Processing?
          && ProposalOk(n, Cur(peer), peer.lock.job.proposal.body))
  }

  ghost predicate FullOk(n: Node, peer: Node, full: set<Body>, base: nat) {
    && (forall x :: x in full ==> base < x.seqno <= Max(Cur(n).seqno, Cur(peer).seqno))
    && (forall x, y :: x in full && y in full && x.seqno == y.seqno ==> x == y)
  }

  /** The invariant seen from node `n` of party `p`. */
  ghost predicate InvAt(n: Node, peer: Node, p: Party, full: set<Body>, base: nat) {
    && NodeOk(n, p, base, full) && NodeOk(peer, p.Other(), base, full)
    && PairOk(n, peer) && PairOk(peer, n)
    && FullOk(n, peer, full, base)
  }

  ghost predicate Inv(s: System, base: nat) {
    InvAt(s.left, s.right, Left, s.full, base)
  }

  // ---------- what the two transitions promise ----------

  /** A proposal repeats the current body or seals the edited data at the next seqno. */
  lemma ProposeFacts(ch: Chan, act: Action, w: World, loc: Local)
    requires RowOk(ch, ch.us, ch.baseSeqno) && Propose(ch, act, w, loc).Ok?
    ensures
      var (edited, prop) := Propose(ch, act, w, loc).value;
      && edited.us == ch.us && edited.baseSeqno == ch.baseSeqno
      && prop == SignedOnlyBy(ch.us, prop.body)
      && Sealed(edited, prop.body.seqno) == prop.body
      && (prop.body == CurrentBody(ch) || prop.body.seqno == CurrentBody(ch).seqno + 1)
  {
  }

  /** An answer repeats the confirmed body, or confirms the proposed one as the next. */
  ghost predicate AnswerFits(ch: Chan, p: SignedBody, ans: Answer) {
    && (ans.Known? ==> ch.signed.Some? && ans.reply.body == CurrentBody(ch) == p.body)
    && (ans.Accepted? ==>
          && ans.reply.body == p.body && p.body.seqno == CurrentBody(ch).seqno + 1
          && ans.ch.signed == Some(ans.reply) && RowOk(ans.ch, ch.us, ch.baseSeqno))
  }

  lemma ReceiveFits(ch: Chan, p: SignedBody, act: Action, w: World, loc: Local)
    requires RowOk(ch, ch.us, ch.baseSeqno)
    ensures AnswerFits(ch, p, Receive(ch, p, act, w, loc))
  {
  }

  // ---------- preservation ----------

  lemma SaveKeepsPending(n: Node, p: Party, act: Action, edited: Chan, prop: SignedBody)
    requires PendingOk(n, p) && edited.us == p && Sealed(edited, prop.body.seqno) == prop.body
    ensures PendingOk(Opened(n, act, edited, prop), p)
  {
  }

  lemma StartKeeps(n: Node, peer: Node, p: Party, full: set<Body>, base: nat, act: Action, edited: Chan,
                   prop: SignedBody)
    requires InvAt(n, peer, p, full, base) && n.lock.Free?
    requires edited.us == p && edited.baseSeqno == base && prop == SignedOnlyBy(p, prop.body)
    requires Sealed(edited, prop.body.seqno) == prop.body
    requires prop.body == Cur(n) || prop.body.seqno == Cur(n).seqno + 1
    ensures InvAt(Opened(n, act, edited, prop), peer, p, full, base)
  {
    SaveKeepsPending(n, p, act, edited, prop);
  }

  lemma BeginKeeps(n: Node, peer: Node, p: Party, full: set<Body>, base: nat)
    requires InvAt(n, peer, p, full, base)
    ensures InvAt(DoBegin(n, peer), peer, p, full, base)
  {
  }

  lemma ReleaseKeeps(n: Node, peer: Node, p: Party, full: set<Body>, base: nat)
    requires InvAt(n, peer, p, full, base)
    ensures InvAt(n.(lock := Free), peer, p, full, base)
  {
    var n' := n.(lock := Free);
    assert forall b :: Exposed(n', b) ==> Exposed(n, b);
  }

  lemma TouchKeeps(n: Node, peer: Node, p: Party, full: set<Body>, base: nat, e: Event)
    requires InvAt(n, peer, p, full, base) && e.Touch?
    ensures InvAt(DoTouch(n, e), peer, p, full, base)
  {
    var n' := DoTouch(n, e);
    assert Cur(n') == Cur(n);
    assert forall b :: Exposed(n', b) ==> Exposed(n, b);
    assert NodeOk(n', p, base, full);
  }

  lemma DeliverKeeps(n: Node, peer: Node, p: Party, full: set<Body>, base: nat, callId: nat, reply: SignedBody)
    requires InvAt(n, peer, p, full, base) && reply.body in full
    ensures InvAt(n, Deliver(peer, callId, reply), p, full, base)
  {
    var peer' := Deliver(peer, callId, reply);
    assert forall b :: Exposed(peer', b) ==> Exposed(peer, b);
  }

  /** The row moves to a fully signed body that continues it; what is known of exposure stays. */
  lemma MoveKeepsPending(n: Node, n': Node, p: Party)
    requires PendingOk(n, p) && n'.proposed == n.proposed && n'.store.pending == n.store.pending
    requires Cur(n').seqno > Cur(n).seqno
    ensures PendingOk(n', p)
  {
  }

  /** Co-signing: the accepted body is the only one of its seqno that ever carries both signatures. */
  lemma AcceptKeeps(n: Node, peer: Node, p: Party, full: set<Body>, base: nat, ch: Chan, reply: SignedBody)
    requires InvAt(n, peer, p, full, base) && n.lock.Processing?
    requires n.lock.job.proposal.body == reply.body && reply.body.seqno == Cur(n).seqno + 1
    requires ch.signed == Some(reply) && RowOk(ch, p, base)
    ensures InvAt(Cosigned(n, ch, reply), peer, p, full + {reply.body}, base)
  {
    AcceptKeepsNodes(n, peer, p, full, base, ch, reply);
    AcceptKeepsPair(n, peer, p, full, base, ch, reply);
  }

  /** The handler's node once the new row is stored. */
  function Cosigned(n: Node, ch: Chan, reply: SignedBody): Node {
    n.(lock := Free, store := n.store.(ch := ch, version := n.store.version + 1), cosigned := n.cosigned + {reply.body})
  }

  lemma AcceptKeepsNodes(n: Node, peer: Node, p: Party, full: set<Body>, base: nat, ch: Chan, reply: SignedBody)
    requires NodeOk(n, p, base, full) && NodeOk(peer, p.Other(), base, full) && n.lock.Processing?
    requires reply.body in peer.proposed && reply.body.seqno == Cur(n).seqno + 1
    requires ch.signed == Some(reply) && RowOk(ch, p, base)
    ensures NodeOk(Cosigned(n, ch, reply), p, base, full + {reply.body})
            && NodeOk(peer, p.Other(), base, full + {reply.body})
  {
  }

  lemma AcceptKeepsPair(n: Node, peer: Node, p: Party, full: set<Body>, base: nat, ch: Chan, reply: SignedBody)
    requires PairOk(n, peer) && PairOk(peer, n) && FullOk(n, peer, full, base) && n.lock.Processing?
    requires n.lock.job.proposal.body == reply.body && reply.body.seqno == Cur(n).seqno + 1
    requires ch.signed == Some(reply) && Cur(n).seqno >= base
    requires peer.store.ch.signed.Some? ==> Cur(peer) in full
    requires peer.store.ch.signed.None? ==> Cur(peer).seqno == base
    ensures PairOk(Cosigned(n, ch, reply), peer) && PairOk(peer, Cosigned(n, ch, reply))
    ensures FullOk(Cosigned(n, ch, reply), peer, full + {reply.body}, base)
  {
  }

  lemma AcceptedKeeps(n: Node, peer: Node, p: Party, full: set<Body>, base: nat, ch: Chan, reply: SignedBody)
    requires InvAt(n, peer, p, full, base) && n.lock.Processing? && n.store.version == n.lock.job.base
    requires AnswerFits(n.lock.job.snapshot, n.lock.job.proposal, Accepted(ch, reply))
    ensures InvAt(Cosigned(n, ch, reply), Deliver(peer, n.lock.job.callId, reply), p, full + {reply.body}, base)
  {
    AcceptKeeps(n, peer, p, full, base, ch, reply);
    DeliverKeeps(Cosigned(n, ch, reply), peer, p, full + {reply.body}, base, n.lock.job.callId, reply);
  }

  lemma KnownKeeps(n: Node, peer: Node, p: Party, full: set<Body>, base: nat, reply: SignedBody)
    requires InvAt(n, peer, p, full, base) && n.lock.Processing?
    requires AnswerFits(n.lock.job.snapshot, n.lock.job.proposal, Known(reply))
    ensures InvAt(n.(lock := Free), Deliver(peer, n.lock.job.callId, reply), p, full, base)
  {
    assert reply.body in full;
    ReleaseKeeps(n, peer, p, full, base);
    DeliverKeeps(n.(lock := Free), peer, p, full, base, n.lock.job.callId, reply);
  }

  /** The row moves on to a body both nodes signed. */
  lemma CatchUpKeeps(n: Node, n': Node, peer: Node, p: Party, full: set<Body>, base: nat)
    requires InvAt(n, peer, p, full, base)
    requires n'.proposed == n.proposed && n'.cosigned == n.cosigned && n'.callId == n.callId
    requires n'.lock == Free || n'.lock == n.lock
    requires n'.store.version == n.store.version + 1
    requires RowOk(n'.store.ch, p, base) && PendingOk(n', p)
    requires Cur(n') in full && Cur(n').seqno >= Cur(n).seqno
    ensures InvAt(n', peer, p, full, base)
  {
  }

  lemma ConfirmedRow(n: Node, p: Party, full: set<Body>, base: nat)
    requires NodeOk(n, p, base, full) && DoFinish(n).store != n.store
    ensures RowOk(DoFinish(n).store.ch, p, base)
    ensures n.lock.Proposing? && Cur(DoFinish(n)) == n.lock.call.proposal.body && Cur(DoFinish(n)) in full
    ensures Cur(DoFinish(n)) == Cur(n) || Cur(DoFinish(n)).seqno > Cur(n).seqno
    ensures DoFinish(n).store.version == n.store.version + 1
  {
  }

  lemma CleanKeepsPending(n: Node, n': Node, p: Party)
    requires PendingOk(n, p) && n'.proposed == n.proposed
    requires Cur(n').seqno > Cur(n).seqno || Cur(n') == Cur(n)
    requires n'.store.pending == CleanPending(n.store.pending, Cur(n'))
    ensures PendingOk(n', p)
  {
  }

  lemma ConfirmKeeps(n: Node, peer: Node, p: Party, full: set<Body>, base: nat)
    requires InvAt(n, peer, p, full, base)
    ensures InvAt(DoFinish(n), peer, p, full, base)
  {
    var n' := DoFinish(n);
    if n'.store == n.store {
      ReleaseKeeps(n, peer, p, full, base);
    } else {
      ConfirmedRow(n, p, full, base);
      CleanKeepsPending(n, n', p);
      CatchUpKeeps(n, n', peer, p, full, base);
    }
  }

  lemma RecoverKeeps(n: Node, peer: Node, p: Party, full: set<Body>, base: nat, rec: SignedBody)
    requires InvAt(n, peer, p, full, base)
    ensures InvAt(DoRecover(n, full, rec), peer, p, full, base)
  {
    if rec.body in full && Recovered(n.store, rec).Ok? {
      var n' := DoRecover(n, full, rec);
      assert SavedFits(rec.body, n.store.pending[rec.body], p);
      MoveKeepsPending(n, n', p);
      CatchUpKeeps(n, n', peer, p, full, base);
    }
  }

  ghost predicate InvAfter(t: (Node, Node, set<Body>), p: Party, base: nat) {
    InvAt(t.0, t.1, p, t.2, base)
  }

  /** What each kind of answer does, spelled out. */
  lemma AnsweredCases(n: Node, peer: Node, full: set<Body>, ans: Answer)
    requires n.lock.Processing?
    ensures ans.Known? ==>
            Answered(n, peer, full, ans) == (n.(lock := Free), Deliver(peer, n.lock.job.callId, ans.reply), full)
    ensures ans.Accepted? && n.store.version == n.lock.job.base ==>
            Answered(n, peer, full, ans) == (Cosigned(n, ans.ch, ans.reply),
                                             Deliver(peer, n.lock.job.callId, ans.reply), full + {ans.reply.body})
    ensures ans.Rejected? || (ans.Accepted? && n.store.version != n.lock.job.base) ==>
            Answered(n, peer, full, ans) == (n.(lock := Free), peer, full)
  {
  }

  lemma AnswerKeeps(n: Node, peer: Node, p: Party, full: set<Body>, base: nat, ans: Answer, t: (Node, Node, set<Body>))
    requires InvAt(n, peer, p, full, base) && n.lock.Processing? && t == Answered(n, peer, full, ans)
    requires AnswerFits(n.lock.job.snapshot, n.lock.job.proposal, ans)
    ensures InvAfter(t, p, base)
  {
    AnsweredCases(n, peer, full, ans);
    if ans.Known? {
      KnownKeeps(n, peer, p, full, base, ans.reply);
    } else if ans.Accepted? && n.store.version == n.lock.job.base {
      AcceptedKeeps(n, peer, p, full, base, ans.ch, ans.reply);
    } else {
      ReleaseKeeps(n, peer, p, full, base);
    }
  }

  lemma EndKeeps(n: Node, peer: Node, p: Party, full: set<Body>, base: nat, w: World, loc: Local)
    requires InvAt(n, peer, p, full, base)
    ensures InvAfter(DoEnd(n, peer, full, w, loc), p, base)
  {
    if n.lock.Processing? {
      var job := n.lock.job;
      ReceiveFits(job.snapshot, job.proposal, job.act, w, loc);
      AnswerKeeps(n, peer, p, full, base, Receive(job.snapshot, job.proposal, job.act, w, loc),
                  DoEnd(n, peer, full, w, loc));
    }
  }

  lemma SeenFrom(s: System, base: nat, p: Party)
    requires Inv(s, base)
    ensures InvAt(At(s, p), At(s, p.Other()), p, s.full, base)
  {
  }

  lemma SeenBack(s: System, base: nat, p: Party)
    requires InvAt(At(s, p), At(s, p.Other()), p, s.full, base)
    ensures Inv(s, base)
  {
  }

  lemma ProposeEventKeeps(s: System, base: nat, e: Event)
    requires Inv(s, base) && e.StartPropose?
    ensures Inv(Step(s, e), base)
  {
    var p := e.at;
    var n, peer := At(s, p), At(s, p.Other());
    SeenFrom(s, base, p);
    if n.lock.Free? && Propose(n.store.ch, e.act, e.w, e.loc).Ok? {
      var (edited, prop) := Propose(n.store.ch, e.act, e.w, e.loc).value;
      ProposeFacts(n.store.ch, e.act, e.w, e.loc);
      StartKeeps(n, peer, p, s.full, base, e.act, edited, prop);
      assert At(Step(s, e), p) == Opened(n, e.act, edited, prop);
    }
    SeenBack(Step(s, e), base, p);
  }

  lemma PutKeeps(s: System, base: nat, p: Party, n: Node)
    requires InvAt(n, At(s, p.Other()), p, s.full, base)
    ensures Inv(Put(s, p, n), base)
  {
  }

  lemma PutBothKeeps(s: System, base: nat, p: Party, t: (Node, Node, set<Body>))
    requires InvAfter(t, p, base)
    ensures Inv(Put(Put(s, p, t.0), p.Other(), t.1).(full := t.2), base)
  {
  }

  lemma EndEventKeeps(s: System, base: nat, e: Event, t: (Node, Node, set<Body>))
    requires Inv(s, base) && e.EndProcess? && t == DoEnd(At(s, e.at), At(s, e.at.Other()), s.full, e.w, e.loc)
    ensures Inv(Put(Put(s, e.at, t.0), e.at.Other(), t.1).(full := t.2), base)
  {
    SeenFrom(s, base, e.at);
    EndKeeps(At(s, e.at), At(s, e.at.Other()), e.at, s.full, base, e.w, e.loc);
    PutBothKeeps(s, base, e.at, t);
  }

  /** Events that change the node's own row, lock or histories only. */
  lemma OwnEventKeeps(s: System, base: nat, e: Event, n: Node, peer: Node, p: Party) returns (n': Node)
    requires InvAt(n, peer, p, s.full, base) && !e.StartPropose? && !e.EndProcess?
    requires p == e.at && n == At(s, p) && peer == At(s, p.Other())
    ensures InvAt(n', peer, p, s.full, base) && Step(s, e) == Put(s, p, n')
  {
    match e {
      case BeginProcess(_) => { BeginKeeps(n, peer, p, s.full, base); n' := DoBegin(n, peer); }
      case FinishPropose(_) => { ConfirmKeeps(n, peer, p, s.full, base); n' := DoFinish(n); }
      case Release(_) => { ReleaseKeeps(n, peer, p, s.full, base); n' := n.(lock := Free); }
      case Touch(_, _, _, _) => { TouchKeeps(n, peer, p, s.full, base, e); n' := DoTouch(n, e); }
      case Recover(_, rec) => { RecoverKeeps(n, peer, p, s.full, base, rec); n' := DoRecover(n, s.full, rec); }
    }
  }

  lemma StepKeeps(s: System, base: nat, e: Event)
    requires Inv(s, base)
    ensures Inv(Step(s, e), base)
  {
    if e.StartPropose? {
      ProposeEventKeeps(s, base, e);
    } else if e.EndProcess? {
      EndEventKeeps(s, base, e, DoEnd(At(s, e.at), At(s, e.at.Other()), s.full, e.w, e.loc));
    } else {
      var p := e.at;
      SeenFrom(s, base, p);
      var n' := OwnEventKeeps(s, base, e, At(s, p), At(s, p.Other()), p);
      PutKeeps(s, base, p, n');
    }
  }

  lemma {:induction false} RunKeeps(s: System, base: nat, events: seq<Event>)
    requires Inv(s, base)
    ensures Inv(Run(s, events), base)
    decreases |events|
  {
    if events != [] {
      StepKeeps(s, base, events[0]);
      RunKeeps(Step(s, events[0]), base, events[1..]);
    }
  }

  lemma StartIsOk(base: nat)
    ensures Inv(Start(base), base)
  {
  }
}
