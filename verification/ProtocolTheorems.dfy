/** What holds in every run of the update protocol. */
module ProtocolTheorems {
  import opened Prelude
  import opened Payments
  import opened Channel
  import opened Protocol

  /** The states some run leads to. */
  ghost predicate Reachable(s: System, base: nat) {
    exists events :: s == Run(Start(base), events)
  }

  lemma ReachableIsOk(s: System, base: nat)
    requires Reachable(s, base)
    ensures Inv(s, base)
  {
    var events :| s == Run(Start(base), events);
    StartIsOk(base);
    RunKeeps(Start(base), base, events);
  }

  lemma HashDictInjective<K, V>(a: map<K, V>, b: map<K, V>)
    requires HashDict(a) == HashDict(b)
    ensures a == b
  {
  }

  /** Safety of the agreement: the two confirmed seqnos differ by at most one, and equal
      seqnos mean one body and mirrored dictionaries. */
  lemma ConfirmedStatesAgree(s: System, base: nat)
    requires Reachable(s, base)
    ensures -1 <= Cur(s.left).seqno - Cur(s.right).seqno <= 1
    ensures Cur(s.left).seqno == Cur(s.right).seqno ==>
              && Cur(s.left) == Cur(s.right)
              && s.left.store.ch.our.data == s.right.store.ch.their.data
              && s.left.store.ch.their.data == s.right.store.ch.our.data
  {
    ReachableIsOk(s, base);
    if Cur(s.left).seqno == Cur(s.right).seqno {
      var l, r := s.left.store.ch, s.right.store.ch;
      HashDictInjective(l.our.data.conds, r.their.data.conds);
      HashDictInjective(l.our.data.acts, r.their.data.acts);
      HashDictInjective(l.their.data.conds, r.our.data.conds);
      HashDictInjective(l.their.data.acts, r.our.data.acts);
    }
  }

  /** No seqno ever gets two bodies with a record carrying both signatures, and whatever a row
      stores as signed is such a record. */
  lemma OneSignedBodyPerSeqno(s: System, base: nat, x: Body, y: Body, p: Party)
    requires Reachable(s, base)
    requires x in s.full && y in s.full && x.seqno == y.seqno
    ensures x == y
    ensures At(s, p).store.ch.signed.Some? ==>
              At(s, p).store.ch.signed.value.Full() && At(s, p).store.ch.signed.value.body in s.full
  {
    ReachableIsOk(s, base);
  }

  /** Whatever a run does next, bodies keep their seqno's single record: histories only grow. */
  lemma {:induction false} SignedBodiesAreForever(s: System, events: seq<Event>)
    ensures s.full <= Run(s, events).full
    decreases |events|
  {
    if events != [] {
      SignedBodiesAreForever(Step(s, events[0]), events[1..]);
    }
  }

  /** At every reachable moment each body a node signed and sent that the peer could still use
      has its data saved under that body. */
  lemma ExposedBodiesAreSaved(s: System, base: nat, p: Party, b: Body)
    requires Reachable(s, base) && Exposed(At(s, p), b)
    ensures b in At(s, p).store.pending && SavedFits(b, At(s, p).store.pending[b], p)
  {
    ReachableIsOk(s, base);
  }

  /** So on-chain recovery always succeeds: any record with both signatures that the peer publishes, also one it never
      confirmed to us, is found if our signature on it is ours and it is not older than our row and differs from it;
      the recovered row confirms exactly it. */
  lemma RecoveryFindsTheData(s: System, base: nat, p: Party, rec: SignedBody)
    requires Reachable(s, base)
    requires rec.Full() && SignedBy(s, p, rec.body)
    requires rec.body.seqno >= Cur(At(s, p)).seqno && rec.body != Cur(At(s, p))
    ensures Recovered(At(s, p).store, rec).Ok?
    ensures
      var ch := Recovered(At(s, p).store, rec).value.ch;
      CurrentBody(ch) == rec.body == Sealed(ch, rec.body.seqno)
    ensures rec.body in s.full ==> rec.body == Cur(At(s, p.Other()))
  {
    ReachableIsOk(s, base);
    var n, peer := At(s, p), At(s, p.Other());
    if rec.body in s.full {
      assert rec.body.seqno != Cur(n).seqno;
      assert rec.body.seqno == Cur(peer).seqno;
    }
    assert Exposed(n, rec.body);
    assert SavedFits(rec.body, n.store.pending[rec.body], p);
  }

  /** It goes through exactly for a record of both signatures that is not older than the row, differs from it, and has
      its data saved; the row then has that data and that record, and everything else as it was. */
  lemma RecoveryExactly(st: Store, rec: SignedBody)
    ensures Recovered(st, rec).Ok? <==>
              (&& rec.Full() && rec.body.seqno >= CurrentBody(st.ch).seqno && rec.body != CurrentBody(st.ch)
               && rec.body in st.pending)
    ensures Recovered(st, rec).Ok? ==>
      var st', saved := Recovered(st, rec).value, st.pending[rec.body];
      && st'.pending == st.pending && st'.version == st.version + 1
      && st'.ch.our == Side(saved.our, st.ch.our.deposits, st.ch.our.transfers)
      && st'.ch.their == Side(saved.their, st.ch.their.deposits, st.ch.their.transfers)
      && st'.ch.signed == Some(rec) && st'.ch.pendingCommit == st.ch.pendingCommit && st'.ch.us == st.ch.us
  {
  }

  // ---------- signatures taken one by one ----------

  predicate SignedBy(s: System, p: Party, b: Body) {
    b in At(s, p).proposed || b in At(s, p).cosigned
  }

  /** Exactly which bodies both nodes signed: those that became a record, and those that both
      proposed on their own. */
  lemma BothSignedExactly(s: System, base: nat, b: Body)
    requires Reachable(s, base)
    ensures SignedBy(s, Left, b) && SignedBy(s, Right, b) <==>
              b in s.full || (b in s.left.proposed && b in s.right.proposed)
  {
    ReachableIsOk(s, base);
  }

  lemma ReachableStep(s: System, base: nat, e: Event)
    requires Reachable(s, base)
    ensures Reachable(Step(s, e), base)
  {
    var events :| s == Run(Start(base), events);
    RunSplit(Start(base), events, [e]);
    assert Run(s, [e]) == Step(s, e);
    assert Step(s, e) == Run(Start(base), events + [e]);
  }

  lemma {:induction false} RunSplit(s: System, xs: seq<Event>, ys: seq<Event>)
    ensures Run(s, xs + ys) == Run(Run(s, xs), ys)
    decreases |xs|
  {
    if xs == [] {
      assert xs + ys == ys;
    } else {
      assert (xs + ys)[1..] == xs[1..] + ys;
      RunSplit(Step(s, xs[0]), xs[1..], ys);
    }
  }

  /** One call: `p` proposes and the peer handles the request while the call is open. */
  function Handled(s: System, p: Party, act: Action, w: World, lp: Local, lr: Local): System {
    Step(Step(Step(s, StartPropose(p, act, w, lp)), BeginProcess(p.Other())), EndProcess(p.Other(), w, lr))
  }

  lemma CallHandled(s: System, base: nat, p: Party, act: Action, w: World, lp: Local, lr: Local, edited: Chan,
                    prop: SignedBody)
    requires Reachable(s, base)
    requires At(s, p).lock.Free? && At(s, p.Other()).lock.Free?
    requires Propose(At(s, p).store.ch, act, w, lp) == Ok((edited, prop))
    ensures
      var n, peer, s' := At(s, p), At(s, p.Other()), Handled(s, p, act, w, lp, lr);
      var job := Job(peer.store.ch, peer.store.version, n.callId + 1, prop, act);
      && Reachable(s', base)
      && (At(s', p.Other()), At(s', p), s'.full) ==
           Answered(peer.(lock := Processing(job)), Opened(n, act, edited, prop), s.full,
                    Receive(peer.store.ch, prop, act, w, lr))
  {
    var q := p.Other();
    var n, peer := At(s, p), At(s, q);
    var s1 := Step(s, StartPropose(p, act, w, lp));
    assert At(s1, p) == Opened(n, act, edited, prop) && At(s1, q) == peer && s1.full == s.full;
    var s2 := Step(s1, BeginProcess(q));
    var job := Job(peer.store.ch, peer.store.version, n.callId + 1, prop, act);
    assert At(s2, q) == peer.(lock := Processing(job)) && At(s2, p) == At(s1, p) && s2.full == s.full;
    ReachableStep(s, base, StartPropose(p, act, w, lp));
    ReachableStep(s1, base, BeginProcess(q));
    ReachableStep(s2, base, EndProcess(q, w, lr));
  }

  /** Idle rows that mirror each other, and an action both nodes can carry out. */
  ghost predicate ReadyFor(s: System, p: Party, act: Action, w: World, lp: Local, lr: Local) {
    var n, peer := At(s, p), At(s, p.Other());
    && n.lock.Free? && peer.lock.Free? && Mirror(n.store.ch, peer.store.ch)
    && ActionCodeFits(n.store.ch, act) && SameFound(n.store.ch, peer.store.ch, act, lp, lr) && lr.accepting
    && ProposeStep(n.store.ch, act, w, lp).Changed? && ReceiveStep(peer.store.ch, act, w, lr).Ok?
  }

  // ---------- proposals that come to nothing ----------

  /** A call nobody answers, and one the peer handles and denies. */
  function Lost(s: System, p: Party, act: Action, w: World, loc: Local): System {
    Step(Step(s, StartPropose(p, act, w, loc)), Release(p))
  }

  function Denied(s: System, p: Party, act: Action, w: World, loc: Local): System {
    Step(Handled(s, p, act, w, loc, loc.(approves := false)), Release(p))
  }

  /** Only the history of the proposer and what it saved have changed. */
  ghost predicate OnlySigned(s: System, s': System, p: Party, b: Body) {
    && s'.full == s.full && At(s', p.Other()).store == At(s, p.Other()).store
    && At(s', p.Other()).proposed == At(s, p.Other()).proposed && At(s', p.Other()).lock == Free
    && At(s', p).lock == Free && At(s', p).store.ch == At(s, p).store.ch
    && At(s', p).proposed == At(s, p).proposed + {b}
  }

  lemma LostOnlySigns(s: System, base: nat, p: Party, act: Action, w: World, loc: Local, edited: Chan, prop: SignedBody)
    requires Reachable(s, base) && At(s, p).lock.Free? && At(s, p.Other()).lock.Free?
    requires Propose(At(s, p).store.ch, act, w, loc) == Ok((edited, prop))
    ensures Reachable(Lost(s, p, act, w, loc), base) && OnlySigned(s, Lost(s, p, act, w, loc), p, prop.body)
  {
    ReachableStep(s, base, StartPropose(p, act, w, loc));
    ReachableStep(Step(s, StartPropose(p, act, w, loc)), base, Release(p));
  }

  lemma DeniedOnlySigns(s: System, base: nat, p: Party, act: Action, w: World, loc: Local, edited: Chan,
                        prop: SignedBody)
    requires Reachable(s, base) && At(s, p).lock.Free? && At(s, p.Other()).lock.Free?
    requires Propose(At(s, p).store.ch, act, w, loc) == Ok((edited, prop))
    requires prop.body.seqno == Cur(At(s, p.Other())).seqno + 1
    ensures Reachable(Denied(s, p, act, w, loc), base) && OnlySigned(s, Denied(s, p, act, w, loc), p, prop.body)
  {
    var no := loc.(approves := false);
    CallHandled(s, base, p, act, w, loc, no, edited, prop);
    assert Receive(At(s, p.Other()).store.ch, prop, act, w, no).Rejected?;
    ReachableStep(Handled(s, p, act, w, loc, no), base, Release(p));
  }

  // ---------- one seqno, two bodies signed by both ----------

  const IDLE_WORLD := World(0, map[], map[], 1, 2, map[], map[], 0)
  const IDLE_LOCAL := Local(map[], 0, true, true)
  const EMPTY_UPDATE := Body(1, ZERO_SIDE, ZERO_SIDE)

  /** A virtual channel offered by a node. */
  function Offer(p: Party): Action {
    var a := IDLE_WORLD.ActionOf(0);
    AddCond(Virtual(Plain(if p.Left? then 1 else 2), 10, 1, 0, 100, a), Some(a))
  }

  ghost predicate FreshRow(s: System, p: Party) {
    At(s, p).lock.Free? && At(s, p).store.ch == FreshNode(p, 0).store.ch
  }

  lemma FreshProposals(p: Party)
    ensures
      var ch := FreshNode(p, 0).store.ch;
      && Propose(ch, Increment, IDLE_WORLD, IDLE_LOCAL) == Ok((ch, SignedOnlyBy(p, EMPTY_UPDATE)))
      && ProposeStep(ch, Offer(p), IDLE_WORLD, IDLE_LOCAL).Changed?
      && Propose(ch, Offer(p), IDLE_WORLD, IDLE_LOCAL).Ok?
      && Propose(ch, Offer(p), IDLE_WORLD, IDLE_LOCAL).value.1.body.seqno == 1
      && Propose(ch, Offer(p), IDLE_WORLD, IDLE_LOCAL).value.1.body != EMPTY_UPDATE
  {
    var ch := FreshNode(p, 0).store.ch;
    var after := ProposeStep(ch, Offer(p), IDLE_WORLD, IDLE_LOCAL).ch;
    assert Offer(p).cond in after.our.data.conds;
    assert HashDict(after.our.data.conds) != ZeroHash;
  }

  /** A denied offer, and the empty update sent to undo it is lost: the offer's task will be retried. */
  function DeniedThenLost(s: System, p: Party): System {
    Lost(Denied(s, p, Offer(p), IDLE_WORLD, IDLE_LOCAL), p, Increment, IDLE_WORLD, IDLE_LOCAL)
  }

  lemma DeniedThenLostSigns(s: System, p: Party)
    requires Reachable(s, 0) && FreshRow(s, p) && FreshRow(s, p.Other())
    ensures
      var s' := DeniedThenLost(s, p);
      && Reachable(s', 0) && FreshRow(s', p) && FreshRow(s', p.Other()) && s'.full == s.full
      && EMPTY_UPDATE in At(s', p).proposed && At(s', p.Other()).proposed == At(s, p.Other()).proposed
  {
    FreshProposals(p);
    var ch := FreshNode(p, 0).store.ch;
    var (edited, prop) := Propose(ch, Offer(p), IDLE_WORLD, IDLE_LOCAL).value;
    DeniedOnlySigns(s, 0, p, Offer(p), IDLE_WORLD, IDLE_LOCAL, edited, prop);
    var s1 := Denied(s, p, Offer(p), IDLE_WORLD, IDLE_LOCAL);
    LostOnlySigns(s1, 0, p, Increment, IDLE_WORLD, IDLE_LOCAL, ch, SignedOnlyBy(p, EMPTY_UPDATE));
  }

  /** The run: each node has an offer denied and loses the empty update that follows; then the left one retries. */
  function TwiceSigned(): System {
    Handled(DeniedThenLost(DeniedThenLost(Start(0), Left), Right), Left, Offer(Left), IDLE_WORLD, IDLE_LOCAL,
            IDLE_LOCAL)
  }

  /** Whatever is agreed next, a body both nodes proposed at that seqno stays signed by both. */
  lemma AgreementAfterLostProposals(s: System, base: nat, act: Action, w: World, lp: Local, lr: Local, x: Body)
    requires Reachable(s, base) && ReadyFor(s, Left, act, w, lp, lr)
    requires x in s.left.proposed && x in s.right.proposed && x !in s.full
    requires x != Propose(s.left.store.ch, act, w, lp).value.1.body
    ensures
      var s', y := Handled(s, Left, act, w, lp, lr), Propose(s.left.store.ch, act, w, lp).value.1.body;
      && Reachable(s', base) && y in s'.full && x !in s'.full && Cur(s'.right) == y && Cur(s'.left) == Cur(s.left)
      && y.seqno == Cur(s.left).seqno + 1
      && (forall p: Party :: SignedBy(s', p, x) && SignedBy(s', p, y))
  {
    var l, r := s.left.store.ch, s.right.store.ch;
    HonestProposalIsConfirmed(l, r, act, w, lp, lr);
    var (edited, prop) := Propose(l, act, w, lp).value;
    CallHandled(s, base, Left, act, w, lp, lr, edited, prop);
    var s' := Handled(s, Left, act, w, lp, lr);
    assert SignedBy(s', Left, x) && SignedBy(s', Left, prop.body) && SignedBy(s', Right, x)
           && SignedBy(s', Right, prop.body);
  }

  /** The second kind of `BothSignedExactly` is real: counting signatures alone, this seqno has two bodies signed by
      both. */
  lemma SameLostProposalIsSignedTwice()
    ensures
      var s, x := TwiceSigned(), EMPTY_UPDATE;
      && Reachable(s, 0) && Cur(s.right).seqno == x.seqno && Cur(s.right) != x && Cur(s.left).seqno == 0
      && (forall p: Party :: SignedBy(s, p, x) && SignedBy(s, p, Cur(s.right)))
      && Cur(s.right) in s.full && x !in s.full
  {
    var s0 := Start(0);
    assert s0 == Run(s0, []);
    DeniedThenLostSigns(s0, Left);
    var s1 := DeniedThenLost(s0, Left);
    DeniedThenLostSigns(s1, Right);
    var s2 := DeniedThenLost(s1, Right);
    FreshProposals(Left);
    OfferIsReady(s2);
    AgreementAfterLostProposals(s2, 0, Offer(Left), IDLE_WORLD, IDLE_LOCAL, IDLE_LOCAL, EMPTY_UPDATE);
  }

  lemma OfferIsReady(s: System)
    requires FreshRow(s, Left) && FreshRow(s, Right)
    ensures ReadyFor(s, Left, Offer(Left), IDLE_WORLD, IDLE_LOCAL, IDLE_LOCAL)
  {
    FreshProposals(Left);
  }

  /** Which is why a run's recovery takes only records that were assembled: one put together from two loose signatures
      would leave the nodes with different bodies of one seqno. */
  lemma LooseRecoveryWouldDisagree()
    ensures
      var s, rec := TwiceSigned(), SignedBody(EMPTY_UPDATE, SigOf(Left, EMPTY_UPDATE), SigOf(Right, EMPTY_UPDATE));
      && Reachable(s, 0) && rec.Full() && SignedBy(s, Left, rec.body) && SignedBy(s, Right, rec.body)
      && Recovered(s.left.store, rec).Ok?
      && CurrentBody(Recovered(s.left.store, rec).value.ch).seqno == Cur(s.right).seqno
      && CurrentBody(Recovered(s.left.store, rec).value.ch) != Cur(s.right)
  {
    SameLostProposalIsSignedTwice();
    var rec := SignedBody(EMPTY_UPDATE, SigOf(Left, EMPTY_UPDATE), SigOf(Right, EMPTY_UPDATE));
    RecoveryFindsTheData(TwiceSigned(), 0, Left, rec);
  }

  // ---------- progress ----------

  lemma FinishStep(s: System, p: Party)
    ensures
      var s' := Step(s, FinishPropose(p));
      At(s', p) == DoFinish(At(s, p)) && At(s', p.Other()) == At(s, p.Other()) && s'.full == s.full
  {
  }

  /** A call nobody disturbs ends with both rows confirming the new body, mirrored again. */
  lemma UndisturbedProposalCompletes(s: System, base: nat, p: Party, act: Action, w: World, lp: Local, lr: Local)
    requires Reachable(s, base) && ReadyFor(s, p, act, w, lp, lr)
    ensures
      var s' := Step(Handled(s, p, act, w, lp, lr), FinishPropose(p));
      && Mirror(At(s', p).store.ch, At(s', p.Other()).store.ch)
      && Cur(At(s', p)).seqno == Cur(At(s, p)).seqno + 1
      && At(s', p).lock.Free? && At(s', p.Other()).lock.Free?
  {
    var n, peer := At(s, p), At(s, p.Other());
    HonestProposalIsConfirmed(n.store.ch, peer.store.ch, act, w, lp, lr);
    var (edited, prop) := Propose(n.store.ch, act, w, lp).value;
    var ans := Receive(peer.store.ch, prop, act, w, lr);
    CallHandled(s, base, p, act, w, lp, lr, edited, prop);
    var s3 := Handled(s, p, act, w, lp, lr);
    FinishStep(s3, p);
    var job := Job(peer.store.ch, peer.store.version, n.callId + 1, prop, act);
    AcceptedEnds(n, peer.(lock := Processing(job)), At(s3, p), At(s3, p.Other()), s.full, act, edited, prop, ans);
  }

  /** An accepted call leaves both rows as the two transitions made them. */
  lemma AcceptedEnds(n: Node, busy: Node, n3: Node, peer3: Node, full: set<Body>, act: Action, edited: Chan,
                     prop: SignedBody, ans: Answer)
    requires busy.lock.Processing? && busy.lock.job.base == busy.store.version && busy.lock.job.callId == n.callId + 1
    requires ans.Accepted? && Confirmed(edited, prop, ans.reply).Ok?
    requires (peer3, n3) == (Answered(busy, Opened(n, act, edited, prop), full, ans).0,
                             Answered(busy, Opened(n, act, edited, prop), full, ans).1)
    ensures peer3.store.ch == ans.ch && peer3.lock.Free?
    ensures DoFinish(n3).store.ch == Confirmed(edited, prop, ans.reply).value && DoFinish(n3).lock.Free?
  {
  }

  /** What a receiver one ahead of the proposer answers. */
  lemma AnswerWhenAhead(ch: Chan, prop: SignedBody, act: Action, w: World, loc: Local)
    requires RowOk(ch, ch.us, ch.baseSeqno) && ch.signed.Some? && loc.accepting
    requires prop == SignedOnlyBy(ch.us.Other(), prop.body) && prop.body.seqno <= CurrentBody(ch).seqno
    ensures
      var ans := Receive(ch, prop, act, w, loc);
      if prop.body == CurrentBody(ch) then ans.Known? && ans.reply.Full() && ans.reply.body == prop.body
      else ans.Rejected?
  {
  }

  /** A lost reply leaves the peer one ahead. The next call brings the proposer level exactly when
      it proposes the very body the peer confirmed; anything else is refused. */
  lemma RetryCatchesUpExactly(s: System, base: nat, p: Party, act: Action, w: World, lp: Local, lr: Local)
    requires Reachable(s, base)
    requires At(s, p).lock.Free? && At(s, p.Other()).lock.Free? && lr.accepting
    requires Cur(At(s, p.Other())).seqno == Cur(At(s, p)).seqno + 1
    requires Propose(At(s, p).store.ch, act, w, lp).Ok?
    ensures
      var prop := Propose(At(s, p).store.ch, act, w, lp).value.1;
      var s' := Step(Handled(s, p, act, w, lp, lr), FinishPropose(p));
      && At(s', p.Other()).store.ch == At(s, p.Other()).store.ch
      && (prop.body == Cur(At(s, p.Other())) <==> Cur(At(s', p)) == Cur(At(s', p.Other())))
      && (prop.body != Cur(At(s, p.Other())) ==> At(s', p).store.ch == At(s, p).store.ch)
  {
    var n, peer := At(s, p), At(s, p.Other());
    var (edited, prop) := Propose(n.store.ch, act, w, lp).value;
    var ans := Receive(peer.store.ch, prop, act, w, lr);
    RetryAnswer(s, base, p, act, w, lp, lr, edited, prop);
    CallHandled(s, base, p, act, w, lp, lr, edited, prop);
    var s3 := Handled(s, p, act, w, lp, lr);
    FinishStep(s3, p);
    var job := Job(peer.store.ch, peer.store.version, n.callId + 1, prop, act);
    RetryEnds(n, peer.(lock := Processing(job)), At(s3, p), At(s3, p.Other()), s.full, act, edited, prop, ans);
  }

  /** The answer to a retry: the known record if it is of the same body, a refusal otherwise. */
  lemma RetryAnswer(s: System, base: nat, p: Party, act: Action, w: World, lp: Local, lr: Local, edited: Chan,
                    prop: SignedBody)
    requires Reachable(s, base) && lr.accepting
    requires Cur(At(s, p.Other())).seqno == Cur(At(s, p)).seqno + 1
    requires Propose(At(s, p).store.ch, act, w, lp) == Ok((edited, prop))
    ensures prop == SignedOnlyBy(edited.us, prop.body)
    ensures
      var ans := Receive(At(s, p.Other()).store.ch, prop, act, w, lr);
      if prop.body == Cur(At(s, p.Other())) then ans.Known? && ans.reply.Full() && ans.reply.body == prop.body
      else ans.Rejected?
  {
    var n, peer := At(s, p), At(s, p.Other());
    assert RowOk(n.store.ch, p, base) && RowOk(peer.store.ch, p.Other(), base)
           && n.store.ch.us == p && peer.store.ch.signed.Some? by {
      ReachableIsOk(s, base);
    }
    ProposeFacts(n.store.ch, act, w, lp);
    AnswerWhenAhead(peer.store.ch, prop, act, w, lr);
  }

  lemma RetryEnds(n: Node, busy: Node, n3: Node, peer3: Node, full: set<Body>, act: Action, edited: Chan,
                  prop: SignedBody, ans: Answer)
    requires busy.lock.Processing? && busy.lock.job.callId == n.callId + 1
    requires prop == SignedOnlyBy(edited.us, prop.body)
    requires ans.Rejected? || (ans.Known? && ans.reply.Full() && ans.reply.body == prop.body)
    requires (peer3, n3) == (Answered(busy, Opened(n, act, edited, prop), full, ans).0,
                             Answered(busy, Opened(n, act, edited, prop), full, ans).1)
    ensures peer3.store == busy.store
    ensures ans.Rejected? ==> DoFinish(n3).store.ch == n.store.ch
    ensures ans.Known? ==> Cur(DoFinish(n3)) == prop.body
  {
  }

  /** What matters of it: when a reply is lost, retrying the same action with the same inputs levels the two rows,
      whatever the peer's own checks say by then. */
  lemma RetryOfLostReplyLevels(s: System, base: nat, p: Party, act: Action, w: World, lp: Local, lr: Local,
                               again: Local)
    requires Reachable(s, base) && ReadyFor(s, p, act, w, lp, lr) && again.accepting
    ensures
      var s1 := Step(Handled(s, p, act, w, lp, lr), Release(p));
      var s2 := Step(Handled(s1, p, act, w, lp, again), FinishPropose(p));
      && Cur(At(s1, p)) == Cur(At(s, p)) && Cur(At(s1, p.Other())).seqno == Cur(At(s, p)).seqno + 1
      && Cur(At(s2, p)) == Cur(At(s2, p.Other())) == Cur(At(s1, p.Other()))
  {
    LostReply(s, base, p, act, w, lp, lr);
    RetryCatchesUpExactly(Step(Handled(s, p, act, w, lp, lr), Release(p)), base, p, act, w, lp, again);
  }

  /** The state a lost reply leaves. */
  lemma LostReply(s: System, base: nat, p: Party, act: Action, w: World, lp: Local, lr: Local)
    requires Reachable(s, base) && ReadyFor(s, p, act, w, lp, lr)
    ensures
      var s1 := Step(Handled(s, p, act, w, lp, lr), Release(p));
      && Reachable(s1, base) && At(s1, p).lock.Free? && At(s1, p.Other()).lock.Free?
      && At(s1, p).store.ch == At(s, p).store.ch && Propose(At(s, p).store.ch, act, w, lp).Ok?
      && Cur(At(s1, p.Other())) == Propose(At(s, p).store.ch, act, w, lp).value.1.body
      && Cur(At(s1, p.Other())).seqno == Cur(At(s, p)).seqno + 1
  {
    var n, peer := At(s, p), At(s, p.Other());
    HonestProposalIsConfirmed(n.store.ch, peer.store.ch, act, w, lp, lr);
    var (edited, prop) := Propose(n.store.ch, act, w, lp).value;
    CallHandled(s, base, p, act, w, lp, lr, edited, prop);
    ReachableStep(Handled(s, p, act, w, lp, lr), base, Release(p));
  }

  /** For instance, an empty update proposed after an accepted offer whose reply was lost is refused. */
  lemma OtherRetryIsRefused()
    ensures
      var s := Step(Handled(Start(0), Left, Offer(Left), IDLE_WORLD, IDLE_LOCAL, IDLE_LOCAL), Release(Left));
      var s' := Step(Handled(s, Left, Increment, IDLE_WORLD, IDLE_LOCAL, IDLE_LOCAL), FinishPropose(Left));
      Reachable(s, 0) && Cur(s'.left) != Cur(s'.right)
  {
    var s0 := Start(0);
    assert s0 == Run(s0, []);
    FreshProposals(Left);
    OfferIsReady(s0);
    LostReply(s0, 0, Left, Offer(Left), IDLE_WORLD, IDLE_LOCAL, IDLE_LOCAL);
    var s := Step(Handled(s0, Left, Offer(Left), IDLE_WORLD, IDLE_LOCAL, IDLE_LOCAL), Release(Left));
    RetryCatchesUpExactly(s, 0, Left, Increment, IDLE_WORLD, IDLE_LOCAL, IDLE_LOCAL);
  }
}
