/** The node's stored state as it is edited in place: the channel row with its version check,
    and the pending states kept under byte keys. */
module NodeStore {
  import opened Prelude
  import opened Keys
  import opened Payments
  import opened Channel
  import opened Protocol
  import LiveChannel

  /** A collision-free digest, as the store's keys assume. */
  ghost predicate Collisionless(digest: Body -> Bytes) {
    forall a, b :: digest(a) == digest(b) ==> a == b
  }

  /** `chp:<address>:` entries of one channel: seqno, then the hash of the body. */
  class PendingDb {
    const digest: Body -> Bytes
    var entries: map<Bytes, Saved>
    ghost var saved: map<Body, Saved>

    function KeyOf(b: Body): Bytes
    {
      BigEndian(b.seqno, 8) + digest(b)
    }

    ghost predicate Agree(entries: map<Bytes, Saved>, view: map<Body, Saved>) {
      && (forall b :: b in view ==> b.seqno < Pow256(8) && KeyOf(b) in entries && entries[KeyOf(b)] == view[b])
      && (forall k :: k in entries ==> exists b :: b in view && KeyOf(b) == k)
    }

    ghost predicate Valid()
      reads this
    {
      Collisionless(digest) && Agree(entries, saved)
    }

    constructor (digest: Body -> Bytes)
      requires Collisionless(digest)
      ensures Valid() && saved == map[] && this.digest == digest
    {
      this.digest := digest;
      entries, saved := map[], map[];
    }

    lemma KeysApart(a: Body, b: Body)
      requires Collisionless(digest) && a.seqno < Pow256(8) && b.seqno < Pow256(8)
      ensures KeyOf(a) == KeyOf(b) <==> a == b
    {
      NumberedKeyOrder(a.seqno, digest(a), b.seqno, digest(b));
    }

    lemma KeysApartFromSaved(b: Body)
      requires Valid() && b.seqno < Pow256(8)
      ensures forall x :: x in saved && KeyOf(x) == KeyOf(b) ==> x == b
    {
      forall x | x in saved && KeyOf(x) == KeyOf(b) ensures x == b {
        KeysApart(x, b);
      }
    }

    method SaveChannelPendingState(ch: Chan, b: Body)
      requires Valid() && b.seqno < Pow256(8)
      modifies this
      ensures Valid() && saved == SavePending(old(saved), b, ch)
    {
      KeysApartFromSaved(b);
      var key := KeyOf(b);
      if key in entries {
        return;
      }
      entries := entries[key := Saved(ch.our.data, ch.their.data)];
      saved := saved[b := Saved(ch.our.data, ch.their.data)];
    }

    method GetChannelPendingState(b: Body) returns (r: Option<Saved>)
      requires Valid() && b.seqno < Pow256(8)
      ensures r == if b in saved then Some(saved[b]) else None
    {
      KeysApartFromSaved(b);
      var key := KeyOf(b);
      if key in entries {
        return Some(entries[key]);
      }
      return None;
    }

    /** An ascending iterator holds a key within its first `i` entries exactly when the key is
        before the bound at which the scan stopped. */
    static lemma ScannedExactly(iter: seq<Bytes>, i: nat, bound: Bytes, k: Bytes)
      requires Ascending(iter) && i <= |iter| && k in iter
      requires forall j :: 0 <= j < i ==> Before(iter[j], bound)
      requires i < |iter| ==> !Before(iter[i], bound)
      ensures k in iter[..i] <==> Before(k, bound)
    {
      var m :| 0 <= m < |iter| && iter[m] == k;
      if m > i && Before(k, bound) {
        BeforeTransitive(iter[i], k, bound);
      }
    }

    lemma OlderIsBefore(x: Body, b: Body)
      requires x.seqno < Pow256(8) && b.seqno < Pow256(8)
      ensures Before(KeyOf(x), BigEndian(b.seqno, 8)) <==> x.seqno < b.seqno
    {
      NumberedKeyOrder(x.seqno, digest(x), b.seqno, []);
      assert BigEndian(b.seqno, 8) + [] == BigEndian(b.seqno, 8);
    }

    /** What is left after the scan is what the cleanup keeps. */
    lemma ScanKeepsView(before: map<Bytes, Saved>, after: map<Bytes, Saved>, view: map<Body, Saved>, b: Body,
                        iter: seq<Bytes>, i: nat)
      requires Collisionless(digest) && Agree(before, view) && b.seqno < Pow256(8)
      requires Ascending(iter) && i <= |iter|
      requires forall k :: k in before && k != KeyOf(b) ==> k in iter
      requires forall j :: 0 <= j < i ==> Before(iter[j], BigEndian(b.seqno, 8))
      requires i < |iter| ==> !Before(iter[i], BigEndian(b.seqno, 8))
      requires forall k :: k in after <==> k in before && k != KeyOf(b) && k !in iter[..i]
      requires forall k :: k in after ==> after[k] == before[k]
      ensures Agree(after, CleanPending(view, b))
    {
      forall x | x in view && x != b ensures KeyOf(x) in after <==> x.seqno >= b.seqno {
        KeysApart(x, b);
        ScannedExactly(iter, i, BigEndian(b.seqno, 8), KeyOf(x));
        OlderIsBefore(x, b);
      }
      forall k | k in after ensures exists x :: x in CleanPending(view, b) && KeyOf(x) == k {
        var x :| x in view && KeyOf(x) == k;
        assert x in CleanPending(view, b);
      }
    }

    /** The iterator loop: delete in key order until the first key not before `prefix`. */
    static method DeleteBefore(entries: map<Bytes, Saved>, iter: seq<Bytes>, prefix: Bytes)
      returns (left: map<Bytes, Saved>, ghost i: nat)
      ensures i <= |iter|
      ensures forall j :: 0 <= j < i ==> Before(iter[j], prefix)
      ensures i < |iter| ==> !Before(iter[i], prefix)
      ensures forall k :: k in left <==> k in entries && k !in iter[..i]
      ensures forall k :: k in left ==> left[k] == entries[k]
    {
      left := entries;
      var n := 0;
      while n < |iter| && Before(iter[n], prefix)
        invariant n <= |iter|
        invariant forall j :: 0 <= j < n ==> Before(iter[j], prefix)
        invariant forall k :: k in left <==> k in entries && k !in iter[..n]
        invariant forall k :: k in left ==> left[k] == entries[k]
      {
        left := left - {iter[n]};
        n := n + 1;
      }
      i := n;
    }

    /** `iter` is what the store's iterator over the channel's prefix yields, in key order. */
    method CleanupChannelPendingStates(b: Body, iter: seq<Bytes>)
      requires Valid() && b.seqno < Pow256(8)
      requires Ascending(iter)
      requires forall k :: k in iter ==> k in entries
      requires forall k :: k in entries && k != KeyOf(b) ==> k in iter
      modifies this
      ensures Valid() && saved == CleanPending(old(saved), b)
    {
      var left, i := DeleteBefore(entries - {KeyOf(b)}, iter, BigEndian(b.seqno, 8));
      ScanKeepsView(entries, left, saved, b, iter, i);
      entries := left;
      saved := CleanPending(saved, b);
    }
  }

  /** A working copy of the row is edited in place and sealed. */
  method ProposeOn(row: Chan, act: Action, w: World, loc: Local) returns (r: Result<(Chan, SignedBody)>)
    ensures r == Propose(row, act, w, loc)
  {
    var ch := new LiveChannel.ChannelObject(row);
    var prop := ch.UpdateOurStateWithAction(act, w, loc);
    if prop.Err? {
      return Err;
    }
    var edited := ch.Snapshot();
    return Ok((edited, prop.value));
  }

  /** The same for a request: re-executed on a copy, or answered from the row. */
  method ReceiveOn(row: Chan, p: SignedBody, act: Action, w: World, loc: Local) returns (a: Answer)
    ensures a == Receive(row, p, act, w, loc)
  {
    var ch := new LiveChannel.ChannelObject(row);
    var r := ch.ProcessAction(p, act, w, loc);
    if r.Err? {
      return Rejected;
    }
    if p.body.seqno == CurrentBody(row).seqno {
      return Known(r.value);
    }
    var edited := ch.Snapshot();
    return Accepted(edited, r.value);
  }

  /** One node of the service: the stored row, its pending states and the channel lock,
      driven by the two halves of `proposeAction` and of `ProcessAction`. */
  class ServiceNode {
    const pending: PendingDb
    var row: Chan
    var version: nat
    var lock: Lock
    var callId: nat
    ghost var proposed: set<Body>
    ghost var cosigned: set<Body>

    ghost predicate Valid()
      reads this, pending
    {
      pending.Valid()
    }

    ghost function View(): Node
      reads this, pending
    {
      Node(Store(row, version, pending.saved), lock, callId, proposed, cosigned)
    }

    constructor (ch: Chan, digest: Body -> Bytes)
      requires Collisionless(digest)
      ensures Valid() && fresh(pending)
      ensures View() == Node(Store(ch, 0, map[]), Free, 0, {}, {})
    {
      pending := new PendingDb(digest);
      row, version, lock, callId := ch, 0, Free, 0;
      proposed, cosigned := {}, {};
    }

    /** `UpdateChannel`: refused when the row was written since `base` was read. */
    method UpdateChannel(ch: Chan, base: nat) returns (ok: bool)
      modifies this`row, this`version
      ensures match Protocol.UpdateChannel(old(View()).store, ch, base)
              case Err => !ok && row == old(row) && version == old(version)
              case Ok(st) => ok && row == st.ch && version == st.version
    {
      if version != base {
        return false;
      }
      row, version := ch, version + 1;
      return true;
    }

    /** `proposeAction` up to the request: edit a copy, save the pending data, open the call. */
    method StartPropose(act: Action, w: World, loc: Local)
      requires Valid() && CurrentBody(row).seqno + 1 < Pow256(8)
      modifies this, pending
      ensures Valid() && View() == DoStart(old(View()), act, w, loc)
    {
      if !lock.Free? {
        return;
      }
      var r := ProposeOn(row, act, w, loc);
      if r.Err? {
        return;
      }
      var (edited, prop) := r.value;
      ProposedSeqno(row, act, w, loc);
      StartedAs(View(), act, w, loc, edited, prop);
      OpenCall(act, edited, prop);
    }

    /** The pending data is saved before the request leaves. */
    method OpenCall(act: Action, edited: Chan, prop: SignedBody)
      requires Valid() && prop.body.seqno < Pow256(8)
      modifies this, pending
      ensures Valid() && View() == Opened(old(View()), act, edited, prop)
    {
      pending.SaveChannelPendingState(edited, prop.body);
      lock := Proposing(Call(act, edited, version, prop, None));
      callId := callId + 1;
      proposed := proposed + {prop.body};
    }

    static lemma StartedAs(n: Node, act: Action, w: World, loc: Local, edited: Chan, prop: SignedBody)
      requires n.lock.Free? && Propose(n.store.ch, act, w, loc) == Ok((edited, prop))
      ensures DoStart(n, act, w, loc) == Opened(n, act, edited, prop)
    {
    }

    static lemma ProposedSeqno(ch: Chan, act: Action, w: World, loc: Local)
      requires Propose(ch, act, w, loc).Ok?
      ensures Propose(ch, act, w, loc).value.1.body.seqno <= CurrentBody(ch).seqno + 1
    {
    }

    /** The request of the peer's open call is picked up if the lock is free. */
    method BeginProcess(peerCall: nat, call: Call, ghost peer: Node)
      requires Valid() && peer.lock == Proposing(call) && peer.callId == peerCall
      modifies this`lock
      ensures Valid() && View() == DoBegin(old(View()), peer)
    {
      if lock.Free? {
        lock := Processing(Job(row, version, peerCall, call.proposal, call.act));
      }
    }

    /** The rest of `ProcessAction`: re-execute on the snapshot, store under the version check, reply. */
    method EndProcess(w: World, loc: Local, ghost peer: Node, ghost full: set<Body>)
      returns (reply: Option<SignedBody>)
      requires Valid() && lock.Processing?
      modifies this
      ensures Valid() && View() == DoEnd(old(View()), peer, full, w, loc).0
      ensures reply.Some? ==>
                DoEnd(old(View()), peer, full, w, loc).1 == Deliver(peer, old(lock).job.callId, reply.value)
      ensures reply.None? ==> DoEnd(old(View()), peer, full, w, loc).1 == peer
    {
      var job := lock.job;
      var ans := ReceiveOn(job.snapshot, job.proposal, job.act, w, loc);
      AnsweredCases(View(), peer, full, ans);
      lock := Free;
      match ans
      case Rejected => return None;
      case Known(r) => return Some(r);
      case Accepted(ch, r) =>
        var ok := UpdateChannel(ch, job.base);
        if !ok {
          return None;
        }
        cosigned := cosigned + {r.body};
        return Some(r);
    }

    /** `proposeAction` from the reply on: verify it, store the row, clean the pending states. */
    method FinishPropose(iter: seq<Bytes>)
      requires Valid() && lock.Proposing? && lock.call.reply.Some?
      requires lock.call.proposal.body.seqno < Pow256(8)
      requires Ascending(iter)
      requires forall k :: k in iter <==> k in pending.entries
      modifies this, pending
      ensures Valid() && View() == DoFinish(old(View()))
    {
      var call := lock.call;
      lock := Free;
      var r := Confirmed(call.edited, call.proposal, call.reply.value);
      if r.Err? {
        return;
      }
      var ok := UpdateChannel(r.value, call.base);
      if ok {
        pending.CleanupChannelPendingStates(call.proposal.body, iter);
      }
    }

    /** The chain scanner: the peer committed a state we signed but never saw confirmed. */
    method RecoverFromChain(rec: SignedBody) returns (ok: bool)
      requires Valid() && rec.body.seqno < Pow256(8)
      modifies this
      ensures Valid()
      ensures match Recovered(old(View()).store, rec)
              case Err => !ok && View() == old(View())
              case Ok(st) => ok && View() == old(View()).(store := st)
    {
      var cur := CurrentBody(row);
      if !rec.Full() || rec.body.seqno < cur.seqno || rec.body == cur {
        return false;
      }
      var ps := pending.GetChannelPendingState(rec.body);
      if ps.None? {
        return false;
      }
      row := row.(our := row.our.(data := ps.value.our), their := row.their.(data := ps.value.their),
                  signed := Some(rec));
      version := version + 1;
      return true;
    }
  }
}
