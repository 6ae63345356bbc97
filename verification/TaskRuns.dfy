/** What workers can rely on over runs of the task queue: a task handed out is theirs until its lock passes. */
module TaskRuns {
  import opened Prelude
  import opened Keys
  import opened TaskQueue

  const FIVE_MINUTES := 5 * 60 * 1_000_000_000

  /** States one after another, each by one operation. */
  ghost predicate Follows(ds: seq<Db>, ops: seq<Op>, startedAt: int) {
    |ds| == |ops| + 1 && forall i :: 0 <= i < |ops| ==> Next(ds[i], ds[i + 1], ops[i], startedAt)
  }

  /** Nobody finishes or retries the task, and whoever asks for one asks before `till`. */
  ghost predicate Keeps(op: Op, id: Id, till: int) {
    match op
    case Create(_) => true
    case Complete(copy, _) => copy.id != id
    case Retry(copy, _) => copy.id != id
    case Acquire(_, clock, n) => forall r: nat :: r <= n ==> clock(r) < till
  }

  /** Nobody creates or finishes another task of the same due time and queue. */
  ghost predicate Unrivalled(op: Op, t: Task) {
    match op
    case Create(u) => IndexKey(u) != IndexKey(t)
    case Complete(copy, _) => IndexKey(copy) != IndexKey(t)
    case _ => true
  }

  /** The task is in the table, unfinished, and locked by this run of the service until `till`. */
  ghost predicate InWork(d: Db, t: Task, startedAt: int, till: int) {
    && t.id in d.tasks && d.tasks[t.id] == t && t.completedAt.None?
    && t.lockedAt.Some? && t.lockedAt.value > startedAt && t.lockedTill == Some(till)
  }

  /** What was handed out is neither the task nor any later one of its queue. */
  ghost predicate Spares(d: Db, op: Op, t: Task) {
    op.Acquire? && op.result.Some? ==>
      && op.result.value.id != t.id
      && (t.id in d.live && op.result.value.queue == t.queue ==> Before(IndexKey(op.result.value), IndexKey(t)))
  }

  lemma WorkGoesOn(a: Db, b: Db, op: Op, startedAt: int, t: Task, till: int)
    requires InWork(a, t, startedAt, till) && Next(a, b, op, startedAt) && Keeps(op, t.id, till)
    ensures InWork(b, t, startedAt, till) && Spares(b, op, t)
    ensures t.id in a.live && Unrivalled(op, t) ==> t.id in b.live
  {
  }

  /** While a task is locked, in every run in which nobody finishes or retries it and all who ask do so before the lock
      passes, it is never handed out again, nor is any later task of its queue as long as the index holds it; and it
      stays there unless another task of the same due time and queue comes or goes. */
  lemma {:induction false} LockIsRespected(ds: seq<Db>, ops: seq<Op>, startedAt: int, t: Task, till: int)
    requires Follows(ds, ops, startedAt) && InWork(ds[0], t, startedAt, till)
    requires forall i :: 0 <= i < |ops| ==> Keeps(ops[i], t.id, till)
    ensures InWork(ds[|ops|], t, startedAt, till)
    ensures forall i :: 0 <= i < |ops| ==> Spares(ds[i + 1], ops[i], t)
    ensures t.id in ds[0].live && (forall i :: 0 <= i < |ops| ==> Unrivalled(ops[i], t)) ==> t.id in ds[|ops|].live
    decreases |ops|
  {
    if ops != [] {
      var m, front := |ops| - 1, ds[..|ops|];
      assert forall k :: 0 <= k < |ops| ==> front[k] == ds[k];
      LockIsRespected(front, ops[..m], startedAt, t, till);
      WorkGoesOn(ds[m], ds[|ops|], ops[m], startedAt, t, till);
    }
  }

  /** A task handed out after the service started is such a task, for at least five minutes from then on. */
  lemma HandedOutIsInWork(a: Db, b: Db, result: Task, clock: nat -> int, n: nat, startedAt: int)
    requires Next(a, b, Acquire(Some(result), clock, n), startedAt) && clock(n) > startedAt
    ensures result.lockedTill.Some? && result.lockedTill.value >= clock(n) + FIVE_MINUTES
    ensures InWork(b, result, startedAt, result.lockedTill.value) && result.id in b.live
  {
    assert clock(n) <= clock(n + 1);
  }

  /** Who may be handed out, field by field: due, unfinished, not locked by this run of the service beyond now, not
      waiting to be retried, and not past its last moment. So a lock binds exactly until it passes or the service
      restarts, and then the task may be handed out again. */
  lemma MayTakeExactly(t: Task, asked: int, now: int, startedAt: int)
    ensures MayTake(t, asked, now, startedAt) <==>
              (&& t.executeAfter <= asked && t.completedAt.None?
               && (t.lockedAt.None? || t.lockedTill.None? || t.lockedTill.value <= now || t.lockedAt.value <= startedAt)
               && (t.reExecuteAfter.None? || t.reExecuteAfter.value <= now)
               && (t.executeTill.None? || now <= t.executeTill.value))
  {
  }

  /** When nobody is handed anything, every due task has at or before it one of its queue that is locked by this run of
      the service or waits to be retried at one of the readings; nothing expires while it is either. */
  lemma NothingIsSaidOnlyOfHeldTasks(a: Db, b: Db, clock: nat -> int, n: nat, startedAt: int, id: Id)
    requires Next(a, b, Acquire(None, clock, n), startedAt)
    requires id in b.live && b.tasks[id].completedAt.None? && b.tasks[id].executeAfter <= clock(0)
    ensures exists h, r: nat :: h in b.live && r <= n && b.tasks[h].queue == b.tasks[id].queue
              && (h == id || Before(IndexKey(b.tasks[h]), IndexKey(b.tasks[id])))
              && Withheld(b.tasks[h], clock(r), startedAt)
  {
    assert HeldBack(b.tasks, b.live, id, clock, n, startedAt);
    var h :| h in b.live && b.tasks[h].queue == b.tasks[id].queue
      && (h == id || Before(IndexKey(b.tasks[h]), IndexKey(b.tasks[id])))
      && SeenBlocked(b.tasks[h], clock, n, startedAt);
    var r: nat :| r <= n && BlockedAt(b.tasks[h], clock(r), startedAt);
    assert Withheld(b.tasks[h], clock(r), startedAt);
  }

  /** Somebody works on it, or it waits for its next attempt. */
  predicate Withheld(t: Task, now: int, startedAt: int) {
    || (t.lockedAt.Some? && t.lockedTill.Some? && now < t.lockedTill.value && startedAt < t.lockedAt.value)
    || (t.reExecuteAfter.Some? && now < t.reExecuteAfter.value)
  }

  /** Only what is past its last moment, and neither worked on nor waiting, leaves the index by a scan. */
  lemma ExpiredExactly(a: Db, b: Db, result: Option<Task>, clock: nat -> int, n: nat, startedAt: int, id: Id)
    requires Next(a, b, Acquire(result, clock, n), startedAt) && id in a.live - b.live
    ensures exists r: nat :: r <= n && a.tasks[id].executeTill.Some? && a.tasks[id].executeTill.value < clock(r)
              && !Withheld(a.tasks[id], clock(r), startedAt)
  {
    var r: nat :| r <= n && ExpiredAt(a.tasks[id], clock(r)) && !BlockedAt(a.tasks[id], clock(r), startedAt);
    assert a.tasks[id].executeTill.value < clock(r) && !Withheld(a.tasks[id], clock(r), startedAt);
  }
}
