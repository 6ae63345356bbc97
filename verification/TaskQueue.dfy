/** The persistent task queue: a table of tasks and an index ordered by due time, from which
    workers take the first task of a queue that is not blocked. */
module TaskQueue {
  import opened Prelude
  import opened Keys

  type Id = nat

  datatype Task = Task(id: Id, queue: Bytes, executeAfter: nat, executeTill: Option<int>,
                       reExecuteAfter: Option<int>, lockedAt: Option<int>, lockedTill: Option<int>,
                       completedAt: Option<int>)
  {
    /** Fields no operation changes. */
    predicate SameOrder(t: Task) {
      id == t.id && queue == t.queue && executeAfter == t.executeAfter && executeTill == t.executeTill
    }
  }

  const LOCK_NANOS := 300_000_000_000

  /** `getTaskIndexKey`: due time in nanoseconds, then the queue name. */
  function IndexKey(t: Task): Bytes { BigEndian(t.executeAfter, 8) + t.queue }

  /** `binary.BigEndian.Uint64`. */
  function Number(b: Bytes): nat { if b == [] then 0 else Number(b[..|b| - 1]) * 256 + b[|b| - 1] }

  lemma {:induction false} NumberOfBigEndian(n: nat, w: nat)
    requires n < Pow256(w)
    ensures Number(BigEndian(n, w)) == n
    decreases w
  {
    if w > 0 {
      NumberOfBigEndian(n / 256, w - 1);
      assert BigEndian(n, w)[..w - 1] == BigEndian(n / 256, w - 1);
    }
  }

  lemma KeyParts(t: Task)
    requires t.executeAfter < Pow256(8)
    ensures |IndexKey(t)| >= 8 && Number(IndexKey(t)[..8]) == t.executeAfter && IndexKey(t)[8..] == t.queue
  {
    NumberOfBigEndian(t.executeAfter, 8);
    assert IndexKey(t)[..8] == BigEndian(t.executeAfter, 8);
  }

  /** In progress elsewhere: locked by this run of the service and not timed out. */
  predicate LockedNow(t: Task, now: int, startedAt: int) {
    t.lockedAt.Some? && t.lockedTill.Some? && t.lockedTill.value > now && t.lockedAt.value > startedAt
  }

  predicate WaitsToRetry(t: Task, now: int) { t.reExecuteAfter.Some? && t.reExecuteAfter.value > now }

  predicate BlockedAt(t: Task, now: int, startedAt: int) { LockedNow(t, now, startedAt) || WaitsToRetry(t, now) }

  predicate ExpiredAt(t: Task, now: int) { t.executeTill.Some? && t.executeTill.value < now }

  /** Successive readings of the clock. */
  ghost predicate Ticks(clock: nat -> int) {
    forall i, j :: i <= j ==> clock(i) <= clock(j)
  }

  /** Blocked, or not blocked and past its last moment, at one of the first readings. */
  ghost predicate SeenBlocked(t: Task, clock: nat -> int, n: nat, startedAt: int) {
    exists r: nat :: r <= n && BlockedAt(t, clock(r), startedAt)
  }

  ghost predicate SeenExpired(t: Task, clock: nat -> int, n: nat, startedAt: int) {
    exists r: nat :: r <= n && ExpiredAt(t, clock(r)) && !BlockedAt(t, clock(r), startedAt)
  }

  /** What an iterator over the index yields. */
  ghost predicate Iterates(iter: seq<Bytes>, index: map<Bytes, Id>) {
    Ascending(iter) && forall k :: k in iter <==> k in index
  }

  /** Keys past the first one that is not due are not due either. */
  lemma LaterIsNotDue(a: Task, b: Task)
    requires a.executeAfter < Pow256(8) && b.executeAfter < Pow256(8)
    requires IndexKey(a) == IndexKey(b) || Before(IndexKey(a), IndexKey(b))
    ensures a.executeAfter <= b.executeAfter
  {
    NumberedKeyOrder(a.executeAfter, a.queue, b.executeAfter, b.queue);
  }

  /** Every index entry leads to its task. */
  ghost predicate Indexed(tasks: map<Id, Task>, index: map<Bytes, Id>) {
    forall k :: k in index ==>
      index[k] in tasks && IndexKey(tasks[index[k]]) == k && tasks[index[k]].executeAfter < Pow256(8)
  }

  /** The table and the iterator a scan walks, with what it has removed and read so far. */
  ghost predicate Holds(tasks: map<Id, Task>, index: map<Bytes, Id>, iter: seq<Bytes>, gone: set<Bytes>, h: nat,
                        q: Bytes, clock: nat -> int, n: nat, startedAt: int)
  {
    && h < |iter| && iter[h] in index && iter[h] !in gone && index[iter[h]] in tasks
    && tasks[index[iter[h]]].queue == q && SeenBlocked(tasks[index[iter[h]]], clock, n, startedAt)
  }

  /** A queue is skipped because of a blocked task at a position below `p`. */
  ghost predicate HeldBelow(tasks: map<Id, Task>, index: map<Bytes, Id>, iter: seq<Bytes>, gone: set<Bytes>, p: nat,
                            q: Bytes, clock: nat -> int, n: nat, startedAt: int)
  {
    exists h :: 0 <= h < p && Holds(tasks, index, iter, gone, h, q, clock, n, startedAt)
  }

  /** A position the scan went past: removed as expired, already finished, or held back by a blocked
      task of its queue at or before it. */
  ghost predicate Passed(tasks: map<Id, Task>, index: map<Bytes, Id>, iter: seq<Bytes>, gone: set<Bytes>, j: nat,
                         clock: nat -> int, n: nat, startedAt: int)
    requires Indexed(tasks, index) && j < |iter| && iter[j] in index
  {
    var t := tasks[index[iter[j]]];
    if iter[j] in gone then SeenExpired(t, clock, n, startedAt)
    else t.completedAt.Some? || HeldBelow(tasks, index, iter, gone, j + 1, t.queue, clock, n, startedAt)
  }

  /** A scan at position `p`: what it passed, what it removed, and the queues it skips. */
  ghost predicate Scanned(tasks: map<Id, Task>, index: map<Bytes, Id>, iter: seq<Bytes>, gone: set<Bytes>, p: nat,
                          skip: seq<Bytes>, clock: nat -> int, n: nat, startedAt: int)
    requires Walkable(tasks, index, iter)
  {
    && p <= |iter|
    && (forall j :: p <= j < |iter| ==> iter[j] !in gone)
    && (forall j :: 0 <= j < p ==> Passed(tasks, index, iter, gone, j, clock, n, startedAt))
    && (gone <= index.Keys && forall k :: k in gone ==> k in iter && SeenExpired(tasks[index[k]], clock, n, startedAt))
    && (forall j :: 0 <= j < p && iter[j] !in gone && tasks[index[iter[j]]].completedAt.None? ==>
          tasks[index[iter[j]]].queue in skip)
    && (forall q :: q in skip ==> HeldBelow(tasks, index, iter, gone, p, q, clock, n, startedAt))
  }

  ghost predicate Walkable(tasks: map<Id, Task>, index: map<Bytes, Id>, iter: seq<Bytes>) {
    && Indexed(tasks, index) && (forall j :: 0 <= j < |iter| ==> iter[j] in index)
    && forall i, j :: 0 <= i < j < |iter| ==> iter[i] != iter[j]
  }

  /** Reading on, and removing what lies ahead, keeps what is known of the positions passed. */
  lemma HeldStays(tasks: map<Id, Task>, index: map<Bytes, Id>, iter: seq<Bytes>, gone: set<Bytes>, more: set<Bytes>,
                  p: nat, p': nat, clock: nat -> int, n: nat, m: nat, startedAt: int, q: Bytes)
    requires HeldBelow(tasks, index, iter, gone, p, q, clock, n, startedAt) && p <= p' && n <= m
    requires p <= |iter| && forall j :: 0 <= j < p && iter[j] in more ==> iter[j] in gone
    ensures HeldBelow(tasks, index, iter, more, p', q, clock, m, startedAt)
  {
    var h :| 0 <= h < p && Holds(tasks, index, iter, gone, h, q, clock, n, startedAt);
    assert Holds(tasks, index, iter, more, h, q, clock, m, startedAt);
  }

  lemma PassedStays(tasks: map<Id, Task>, index: map<Bytes, Id>, iter: seq<Bytes>, gone: set<Bytes>,
                    more: set<Bytes>, j: nat, clock: nat -> int, n: nat, m: nat, startedAt: int)
    requires Walkable(tasks, index, iter) && j < |iter| && Passed(tasks, index, iter, gone, j, clock, n, startedAt)
    requires n <= m && forall i :: 0 <= i <= j ==> (iter[i] in more <==> iter[i] in gone)
    ensures Passed(tasks, index, iter, more, j, clock, m, startedAt)
  {
    var t := tasks[index[iter[j]]];
    if iter[j] !in gone && t.completedAt.None? {
      HeldStays(tasks, index, iter, gone, more, j + 1, j + 1, clock, n, m, startedAt, t.queue);
    }
  }

  lemma Ticked(tasks: map<Id, Task>, index: map<Bytes, Id>, iter: seq<Bytes>, gone: set<Bytes>, p: nat,
               skip: seq<Bytes>, clock: nat -> int, n: nat, m: nat, startedAt: int)
    requires Walkable(tasks, index, iter) && Scanned(tasks, index, iter, gone, p, skip, clock, n, startedAt) && n <= m
    ensures Scanned(tasks, index, iter, gone, p, skip, clock, m, startedAt)
  {
    forall j | 0 <= j < p ensures Passed(tasks, index, iter, gone, j, clock, m, startedAt) {
      PassedStays(tasks, index, iter, gone, gone, j, clock, n, m, startedAt);
    }
    forall q | q in skip ensures HeldBelow(tasks, index, iter, gone, p, q, clock, m, startedAt) {
      HeldStays(tasks, index, iter, gone, gone, p, p, clock, n, m, startedAt, q);
    }
  }

  /** Going past a finished task, or one of a skipped queue. */
  lemma WentPast(tasks: map<Id, Task>, index: map<Bytes, Id>, iter: seq<Bytes>, gone: set<Bytes>, p: nat,
                 skip: seq<Bytes>, clock: nat -> int, n: nat, startedAt: int)
    requires Walkable(tasks, index, iter) && Scanned(tasks, index, iter, gone, p, skip, clock, n, startedAt)
             && p < |iter|
    requires tasks[index[iter[p]]].completedAt.Some? || tasks[index[iter[p]]].queue in skip
    ensures Scanned(tasks, index, iter, gone, p + 1, skip, clock, n, startedAt)
  {
  }

  lemma WasBlocked(tasks: map<Id, Task>, index: map<Bytes, Id>, iter: seq<Bytes>, gone: set<Bytes>, p: nat,
                   skip: seq<Bytes>, clock: nat -> int, n: nat, startedAt: int)
    requires Walkable(tasks, index, iter) && Scanned(tasks, index, iter, gone, p, skip, clock, n, startedAt)
             && p < |iter|
    requires BlockedAt(tasks[index[iter[p]]], clock(n), startedAt)
    ensures Scanned(tasks, index, iter, gone, p + 1, skip + [tasks[index[iter[p]]].queue], clock, n, startedAt)
  {
    var queue := tasks[index[iter[p]]].queue;
    assert Holds(tasks, index, iter, gone, p, queue, clock, n, startedAt);
    forall q | q in skip + [queue] ensures HeldBelow(tasks, index, iter, gone, p + 1, q, clock, n, startedAt) {
      if q in skip {
        HeldStays(tasks, index, iter, gone, gone, p, p + 1, clock, n, n, startedAt, q);
      }
    }
  }

  lemma WasExpired(tasks: map<Id, Task>, index: map<Bytes, Id>, iter: seq<Bytes>, gone: set<Bytes>, p: nat,
                   skip: seq<Bytes>, clock: nat -> int, n: nat, startedAt: int)
    requires Walkable(tasks, index, iter) && Scanned(tasks, index, iter, gone, p, skip, clock, n, startedAt)
             && p < |iter|
    requires ExpiredAt(tasks[index[iter[p]]], clock(n)) && !BlockedAt(tasks[index[iter[p]]], clock(n), startedAt)
    ensures Scanned(tasks, index, iter, gone + {iter[p]}, p + 1, skip, clock, n, startedAt)
  {
    var more := gone + {iter[p]};
    forall j | 0 <= j < p ensures Passed(tasks, index, iter, more, j, clock, n, startedAt) {
      PassedStays(tasks, index, iter, gone, more, j, clock, n, n, startedAt);
    }
    forall q | q in skip ensures HeldBelow(tasks, index, iter, more, p + 1, q, clock, n, startedAt) {
      HeldStays(tasks, index, iter, gone, more, p, p + 1, clock, n, n, startedAt, q);
    }
  }

  /** Taken only if due, unfinished, and neither blocked nor expired. */
  predicate MayTake(t: Task, asked: int, now: int, startedAt: int) {
    t.executeAfter <= asked && t.completedAt.None? && !BlockedAt(t, now, startedAt) && !ExpiredAt(t, now)
  }

  /** The loop of `AcquireTask`: where it stopped, whether it found a task there, the index entries it deletes
      on the way, and the queues it skipped. */
  method Scan(tasks: map<Id, Task>, index: map<Bytes, Id>, iter: seq<Bytes>, clock: nat -> int, startedAt: int)
    returns (p: nat, found: bool, gone: set<Bytes>, skip: seq<Bytes>, n: nat)
    requires Walkable(tasks, index, iter)
    ensures Scanned(tasks, index, iter, gone, p, skip, clock, n, startedAt)
    ensures !found && p < |iter| ==> tasks[index[iter[p]]].executeAfter > clock(n)
    ensures found ==> p < |iter| && n > 0 && MayTake(tasks[index[iter[p]]], clock(n - 1), clock(n), startedAt)
    ensures found ==> tasks[index[iter[p]]].queue !in skip
  {
    p, found, gone, skip, n := 0, false, {}, [], 0;
    var now := clock(0);
    while p < |iter|
      invariant now == clock(n) && Scanned(tasks, index, iter, gone, p, skip, clock, n, startedAt)
    {
      var key := iter[p];
      var task := tasks[index[key]];
      KeyParts(task);
      if Number(key[..8]) > now {
        break;
      }
      if key[8..] in skip || task.completedAt.Some? {
        WentPast(tasks, index, iter, gone, p, skip, clock, n, startedAt);
        p := p + 1;
        continue;
      }
      Ticked(tasks, index, iter, gone, p, skip, clock, n, n + 1, startedAt);
      n, now := n + 1, clock(n + 1);
      if LockedNow(task, now, startedAt) || WaitsToRetry(task, now) {
        WasBlocked(tasks, index, iter, gone, p, skip, clock, n, startedAt);
        skip := skip + [task.queue];
        p := p + 1;
        continue;
      }
      if ExpiredAt(task, now) {
        WasExpired(tasks, index, iter, gone, p, skip, clock, n, startedAt);
        gone := gone + {key};
        p := p + 1;
        continue;
      }
      found := true;
      return;
    }
  }

  /** With nothing found, every due task is held back. */
  lemma DueIsHeld(tasks: map<Id, Task>, index: map<Bytes, Id>, iter: seq<Bytes>, gone: set<Bytes>, p: nat,
                  clock: nat -> int, n: nat, startedAt: int, k: Bytes) returns (h: nat)
    requires Indexed(tasks, index) && Iterates(iter, index) && p <= |iter| && Ticks(clock)
    requires forall j :: 0 <= j < p ==> Passed(tasks, index, iter, gone, j, clock, n, startedAt)
    requires p < |iter| ==> tasks[index[iter[p]]].executeAfter > clock(n)
    requires k in index && k !in gone && tasks[index[k]].completedAt.None? && tasks[index[k]].executeAfter <= clock(0)
    ensures Holds(tasks, index, iter, gone, h, tasks[index[k]].queue, clock, n, startedAt)
    ensures iter[h] == k || Before(iter[h], k)
  {
    var j :| 0 <= j < |iter| && iter[j] == k;
    assert clock(0) <= clock(n);
    if j >= p {
      LaterIsNotDue(tasks[index[iter[p]]], tasks[index[k]]);
      assert false;
    }
    assert Passed(tasks, index, iter, gone, j, clock, n, startedAt);
    h :| 0 <= h < j + 1 && Holds(tasks, index, iter, gone, h, tasks[index[k]].queue, clock, n, startedAt);
  }

  /** The index holds exactly the live tasks, each under its own key. */
  ghost predicate Agrees(tasks: map<Id, Task>, index: map<Bytes, Id>, live: set<Id>) {
    && live <= tasks.Keys
    && (forall id :: id in tasks ==> tasks[id].id == id && tasks[id].executeAfter < Pow256(8))
    && (forall id :: id in live ==> IndexKey(tasks[id]) in index && index[IndexKey(tasks[id])] == id)
    && (forall k :: k in index ==> index[k] in live && IndexKey(tasks[index[k]]) == k)
  }

  ghost predicate Unfinished(tasks: map<Id, Task>, live: set<Id>)
    requires live <= tasks.Keys
  {
    forall id :: id in live ==> tasks[id].completedAt.None?
  }

  /** The tasks that share a key, other than `id`. */
  ghost function Rivals(tasks: map<Id, Task>, live: set<Id>, key: Bytes, id: Id): set<Id>
    requires live <= tasks.Keys
  {
    set b | b in live && b != id && IndexKey(tasks[b]) == key
  }

  lemma RivalIsIndexed(tasks: map<Id, Task>, index: map<Bytes, Id>, live: set<Id>, key: Bytes, id: Id)
    requires Agrees(tasks, index, live)
    ensures Rivals(tasks, live, key, id) == if key in index && index[key] != id then {index[key]} else {}
  {
  }

  /** For instance, a second task with the due time and queue of the first: the first is its rival, and is pushed
      out. */
  lemma SameKeyIsRival(t: Task, u: Task)
    requires t.id != u.id && t.executeAfter == u.executeAfter && t.queue == u.queue && t.executeAfter < Pow256(8)
    ensures
      var tasks, index := map[t.id := t], map[IndexKey(t) := t.id];
      && Agrees(tasks, index, {t.id}) && Rivals(tasks, {t.id}, IndexKey(u), u.id) == {t.id}
      && Agrees(tasks[u.id := u], index[IndexKey(u) := u.id], {u.id})
  {
    var tasks, index := map[t.id := t], map[IndexKey(t) := t.id];
    assert Agrees(tasks, index, {t.id});
    AddedAgrees(tasks, index, {t.id}, u);
    assert {t.id} - Rivals(tasks, {t.id}, IndexKey(u), u.id) + {u.id} == {u.id};
  }

  lemma AddedAgrees(tasks: map<Id, Task>, index: map<Bytes, Id>, live: set<Id>, t: Task)
    requires Agrees(tasks, index, live) && t.id !in tasks && t.executeAfter < Pow256(8)
    ensures Agrees(tasks[t.id := t], index[IndexKey(t) := t.id], live - Rivals(tasks, live, IndexKey(t), t.id) + {t.id})
  {
  }

  /** The live tasks whose keys stay. */
  ghost function Without(tasks: map<Id, Task>, live: set<Id>, keys: set<Bytes>): set<Id>
    requires live <= tasks.Keys
  {
    set id | id in live && IndexKey(tasks[id]) !in keys
  }

  lemma DroppedAgrees(tasks: map<Id, Task>, index: map<Bytes, Id>, live: set<Id>, keys: set<Bytes>)
    requires Agrees(tasks, index, live)
    ensures Agrees(tasks, index - keys, Without(tasks, live, keys))
  {
  }

  lemma RewrittenAgrees(tasks: map<Id, Task>, index: map<Bytes, Id>, live: set<Id>, t: Task)
    requires Agrees(tasks, index, live) && t.id in tasks && t.SameOrder(tasks[t.id])
    ensures Agrees(tasks[t.id := t], index, live)
  {
  }

  /** A live task of the same queue, at or before `id` in the index, was seen blocked. */
  ghost predicate HeldBack(tasks: map<Id, Task>, live: set<Id>, id: Id, clock: nat -> int, n: nat, startedAt: int)
    requires live <= tasks.Keys && id in live
  {
    exists b :: b in live && tasks[b].queue == tasks[id].queue
      && (b == id || Before(IndexKey(tasks[b]), IndexKey(tasks[id])))
      && SeenBlocked(tasks[b], clock, n, startedAt)
  }

  ghost predicate AllHeldBack(tasks: map<Id, Task>, live: set<Id>, clock: nat -> int, n: nat, startedAt: int)
    requires live <= tasks.Keys
  {
    forall id :: id in live && tasks[id].completedAt.None? && tasks[id].executeAfter <= clock(0) ==>
      HeldBack(tasks, live, id, clock, n, startedAt)
  }

  /** Every other unfinished live task of the queue comes later. */
  ghost predicate FirstOfQueue(tasks: map<Id, Task>, live: set<Id>, t: Task)
    requires live <= tasks.Keys
  {
    forall id :: id in live && id != t.id && tasks[id].queue == t.queue && tasks[id].completedAt.None? ==>
      Before(IndexKey(t), IndexKey(tasks[id]))
  }

  /** Due, unfinished, neither blocked nor expired when taken, and locked from then on. */
  ghost predicate HandedOut(was: Task, t: Task, clock: nat -> int, n: nat, startedAt: int) {
    && t == was.(lockedAt := Some(clock(n)), lockedTill := Some(clock(n + 1) + LOCK_NANOS))
    && was.executeAfter <= clock(n) && was.completedAt.None?
    && !BlockedAt(was, clock(n), startedAt) && !ExpiredAt(was, clock(n))
  }

  lemma AllDueHeld(tasks: map<Id, Task>, index: map<Bytes, Id>, live: set<Id>, iter: seq<Bytes>, gone: set<Bytes>,
                   p: nat, skip: seq<Bytes>, clock: nat -> int, n: nat, startedAt: int)
    requires Agrees(tasks, index, live) && Iterates(iter, index) && p <= |iter| && Ticks(clock)
    requires Walkable(tasks, index, iter) && Scanned(tasks, index, iter, gone, p, skip, clock, n, startedAt)
    requires p < |iter| ==> tasks[index[iter[p]]].executeAfter > clock(n)
    ensures AllHeldBack(tasks, Without(tasks, live, gone), clock, n, startedAt)
  {
    var left := Without(tasks, live, gone);
    forall id | id in left && tasks[id].completedAt.None? && tasks[id].executeAfter <= clock(0)
      ensures HeldBack(tasks, left, id, clock, n, startedAt)
    {
      var h := DueIsHeld(tasks, index, iter, gone, p, clock, n, startedAt, IndexKey(tasks[id]));
      assert index[iter[h]] in left;
    }
  }

  lemma AgreesIsWalkable(tasks: map<Id, Task>, index: map<Bytes, Id>, live: set<Id>, iter: seq<Bytes>)
    requires Agrees(tasks, index, live) && Iterates(iter, index)
    ensures Walkable(tasks, index, iter)
  {
    forall i, j | 0 <= i < j < |iter| ensures iter[i] != iter[j] {
      BeforeIsStrictTotal(iter[i], iter[j]);
    }
  }

  /** Locking the task found leaves it the first of its queue among those not removed. */
  lemma LockedIsFirst(tasks: map<Id, Task>, index: map<Bytes, Id>, live: set<Id>, iter: seq<Bytes>, gone: set<Bytes>,
                      p: nat, skip: seq<Bytes>, clock: nat -> int, n: nat, startedAt: int, t: Task)
    requires Agrees(tasks, index, live) && Iterates(iter, index) && p < |iter| && t.SameOrder(tasks[index[iter[p]]])
    requires Walkable(tasks, index, iter) && Scanned(tasks, index, iter, gone, p, skip, clock, n, startedAt)
             && t.queue !in skip
    ensures FirstOfQueue(tasks[t.id := t], Without(tasks, live, gone), t)
  {
  }

  lemma RemovedWereExpired(tasks: map<Id, Task>, index: map<Bytes, Id>, live: set<Id>, iter: seq<Bytes>,
                           gone: set<Bytes>, p: nat, skip: seq<Bytes>, clock: nat -> int, n: nat, startedAt: int)
    requires Agrees(tasks, index, live) && Walkable(tasks, index, iter)
    requires Scanned(tasks, index, iter, gone, p, skip, clock, n, startedAt)
    ensures gone <= index.Keys
    ensures forall id :: id in live && IndexKey(tasks[id]) in gone ==> SeenExpired(tasks[id], clock, n, startedAt)
    ensures p < |iter| ==> index[iter[p]] in Without(tasks, live, gone)
  {
  }

  /** Finishing a task drops its entry, whoever's it had become. */
  lemma FinishedAgrees(tasks: map<Id, Task>, index: map<Bytes, Id>, live: set<Id>, t: Task)
    requires Agrees(tasks, index, live) && t.id in tasks && t.SameOrder(tasks[t.id])
    ensures Agrees(tasks[t.id := t], index - {IndexKey(t)}, live - {t.id} - Rivals(tasks, live, IndexKey(t), t.id))
  {
  }

  // ---------- one operation, seen from outside ----------

  /** The table and the tasks the index holds. */
  datatype Db = Db(tasks: map<Id, Task>, live: set<Id>)

  datatype Op =
    | Create(t: Task)
    | Complete(copy: Task, now: int)
    | Retry(copy: Task, at: int)
    | Acquire(result: Option<Task>, clock: nat -> int, n: nat)

  /** A task leaves the index when its key is taken or finished by another, or the task itself is finished. */
  ghost predicate Next(a: Db, b: Db, op: Op, startedAt: int) {
    && a.live <= a.tasks.Keys && b.live <= b.tasks.Keys
    && match op
       case Create(t) =>
         if t.id in a.tasks then b == a
         else b == Db(a.tasks[t.id := t], a.live - Rivals(a.tasks, a.live, IndexKey(t), t.id) + {t.id})
       case Complete(copy, now) =>
         if copy.completedAt.Some? || copy.id !in a.tasks then b == a
         else b == Db(a.tasks[copy.id := copy.(completedAt := Some(now), lockedTill := None)],
                      a.live - {copy.id} - Rivals(a.tasks, a.live, IndexKey(copy), copy.id))
       case Retry(copy, at) =>
         if copy.completedAt.Some? || copy.lockedTill.None? || copy.id !in a.tasks then b == a
         else b == a.(tasks := a.tasks[copy.id := copy.(lockedTill := None, reExecuteAfter := Some(at))])
       case Acquire(result, clock, n) =>
         && Ticks(clock) && b.live <= a.live
         && (forall id :: id in a.live - b.live ==> SeenExpired(a.tasks[id], clock, n, startedAt))
         && match result
            case None => b.tasks == a.tasks && AllHeldBack(b.tasks, b.live, clock, n, startedAt)
            case Some(t) =>
              && t.id in a.tasks && t.id in b.live && b.tasks == a.tasks[t.id := t]
              && HandedOut(a.tasks[t.id], t, clock, n, startedAt) && FirstOfQueue(b.tasks, b.live, t)
  }

  class TaskDb {
    const startedAt: int
    var tasks: map<Id, Task>
    var index: map<Bytes, Id>
    /** Histories: tasks completed, removed as expired, and pushed out of the index by another task
        with the same due time and queue. */
    ghost var done: set<Id>
    ghost var expired: set<Id>
    ghost var lost: set<Id>

    ghost function Live(): set<Id>
      reads this
    {
      tasks.Keys - done - expired - lost
    }

    ghost function View(): Db
      reads this
    {
      Db(tasks, Live())
    }

    ghost predicate Valid()
      reads this
    {
      Agrees(tasks, index, Live()) && done <= tasks.Keys && expired <= tasks.Keys && lost <= tasks.Keys
    }

    /** No finished task is indexed, so the check "just to be sure" in the scan never fires. */
    ghost predicate NoneFinished()
      reads this
    {
      Unfinished(tasks, Live())
    }

    constructor (startedAt: int)
      ensures Valid() && NoneFinished() && tasks == map[] && done == {} && expired == {} && lost == {}
    {
      this.startedAt := startedAt;
      tasks, index := map[], map[];
      done, expired, lost := {}, {}, {};
    }

    /** `createTask`: an id already known is left alone. The new task is live; it pushes out exactly the
        live task indexed under the same due time and queue, if there is one. */
    method CreateTask(t: Task)
      requires Valid() && t.executeAfter < Pow256(8) && t.completedAt.None?
      modifies this
      ensures Valid() && (old(NoneFinished()) ==> NoneFinished())
      ensures done == old(done) && expired == old(expired)
      ensures t.id in old(tasks) ==> unchanged(this)
      ensures Next(old(View()), View(), Create(t), startedAt)
      ensures t.id !in old(tasks) ==>
        && tasks == old(tasks)[t.id := t] && t.id in Live()
        && lost == old(lost) + Rivals(old(tasks), old(Live()), IndexKey(t), t.id)
    {
      if t.id in tasks {
        return;
      }
      AddedAgrees(tasks, index, Live(), t);
      RivalIsIndexed(tasks, index, Live(), IndexKey(t), t.id);
      var key := IndexKey(t);
      if key in index {
        lost := lost + {index[key]};
      }
      tasks := tasks[t.id := t];
      index := index[key := t.id];
      assert Live() == old(Live()) - Rivals(old(tasks), old(Live()), IndexKey(t), t.id) + {t.id};
    }

    /** `CompleteTask` on a worker's copy. The index entry deleted is the one under the copy's key; it
        belongs to another task exactly when that task had pushed this one out. */
    method CompleteTask(copy: Task, now: int) returns (r: Result<Task>)
      requires Valid() && (copy.id in tasks ==> copy.SameOrder(tasks[copy.id]))
      modifies this
      ensures Valid() && (old(NoneFinished()) ==> NoneFinished())
      ensures r.Err? <==> copy.completedAt.None? && copy.id !in old(tasks)
      ensures r.Err? || copy.completedAt.Some? ==> unchanged(this)
      ensures Next(old(View()), View(), Complete(copy, now), startedAt)
      ensures r.Ok? ==>
                r.value == if copy.completedAt.Some? then copy else copy.(completedAt := Some(now), lockedTill := None)
      ensures r.Ok? && copy.completedAt.None? ==>
        && tasks == old(tasks)[copy.id := r.value]
        && done == old(done) + {copy.id} && expired == old(expired)
        && lost == old(lost) + Rivals(old(tasks), old(Live()), IndexKey(copy), copy.id)
    {
      if copy.completedAt.Some? {
        return Ok(copy);
      }
      if copy.id !in tasks {
        return Err;
      }
      var t := copy.(completedAt := Some(now), lockedTill := None);
      var key := IndexKey(t);
      RivalIsIndexed(tasks, index, Live(), key, t.id);
      FinishedAgrees(tasks, index, Live(), t);
      if key in index && index[key] != t.id {
        lost := lost + {index[key]};
      }
      done := done + {t.id};
      tasks := tasks[t.id := t];
      index := index - {key};
      assert Live() == old(Live()) - {t.id} - Rivals(old(tasks), old(Live()), key, t.id);
      return Ok(t);
    }

    /** `RetryTask` on a worker's copy: unlocked, and blocking its queue until `at`. */
    method RetryTask(copy: Task, at: int) returns (r: Result<Task>)
      requires Valid() && (copy.id in tasks ==> copy.SameOrder(tasks[copy.id]))
      modifies this
      ensures Valid() && (old(NoneFinished()) ==> NoneFinished())
      ensures index == old(index) && done == old(done) && expired == old(expired) && lost == old(lost)
      ensures Next(old(View()), View(), Retry(copy, at), startedAt)
      ensures copy.completedAt.Some? || copy.lockedTill.None? || copy.id !in old(tasks) ==> unchanged(this)
      ensures r.Err? <==> copy.completedAt.None? && copy.lockedTill.Some? && copy.id !in old(tasks)
      ensures r.Ok? && copy.completedAt.None? && copy.lockedTill.Some? ==>
        && tasks == old(tasks)[copy.id := r.value]
        && forall now :: BlockedAt(r.value, now, startedAt) <==> now < at
    {
      if copy.completedAt.Some? || copy.lockedTill.None? {
        return Ok(copy);
      }
      if copy.id !in tasks {
        return Err;
      }
      var t := copy.(lockedTill := None, reExecuteAfter := Some(at));
      RewrittenAgrees(tasks, index, Live(), t);
      tasks := tasks[t.id := t];
      assert Live() == old(Live());
      return Ok(t);
    }

    /** `AcquireTask`. The iterator walks the index of the moment the scan starts. A task is handed out
        only if it is the first live unfinished one of its queue; none is handed out only if everything
        due is held back by a blocked task at or before it in its queue. */
    method AcquireTask(iter: seq<Bytes>, clock: nat -> int) returns (r: Option<Task>, ghost n: nat)
      requires Valid() && Iterates(iter, index) && Ticks(clock) && clock(0) >= 0
      modifies this
      ensures Valid() && (old(NoneFinished()) ==> NoneFinished())
      ensures done == old(done) && lost == old(lost) && old(expired) <= expired
      ensures Next(old(View()), View(), Acquire(r, clock, n), startedAt)
      ensures forall id :: id in expired - old(expired) ==>
        id in old(Live()) && SeenExpired(old(tasks)[id], clock, n, startedAt)
      ensures r.None? ==> tasks == old(tasks) && AllHeldBack(tasks, Live(), clock, n, startedAt)
      ensures r.Some? ==>
        && r.value.id in old(tasks) && r.value.id in Live() && tasks == old(tasks)[r.value.id := r.value]
        && HandedOut(old(tasks)[r.value.id], r.value, clock, n, startedAt)
        && FirstOfQueue(tasks, Live(), r.value)
    {
      AgreesIsWalkable(tasks, index, Live(), iter);
      var p, found, gone, skip, m := Scan(tasks, index, iter, clock, startedAt);
      n := m;
      RemovedWereExpired(tasks, index, Live(), iter, gone, p, skip, clock, n, startedAt);
      if found {
        var task := tasks[index[iter[p]]];
        var t := task.(lockedTill := Some(clock(m + 1) + LOCK_NANOS), lockedAt := Some(clock(m)));
        LockedIsFirst(tasks, index, Live(), iter, gone, p, skip, clock, n, startedAt, t);
        assert clock(m - 1) <= clock(m);
        HandOut(gone, t);
        r := Some(t);
      } else {
        AllDueHeld(tasks, index, Live(), iter, gone, p, skip, clock, n, startedAt);
        Remove(gone);
        r := None;
      }
    }

    /** Deletes index entries of expired tasks. */
    method Remove(gone: set<Bytes>)
      requires Valid() && gone <= index.Keys
      modifies this`index, this`expired
      ensures Valid() && index == old(index) - gone && Live() == Without(tasks, old(Live()), gone)
      ensures forall id :: id in expired <==> id in old(expired) || (id in old(Live()) && IndexKey(tasks[id]) in gone)
    {
      DroppedAgrees(tasks, index, Live(), gone);
      expired := expired + (set k | k in gone :: index[k]);
      index := index - gone;
      assert Live() == Without(tasks, old(Live()), gone);
    }

    /** What the scan changes when it ends with a task. */
    method HandOut(gone: set<Bytes>, t: Task)
      requires Valid() && gone <= index.Keys
      requires t.id in Without(tasks, Live(), gone) && t.SameOrder(tasks[t.id]) && t.completedAt.None?
      modifies this
      ensures Valid() && (old(NoneFinished()) ==> NoneFinished())
      ensures done == old(done) && lost == old(lost)
      ensures tasks == old(tasks)[t.id := t] && Live() == Without(old(tasks), old(Live()), gone)
      ensures forall id ::
                id in expired <==> id in old(expired) || (id in old(Live()) && IndexKey(old(tasks)[id]) in gone)
    {
      Remove(gone);
      Lock(t);
    }

    /** Stores a task with new lock fields. */
    method Lock(t: Task)
      requires Valid() && t.id in Live() && t.SameOrder(tasks[t.id])
      modifies this`tasks
      ensures Valid() && Live() == old(Live()) && tasks == old(tasks)[t.id := t]
    {
      RewrittenAgrees(tasks, index, Live(), t);
      tasks := tasks[t.id := t];
      assert Live() == old(Live());
    }
  }
}
