/** The price monitor of an incoming derivative: a fold over every second since the position was
    created, done piecewise by refresh calls. */
module Monitor {
  import opened Prelude
  import opened Payments
  import opened Derivatives

  datatype State = State(lastChecked: int, min: Option<int>, max: Option<int>,
                         crossed: bool, crossedAt: int,
                         liquidated: bool, liquidatedAt: int, liquidatedPrice: int, payout: int,
                         tooOld: bool, tooOldAt: int)

  /** What the price source answers for a second. */
  datatype Answer = Price(price: int) | Unavailable | TooNew | NoData | TooOld | Broken

  /** The monitor of a position created at second `created`. */
  function Initial(created: int): State {
    State(created - 1, None, None, false, 0, false, 0, 0, 0, false, 0)
  }

  // ---------- one sample ----------

  function LowerOf(m: Option<int>, p: int): Option<int> { if m.None? || p < m.value then Some(p) else m }

  function UpperOf(m: Option<int>, p: int): Option<int> { if m.None? || p > m.value then Some(p) else m }

  /** The order opens once the price reached the entry from the conditional's losing side. */
  predicate Reached(c: Conditional, min: Option<int>, max: Option<int>)
    requires c.Resolvable?
  {
    c.details.entry > 0 &&
    if c.details.isLong then max.Some? && max.value >= c.details.entry else min.Some? && min.value <= c.details.entry
  }

  /** `applyDerivativePriceSample`. */
  function Sampled(m: State, c: Conditional, at: int, p: int): State
    requires c.Resolvable?
  {
    var m1 := m.(min := LowerOf(m.min, p), max := UpperOf(m.max, p));
    var m2 := if !m1.crossed && Reached(c, m1.min, m1.max)
              then m1.(crossed := true, crossedAt := if m1.crossedAt == 0 then at else m1.crossedAt) else m1;
    if m2.crossed && !m2.liquidated && c.amount > 0 && Roi(c, p) >= c.amount
    then m2.(liquidated := true, liquidatedAt := at, liquidatedPrice := p, payout := c.amount) else m2
  }

  /** Without an entry price nothing ever crosses, so nothing is liquidated. */
  lemma NothingCrossesWithoutEntry(m: State, c: Conditional, at: int, p: int)
    requires c.Resolvable? && c.details.entry <= 0 && !m.crossed
    ensures Sampled(m, c, at, p) == m.(min := LowerOf(m.min, p), max := UpperOf(m.max, p))
  {
  }

  // ---------- the fold ----------

  /** Every second from `from` to `last` folded in, in order; a second without a trade only counts as checked. */
  function Folded(m: State, c: Conditional, h: int -> Answer, from: int, last: int): State
    requires c.Resolvable?
    decreases last - from
  {
    if last < from then m
    else Checked(Folded(m, c, h, from, last - 1), c, h(last), last)
  }

  /** One second of the scan. */
  function Checked(m: State, c: Conditional, a: Answer, sec: int): State
    requires c.Resolvable?
  {
    (match a case Price(p) => Sampled(m, c, sec, p) case _ => m).(lastChecked := sec)
  }

  lemma {:induction false} FoldSplits(m: State, c: Conditional, h: int -> Answer, from: int, mid: int, last: int)
    requires c.Resolvable? && from <= mid + 1 && mid <= last
    ensures Folded(Folded(m, c, h, from, mid), c, h, mid + 1, last) == Folded(m, c, h, from, last)
    decreases last - mid
  {
    if mid < last {
      FoldSplits(m, c, h, from, mid, last - 1);
    }
  }

  /** The answers a call sees: the settled history up to a horizon, too new beyond it. */
  ghost predicate SeenThrough(answers: int -> Answer, h: int -> Answer, horizon: int) {
    (forall sec :: sec <= horizon ==> answers(sec) == h(sec)) &&
    (forall sec :: sec > horizon ==> answers(sec) == TooNew || answers(sec) == NoData)
  }

  /** A history of trades: every second has a price or no trade. */
  ghost predicate Settled(h: int -> Answer) {
    forall sec :: h(sec).Price? || h(sec).Unavailable?
  }

  /** Up to `stop` the source has an answer for every second: a price, or that nothing was traded. */
  ghost predicate Runs(answers: int -> Answer, from: int, stop: int) {
    forall sec :: from <= sec < stop ==> answers(sec).Price? || answers(sec).Unavailable?
  }

  /** Where a scan ends: past the last second, or at the first answer that is neither. */
  ghost predicate StopsAt(answers: int -> Answer, from: int, now: int, stop: int) {
    && Runs(answers, from, stop) && from <= stop <= Max(now + 1, from)
    && (stop <= now ==> !answers(stop).Price? && !answers(stop).Unavailable?)
  }

  /** What a scan that stopped there stores: the seconds before it folded in. An answer that is too old is noted once
      and skips to the present; nothing is noted of one too new or missing. */
  function StoredAfter(m: State, c: Conditional, answers: int -> Answer, now: int, stop: int): State
    requires c.Resolvable?
  {
    var folded := Folded(m, c, answers, m.lastChecked + 1, stop - 1);
    if stop > now || !answers(stop).TooOld? then folded
    else folded.(lastChecked := now, tooOld := true, tooOldAt := if m.tooOld then m.tooOldAt else stop)
  }

  lemma {:induction false} FoldedAge(m: State, c: Conditional, h: int -> Answer, from: int, last: int)
    requires c.Resolvable?
    ensures Folded(m, c, h, from, last).tooOld == m.tooOld && Folded(m, c, h, from, last).tooOldAt == m.tooOldAt
    decreases last - from
  {
    if last >= from {
      FoldedAge(m, c, h, from, last - 1);
    }
  }

  lemma {:induction false} FoldedSame(m: State, c: Conditional, g: int -> Answer, h: int -> Answer, from: int,
                                      last: int)
    requires c.Resolvable? && forall sec :: from <= sec <= last ==> g(sec) == h(sec)
    ensures Folded(m, c, g, from, last) == Folded(m, c, h, from, last)
    decreases last - from
  {
    if last >= from {
      FoldedSame(m, c, g, h, from, last - 1);
    }
  }

  /** With a settled history a scan stops right after the horizon or the present, whichever is first. */
  lemma SettledStop(answers: int -> Answer, h: int -> Answer, horizon: int, from: int, now: int, stop: int)
    requires SeenThrough(answers, h, horizon) && Settled(h) && StopsAt(answers, from, now, stop)
    ensures stop == Max(Min(horizon, now) + 1, from)
    ensures stop <= now ==> answers(stop).TooNew? || answers(stop).NoData?
    ensures forall sec :: from <= sec < stop ==> answers(sec) == h(sec)
  {
    assert stop <= now ==> stop > horizon;
    assert stop > from ==> answers(stop - 1).Price? || answers(stop - 1).Unavailable?;
  }

  /** So it folds in exactly what there is up to there. */
  lemma SettledScan(m: State, c: Conditional, answers: int -> Answer, h: int -> Answer, horizon: int, now: int,
                    stop: int)
    requires c.Resolvable? && SeenThrough(answers, h, horizon) && Settled(h)
    requires StopsAt(answers, m.lastChecked + 1, now, stop)
    ensures !(stop <= now && answers(stop).Broken?)
    ensures StoredAfter(m, c, answers, now, stop) == Folded(m, c, h, m.lastChecked + 1, Min(horizon, now))
  {
    var from := m.lastChecked + 1;
    SettledStop(answers, h, horizon, from, now, stop);
    FoldedSame(m, c, answers, h, from, stop - 1);
  }

  /** A scan that has come to `sec`. */
  ghost predicate Walking(m0: State, m: State, last: int, found: bool, c: Conditional, answers: int -> Answer, sec: int)
    requires c.Resolvable?
  {
    && m0.lastChecked < sec && last == sec - 1 && m.lastChecked == m0.lastChecked
    && Runs(answers, m0.lastChecked + 1, sec)
    && m.(lastChecked := last) == Folded(m0, c, answers, m0.lastChecked + 1, last)
    && (found <==> !m0.liquidated && m.liquidated) && (m0.liquidated ==> m.liquidated)
  }

  /** A scan that has ended at `stop`, with a source that did not break. */
  ghost predicate Ended(m0: State, m: State, last: int, found: bool, c: Conditional, answers: int -> Answer, now: int,
                        stop: int)
    requires c.Resolvable?
  {
    && StopsAt(answers, m0.lastChecked + 1, now, stop) && !(stop <= now && answers(stop).Broken?)
    && m.lastChecked == m0.lastChecked <= last && m.(lastChecked := last) == StoredAfter(m0, c, answers, now, stop)
    && (found <==> !m0.liquidated && m.liquidated)
  }

  lemma WalksOn(m0: State, m: State, last: int, found: bool, c: Conditional, answers: int -> Answer, sec: int)
    requires c.Resolvable? && Walking(m0, m, last, found, c, answers, sec)
    ensures answers(sec).Unavailable? ==> Walking(m0, m, sec, found, c, answers, sec + 1)
    ensures answers(sec).Price? ==>
      var next := Sampled(m, c, sec, answers(sec).price);
      Walking(m0, next, sec, found || (!m.liquidated && next.liquidated), c, answers, sec + 1)
  {
    var from := m0.lastChecked + 1;
    assert Folded(m0, c, answers, from, sec) == Checked(Folded(m0, c, answers, from, sec - 1), c, answers(sec), sec);
  }

  lemma WalkEnds(m0: State, m: State, last: int, found: bool, c: Conditional, answers: int -> Answer, now: int,
                 stop: int)
    requires c.Resolvable? && Walking(m0, m, last, found, c, answers, stop)
    requires if stop <= now then answers(stop).TooNew? || answers(stop).NoData?
             else stop == Max(now + 1, m0.lastChecked + 1)
    ensures Ended(m0, m, last, found, c, answers, now, stop)
  {
  }

  lemma WalkAges(m0: State, m: State, last: int, found: bool, c: Conditional, answers: int -> Answer, now: int,
                 stop: int)
    requires c.Resolvable? && Walking(m0, m, last, found, c, answers, stop) && stop <= now && answers(stop).TooOld?
    ensures Ended(m0, if m.tooOld then m else m.(tooOld := true, tooOldAt := stop), now, found, c, answers, now, stop)
  {
    FoldedAge(m0, c, answers, m0.lastChecked + 1, stop - 1);
  }

  /** The loop of `refreshIncomingDerivativeMeta`: the monitor after it, whether it found a liquidation, whether the
      source broke, and where it stopped. */
  method ScanSeconds(m0: State, c: Conditional, answers: int -> Answer, from: int, now: int)
    returns (m: State, found: bool, broken: bool, ghost stop: int)
    requires c.Resolvable? && from == m0.lastChecked + 1
    ensures StopsAt(answers, from, now, stop)
    ensures broken <==> stop <= now && answers(stop).Broken?
    ensures !broken ==> m == StoredAfter(m0, c, answers, now, stop)
    ensures !broken ==> (found <==> !m0.liquidated && m.liquidated)
  {
    m, found, broken, stop := m0, false, false, from;
    var lastChecked, sec := m0.lastChecked, from;
    if from > now {
      WalkEnds(m0, m, lastChecked, found, c, answers, now, from);
    }
    while sec <= now
      invariant !broken && from <= sec
      invariant sec <= now ==> stop == sec && Walking(m0, m, lastChecked, found, c, answers, sec)
      invariant sec > now ==> Ended(m0, m, lastChecked, found, c, answers, now, stop)
      decreases now - sec
    {
      WalksOn(m0, m, lastChecked, found, c, answers, sec);
      match answers(sec)
      case TooNew =>
        WalkEnds(m0, m, lastChecked, found, c, answers, now, sec);
        sec := now + 1;
      case NoData =>
        WalkEnds(m0, m, lastChecked, found, c, answers, now, sec);
        sec := now + 1;
      case TooOld =>
        WalkAges(m0, m, lastChecked, found, c, answers, now, sec);
        if !m.tooOld {
          m := m.(tooOld := true, tooOldAt := sec);
        }
        lastChecked := now;
        sec := now + 1;
      case Broken =>
        broken := true;
        return;
      case Unavailable =>
        lastChecked := sec;
        sec := sec + 1;
        stop := sec;
        if sec > now {
          WalkEnds(m0, m, lastChecked, found, c, answers, now, sec);
        }
      case Price(p) =>
        var next := Sampled(m, c, sec, p);
        if !m.liquidated && next.liquidated {
          found := true;
        }
        m := next;
        lastChecked := sec;
        sec := sec + 1;
        stop := sec;
        if sec > now {
          WalkEnds(m0, m, lastChecked, found, c, answers, now, sec);
        }
    }
    if lastChecked > m.lastChecked {
      m := m.(lastChecked := lastChecked);
    }
  }

  // ---------- the object ----------

  class DerivativeMonitor {
    const cond: Conditional
    const created: int
    var stored: State

    ghost predicate Valid()
      reads this
    {
      cond.Resolvable? && stored.lastChecked >= created - 1
    }

    constructor (c: Conditional, created: int)
      requires c.Resolvable?
      ensures Valid() && cond == c && this.created == created && stored == Initial(created)
    {
      cond, this.created := c, created;
      stored := Initial(created);
    }

    /** `refreshIncomingDerivativeMeta`: scan from the last checked second to now, stop at the first
        second the source does not have yet, and store what changed. With settled answers up to a
        horizon the stored monitor becomes the fold up to it, and liquidation is reported exactly
        by the call that finds it. A broken source is an error, and then nothing is stored. */
    method Refresh(answers: int -> Answer, now: int, ghost h: int -> Answer, ghost horizon: int)
      returns (r: Result<bool>, ghost stop: int)
      requires Valid()
      modifies this
      ensures Valid()
      ensures StopsAt(answers, old(stored).lastChecked + 1, now, stop)
      ensures r.Err? <==> stop <= now && answers(stop).Broken?
      ensures r.Err? ==> stored == old(stored)
      ensures r.Ok? ==> stored == StoredAfter(old(stored), cond, answers, now, stop)
      ensures r.Ok? ==> (r.value <==> !old(stored).liquidated && stored.liquidated)
      ensures SeenThrough(answers, h, horizon) && Settled(h) ==>
                && r.Ok?
                && stored == Folded(old(stored), cond, h, old(stored).lastChecked + 1, Min(horizon, now))
                && (r.value <==> !old(stored).liquidated && stored.liquidated)
    {
      var from := stored.lastChecked + 1;
      if from < created {
        from := created;
      }
      var m, found, broken, at := ScanSeconds(stored, cond, answers, from, now);
      stop := at;
      if SeenThrough(answers, h, horizon) && Settled(h) {
        SettledScan(stored, cond, answers, h, horizon, now, stop);
      }
      if broken {
        return Err, stop;
      }
      stored := m;
      return Ok(found), stop;
    }
  }

  // ---------- any number of refresh calls ----------

  /** One refresh: the time of the call and the last second the source can answer. */
  datatype Refresh = Refresh(now: int, horizon: int) {
    function Reach(): int { Min(horizon, now) }
  }

  function AfterCall(m: State, c: Conditional, h: int -> Answer, r: Refresh): State
    requires c.Resolvable?
  {
    Folded(m, c, h, m.lastChecked + 1, r.Reach())
  }

  function AfterCalls(m: State, c: Conditional, h: int -> Answer, calls: seq<Refresh>): State
    requires c.Resolvable?
    decreases |calls|
  {
    if calls == [] then m else AfterCalls(AfterCall(m, c, h, calls[0]), c, h, calls[1..])
  }

  /** How many of the calls report a liquidation. */
  function Reports(m: State, c: Conditional, h: int -> Answer, calls: seq<Refresh>): nat
    requires c.Resolvable?
    decreases |calls|
  {
    if calls == [] then 0
    else
      var next := AfterCall(m, c, h, calls[0]);
      (if !m.liquidated && next.liquidated then 1 else 0) + Reports(next, c, h, calls[1..])
  }

  function Furthest(start: int, calls: seq<Refresh>): (r: int)
    ensures r >= start
    decreases |calls|
  {
    if calls == [] then start else Furthest(Max(start, calls[0].Reach()), calls[1..])
  }

  lemma {:induction false} FoldedChecked(m: State, c: Conditional, h: int -> Answer, from: int, last: int)
    requires c.Resolvable?
    ensures Folded(m, c, h, from, last).lastChecked == if last < from then m.lastChecked else last
    ensures m.liquidated ==> Folded(m, c, h, from, last).liquidated
    decreases last - from
  {
    if last >= from {
      FoldedChecked(m, c, h, from, last - 1);
    }
  }

  /** However a history is split over refresh calls, the monitor is the fold up to the furthest second
      any of them reached, and liquidation is reported by exactly one call if it happened at all. */
  lemma {:induction false} SplitsDoNotMatter(m: State, c: Conditional, h: int -> Answer, from: int, last: int,
                                             calls: seq<Refresh>)
    requires c.Resolvable? && !m.liquidated && m.lastChecked == from - 1 && last >= from - 1
    ensures
      var now := Folded(m, c, h, from, last);
      && AfterCalls(now, c, h, calls) == Folded(m, c, h, from, Furthest(last, calls))
      && Reports(now, c, h, calls) ==
           if !now.liquidated && Folded(m, c, h, from, Furthest(last, calls)).liquidated then 1 else 0
    decreases |calls|
  {
    FoldedChecked(m, c, h, from, last);
    if calls != [] {
      var now, r := Folded(m, c, h, from, last), calls[0].Reach();
      var mid := Max(last, r);
      if r > last {
        FoldSplits(m, c, h, from, last, r);
      }
      assert AfterCall(now, c, h, calls[0]) == Folded(m, c, h, from, mid);
      SplitsDoNotMatter(m, c, h, from, mid, calls[1..]);
      FoldedGrows(m, c, h, from, last, mid);
      FoldedGrows(m, c, h, from, mid, Furthest(mid, calls[1..]));
    }
  }

  lemma FoldedGrows(m: State, c: Conditional, h: int -> Answer, from: int, mid: int, last: int)
    requires c.Resolvable? && from - 1 <= mid <= last
    ensures Folded(m, c, h, from, mid).liquidated ==> Folded(m, c, h, from, last).liquidated
  {
    FoldSplits(m, c, h, from, mid, last);
    FoldedChecked(Folded(m, c, h, from, mid), c, h, mid + 1, last);
  }

  // ---------- what the fold means ----------

  /** The price traded at a second within the window, if any. */
  predicate Traded(h: int -> Answer, from: int, last: int, sec: int) {
    from <= sec <= last && h(sec).Price?
  }

  predicate CrossesAt(c: Conditional, p: int)
    requires c.Resolvable?
  {
    if c.details.isLong then p >= c.details.entry else p <= c.details.entry
  }

  ghost predicate ExactRange(m: State, h: int -> Answer, from: int, last: int) {
    && (m.min.None? <==> forall sec :: !Traded(h, from, last, sec))
    && (m.max.None? <==> m.min.None?)
    && (m.min.Some? ==>
          && (forall sec :: Traded(h, from, last, sec) ==> m.min.value <= h(sec).price <= m.max.value)
          && (exists sec :: Traded(h, from, last, sec) && h(sec).price == m.min.value)
          && (exists sec :: Traded(h, from, last, sec) && h(sec).price == m.max.value))
  }

  /** `at` is the first traded second whose price satisfies the condition; false means there is none. */
  ghost predicate First(found: bool, at: int, h: int -> Answer, from: int, last: int, cond: int -> bool) {
    if found then Traded(h, from, last, at) && cond(h(at).price)
                  && (forall sec :: Traded(h, from, last, sec) && sec < at ==> !cond(h(sec).price))
    else forall sec :: Traded(h, from, last, sec) ==> !cond(h(sec).price)
  }

  ghost predicate Exact(m: State, c: Conditional, h: int -> Answer, from: int, last: int)
    requires Position(c)
  {
    && ExactRange(m, h, from, last)
    && First(m.crossed, m.crossedAt, h, from, last, p => CrossesAt(c, p))
    && First(m.liquidated, m.liquidatedAt, h, from, last, p => Roi(c, p) >= c.amount)
    && (m.liquidated ==> m.crossed && m.crossedAt <= m.liquidatedAt
                         && m.liquidatedPrice == h(m.liquidatedAt).price && m.payout == c.amount)
    && (!m.crossed ==> m.crossedAt == 0)
  }

  predicate Blank(m: State, last: int) {
    && m.lastChecked == last && !m.tooOld && m.tooOldAt == 0
    && (!m.liquidated ==> m.liquidatedAt == 0 && m.liquidatedPrice == 0 && m.payout == 0)
  }

  lemma RangeStep(m: State, m': State, h: int -> Answer, from: int, sec: int)
    requires ExactRange(m, h, from, sec - 1) && from <= sec
    requires m'.min == if h(sec).Price? then LowerOf(m.min, h(sec).price) else m.min
    requires m'.max == if h(sec).Price? then UpperOf(m.max, h(sec).price) else m.max
    ensures ExactRange(m', h, from, sec)
  {
    assert forall s :: Traded(h, from, sec, s) <==> Traded(h, from, sec - 1, s) || (s == sec && h(sec).Price?);
    if h(sec).Price? {
      assert Traded(h, from, sec, sec);
    }
    if m.min.Some? {
      var a :| Traded(h, from, sec - 1, a) && h(a).price == m.min.value;
      var b :| Traded(h, from, sec - 1, b) && h(b).price == m.max.value;
      assert Traded(h, from, sec, a) && Traded(h, from, sec, b);
    }
  }

  lemma FirstStep(found: bool, at: int, h: int -> Answer, from: int, sec: int, cond: int -> bool)
    requires First(found, at, h, from, sec - 1, cond) && from <= sec
    ensures found ==> First(true, at, h, from, sec, cond)
    ensures !found && h(sec).Price? && cond(h(sec).price) ==> First(true, sec, h, from, sec, cond)
    ensures !found && !(h(sec).Price? && cond(h(sec).price)) ==> First(false, at, h, from, sec, cond)
  {
  }

  /** A price that liquidates has crossed the entry. */
  lemma LiquidatingCrosses(c: Conditional, p: int)
    requires Position(c) && Roi(c, p) >= c.amount
    ensures CrossesAt(c, p)
  {
  }

  /** The first time the running extremes reach the entry is the sample that does. */
  lemma ReachedByThisSample(m: State, c: Conditional, h: int -> Answer, from: int, sec: int)
    requires Position(c) && Exact(m, c, h, from, sec - 1) && !m.crossed && h(sec).Price?
    ensures Reached(c, LowerOf(m.min, h(sec).price), UpperOf(m.max, h(sec).price)) <==> CrossesAt(c, h(sec).price)
  {
  }

  lemma CrossedStep(m: State, c: Conditional, h: int -> Answer, from: int, sec: int)
    requires Position(c) && Exact(m, c, h, from, sec - 1) && 1 <= from <= sec
    ensures
      var m' := Checked(m, c, h(sec), sec);
      && First(m'.crossed, m'.crossedAt, h, from, sec, p => CrossesAt(c, p))
      && (!m'.crossed ==> m'.crossedAt == 0) && (m.crossed ==> m'.crossed && m'.crossedAt == m.crossedAt)
  {
    FirstStep(m.crossed, m.crossedAt, h, from, sec, p => CrossesAt(c, p));
    if h(sec).Price? && !m.crossed {
      ReachedByThisSample(m, c, h, from, sec);
    }
  }

  lemma LiquidatedStep(m: State, c: Conditional, h: int -> Answer, from: int, sec: int)
    requires Position(c) && Exact(m, c, h, from, sec - 1) && 1 <= from <= sec
    ensures
      var m' := Checked(m, c, h(sec), sec);
      && First(m'.liquidated, m'.liquidatedAt, h, from, sec, p => Roi(c, p) >= c.amount)
      && (m'.liquidated && !m.liquidated ==>
            m'.crossed && m'.liquidatedAt == sec && h(sec).Price? && m'.liquidatedPrice == h(sec).price
              && m'.payout == c.amount)
      && (m.liquidated ==> m'.liquidated && m'.liquidatedAt == m.liquidatedAt
                           && m'.liquidatedPrice == m.liquidatedPrice && m'.payout == m.payout)
  {
    FirstStep(m.liquidated, m.liquidatedAt, h, from, sec, p => Roi(c, p) >= c.amount);
    if h(sec).Price? && Roi(c, h(sec).price) >= c.amount {
      LiquidatingCrosses(c, h(sec).price);
      if !m.crossed {
        ReachedByThisSample(m, c, h, from, sec);
      }
    }
  }

  lemma ExactStep(m: State, m': State, c: Conditional, h: int -> Answer, from: int, sec: int)
    requires Position(c) && Exact(m, c, h, from, sec - 1) && 1 <= from <= sec && m' == Checked(m, c, h(sec), sec)
    ensures Exact(m', c, h, from, sec)
  {
    RangeStep(m, m', h, from, sec);
    CrossedStep(m, c, h, from, sec);
    LiquidatedStep(m, c, h, from, sec);
  }

  lemma {:induction false} StaysBlank(c: Conditional, h: int -> Answer, created: int, last: int)
    requires c.Resolvable? && Settled(h) && last >= created - 1
    ensures Blank(Folded(Initial(created), c, h, created, last), last)
    decreases last - created
  {
    if last >= created {
      StaysBlank(c, h, created, last - 1);
    }
  }

  /** The monitor of a position is exact at every moment: checked up to then and not further, the true minimum and
      maximum, the first crossing of the entry, and the first sample that liquidates, never before the crossing; what
      has not happened is blank. */
  lemma {:induction false} MonitorIsExact(c: Conditional, h: int -> Answer, created: int, last: int)
    requires Position(c) && Settled(h) && created >= 1 && last >= created - 1
    ensures Exact(Folded(Initial(created), c, h, created, last), c, h, created, last)
    ensures Blank(Folded(Initial(created), c, h, created, last), last)
    decreases last - created
  {
    StaysBlank(c, h, created, last);
    if last >= created {
      MonitorIsExact(c, h, created, last - 1);
      ExactStep(Folded(Initial(created), c, h, created, last - 1), Folded(Initial(created), c, h, created, last),
                c, h, created, last);
    }
  }

  // ---------- has the order opened ----------

  /** `derivativeCanonicalIsLong`: the linked side keeps the inverted direction. */
  function CanonicalIsLong(c: Conditional, linked: Option<Key>): bool
    requires c.Resolvable?
  {
    if linked.Some? && c.key == LinkedTo(linked.value) then !c.details.isLong else c.details.isLong
  }

  /** `derivativeOrderOpenedFromMonitor`. */
  function OrderOpened(c: Conditional, linked: Option<Key>, m: State): bool
    requires c.Resolvable?
  {
    if c.details.entry <= 0 then m.crossed
    else if CanonicalIsLong(c, linked) && m.min.Some? then m.min.value <= c.details.entry
    else if !CanonicalIsLong(c, linked) && m.max.Some? then m.max.value >= c.details.entry
    else m.tooOld || m.crossed
  }

  /** Before any sample, or without an entry price, there is only the monitor's own word, and a history too old to tell
      counts as opened. */
  lemma OpenedWithoutSamples(c: Conditional, linked: Option<Key>, m: State)
    requires c.Resolvable? && m.min.None? && m.max.None?
    ensures OrderOpened(c, linked, m) <==> m.crossed || (c.details.entry > 0 && m.tooOld)
  {
  }

  lemma OpenedWithoutEntry(c: Conditional, linked: Option<Key>, m: State)
    requires c.Resolvable? && c.details.entry <= 0
    ensures OrderOpened(c, linked, m) <==> m.crossed
  {
  }

  lemma CrossedExactly(m: State, c: Conditional, h: int -> Answer, from: int, last: int)
    requires Position(c) && Exact(m, c, h, from, last) && m.min.Some?
    ensures m.crossed <==> Reached(c, m.min, m.max)
  {
  }

  /** On the initiator's linked incoming side, once there is a sample, "the order opened" is "the entry
      was crossed". On the other side, whose key is not a linked one, they agree exactly when the
      prices lie on both sides of the entry. */
  lemma OpenedIsCrossed(c: Conditional, linked: Key, h: int -> Answer, created: int, last: int)
    requires Position(c) && Settled(h) && created >= 1 && last >= created - 1
    requires exists sec :: Traded(h, created, last, sec)
    ensures
      var m := Folded(Initial(created), c, h, created, last);
      && m.min.Some? && m.max.Some?
      && (c.key == LinkedTo(linked) ==> (OrderOpened(c, Some(linked), m) <==> m.crossed))
      && (c.key != LinkedTo(linked) ==>
            ((OrderOpened(c, Some(linked), m) <==> m.crossed) <==> m.min.value <= c.details.entry <= m.max.value))
  {
    MonitorIsExact(c, h, created, last);
    var m := Folded(Initial(created), c, h, created, last);
    CrossedExactly(m, c, h, created, last);
    var a :| Traded(h, created, last, a) && h(a).price == m.min.value;
    assert m.min.value <= m.max.value;
  }

  /** For instance, a long position entered at 10 that has only traded at 20, on the side that is not linked: crossed,
      yet not opened. */
  lemma CrossedButNotOpened(c: Conditional, linked: Key, h: int -> Answer)
    requires Position(c) && c.details.isLong && c.details.entry == 10 && c.key != LinkedTo(linked)
    requires forall sec :: h(sec) == Price(20)
    ensures
      var m := Folded(Initial(1), c, h, 1, 1);
      m.crossed && !OrderOpened(c, Some(linked), m)
  {
    assert Folded(Initial(1), c, h, 1, 0) == Initial(1);
  }
}
