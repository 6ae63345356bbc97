/** Settling conditionals on chain: the loop that splits them into signed messages, each proved
    against the dictionaries the previous one leaves behind. */
module Settlement {
  import opened Prelude
  import opened Payments
  import opened Channel

  const PER_MESSAGE := 30

  /** One entry of the counterparty's conditionals. There is no resolve when the entry is already executed,
      cannot be parsed, or nothing is known to settle it with. A sender must deliver the message itself. */
  datatype Item = Item(id: Conditional, cond: Conditional, resolve: Option<Resolve>, sender: Option<nat>)

  /** A dictionary whose executed entries are emptied, not removed. */
  type Entries = map<Conditional, Option<Conditional>>

  datatype Msg = Msg(tag: Option<nat>, items: seq<Item>, condRoot: Entries, actRoot: ActDict)

  function NeedOf(it: Item): int {
    if it.resolve.Some? && Need(it.cond, it.resolve.value).Ok? then Need(it.cond, it.resolve.value).value else 0
  }

  /** The entry can be executed: its action is in the dictionary and the resolve is for it. */
  predicate Settles(it: Item, acts: set<SendAction>) {
    it.resolve.Some? && it.cond.action in acts && Need(it.cond, it.resolve.value).Ok?
  }

  // ---------- the loop, as a fold ----------

  /** Dictionaries proved by the message being built, the same with its entries executed, and the messages out. */
  datatype Loop = Loop(conds: Entries, acts: ActDict, newConds: Entries, newActs: ActDict,
                       tag: Option<nat>, items: seq<Item>, sent: seq<Msg>)

  function Flushed(l: Loop): Loop {
    if l.items == [] then l
    else Loop(l.newConds, l.newActs, l.newConds, l.newActs, None, [], l.sent + [Msg(l.tag, l.items, l.conds, l.acts)])
  }

  /** The entry joins the message; its action state is executed as the proved dictionary has it. */
  function Joined(l: Loop, it: Item): Loop
    requires it.cond.action in l.acts
  {
    l.(items := l.items + [it], newConds := l.newConds[it.id := None],
       newActs := l.newActs[it.cond.action := AddCoins(l.acts[it.cond.action], NeedOf(it))])
  }

  function Opened(l: Loop, it: Item): Loop {
    if it.sender.Some? then Flushed(l).(tag := it.sender) else l
  }

  function Turn(l: Loop, it: Item): Loop {
    if it.resolve.None? then l
    else if !Settles(it, Opened(l, it).acts.Keys) then Opened(l, it)
    else
      var j := Joined(Opened(l, it), it);
      if it.sender.Some? || |j.items| == PER_MESSAGE then Flushed(j) else j
  }

  function Begin(conds: Entries, acts: ActDict): Loop { Loop(conds, acts, conds, acts, None, [], []) }

  function RunLoop(conds: Entries, acts: ActDict, all: seq<Item>): Loop
    decreases |all|
  {
    if all == [] then Begin(conds, acts) else Turn(RunLoop(conds, acts, all[..|all| - 1]), all[|all| - 1])
  }

  /** `settleChannelConditionals`: the messages, and the action dictionary expected after them. */
  method SettleChannelConditionals(conds: Entries, acts: ActDict, all: seq<Item>)
    returns (messages: seq<Msg>, expected: ActDict)
    ensures
      var l := Flushed(RunLoop(conds, acts, all));
      messages == l.sent && expected == l.newActs
  {
    var baseConds, baseActs, updatedConds, updatedActs := conds, acts, conds, acts;
    var tag: Option<nat>, items: seq<Item> := None, [];
    messages := [];
    var i := 0;
    while i < |all|
      invariant 0 <= i <= |all|
      invariant Loop(baseConds, baseActs, updatedConds, updatedActs, tag, items, messages)
                == RunLoop(conds, acts, all[..i])
    {
      var it := all[i];
      assert all[..i + 1][..i] == all[..i];
      i := i + 1;
      if it.resolve.None? {
        continue;
      }
      if it.sender.Some? && |items| > 0 {
        messages := messages + [Msg(tag, items, baseConds, baseActs)];
        baseConds, baseActs, tag, items := updatedConds, updatedActs, None, [];
      }
      if it.sender.Some? {
        tag := it.sender;
      }
      if it.cond.action !in baseActs {
        continue;
      }
      var done := Execute(it.cond, baseActs[it.cond.action], it.resolve.value, map[]);
      if done.Err? {
        continue;
      }
      items := items + [it];
      updatedConds := updatedConds[it.id := None];
      updatedActs := updatedActs[it.cond.action := done.value.0];
      if it.sender.Some? || |items| == PER_MESSAGE {
        messages := messages + [Msg(tag, items, baseConds, baseActs)];
        baseConds, baseActs, tag, items := updatedConds, updatedActs, None, [];
      }
    }
    assert all[..i] == all;
    if |items| > 0 {
      messages := messages + [Msg(tag, items, baseConds, baseActs)];
    }
    expected := updatedActs;
  }

  // ---------- what the messages say ----------

  function Flatten(ms: seq<Msg>): seq<Item>
    decreases |ms|
  {
    if ms == [] then [] else Flatten(ms[..|ms| - 1]) + ms[|ms| - 1].items
  }

  function Settled(all: seq<Item>, acts: set<SendAction>): seq<Item>
    decreases |all|
  {
    if all == [] then []
    else
      var front, it := Settled(all[..|all| - 1], acts), all[|all| - 1];
      if Settles(it, acts) then front + [it] else front
  }

  function Emptied(conds: Entries, items: seq<Item>): Entries
    decreases |items|
  {
    if items == [] then conds else Emptied(conds, items[..|items| - 1])[items[|items| - 1].id := None]
  }

  predicate AllIn(items: seq<Item>, acts: set<SendAction>) {
    forall i :: 0 <= i < |items| ==> items[i].cond.action in acts
  }

  /** Every item executed on the dictionary as the message found it: the last one on an action wins. */
  function Applied(acts: ActDict, items: seq<Item>): (r: ActDict)
    requires AllIn(items, acts.Keys)
    ensures r.Keys == acts.Keys
    decreases |items|
  {
    if items == [] then acts
    else
      var it := items[|items| - 1];
      Applied(acts, items[..|items| - 1])[it.cond.action := AddCoins(acts[it.cond.action], NeedOf(it))]
  }

  /** Every item executed on what the previous one left, as the contract does. */
  function Sequential(acts: ActDict, items: seq<Item>): (r: ActDict)
    requires AllIn(items, acts.Keys)
    ensures r.Keys == acts.Keys
    decreases |items|
  {
    if items == [] then acts
    else
      var it := items[|items| - 1];
      var s := Sequential(acts, items[..|items| - 1]);
      s[it.cond.action := AddCoins(s[it.cond.action], NeedOf(it))]
  }

  predicate NoSenders(items: seq<Item>) {
    forall i :: 0 <= i < |items| ==> items[i].sender.None?
  }

  /** One to thirty entries, and an entry with a sender is alone. */
  predicate WellSized(m: Msg) {
    1 <= |m.items| <= PER_MESSAGE && (NoSenders(m.items) || |m.items| == 1)
  }

  /** Message `i` proves the dictionaries all earlier messages leave. */
  predicate Chained(ms: seq<Msg>, conds: Entries, acts: ActDict, endConds: Entries, endActs: ActDict)
    decreases |ms|
  {
    if ms == [] then conds == endConds && acts == endActs
    else
      var m := ms[|ms| - 1];
      && AllIn(m.items, m.actRoot.Keys)
      && endConds == Emptied(m.condRoot, m.items) && endActs == Applied(m.actRoot, m.items)
      && Chained(ms[..|ms| - 1], conds, acts, m.condRoot, m.actRoot)
  }

  predicate AllWellSized(ms: seq<Msg>) {
    forall i :: 0 <= i < |ms| ==> WellSized(ms[i])
  }

  /** The loop's invariant once the entries `done` are settled; a message about to go out may be full. */
  ghost predicate LoopHolds(l: Loop, conds: Entries, acts: ActDict, done: seq<Item>) {
    && Flatten(l.sent) + l.items == done && AllWellSized(l.sent)
    && l.acts.Keys == acts.Keys && AllIn(l.items, acts.Keys)
    && Chained(l.sent, conds, acts, l.conds, l.acts)
    && l.newConds == Emptied(l.conds, l.items) && l.newActs == Applied(l.acts, l.items)
  }

  ghost predicate LoopOk(l: Loop, conds: Entries, acts: ActDict, done: seq<Item>) {
    LoopHolds(l, conds, acts, done) && |l.items| < PER_MESSAGE && NoSenders(l.items)
  }

  lemma MessageAppended(ms: seq<Msg>, m: Msg, conds: Entries, acts: ActDict)
    requires Chained(ms, conds, acts, m.condRoot, m.actRoot) && AllIn(m.items, m.actRoot.Keys)
    ensures Flatten(ms + [m]) == Flatten(ms) + m.items
    ensures Chained(ms + [m], conds, acts, Emptied(m.condRoot, m.items), Applied(m.actRoot, m.items))
  {
  }

  lemma FlushKeeps(l: Loop, conds: Entries, acts: ActDict, done: seq<Item>)
    requires LoopHolds(l, conds, acts, done) && |l.items| <= PER_MESSAGE && (NoSenders(l.items) || |l.items| == 1)
    ensures LoopOk(Flushed(l), conds, acts, done)
  {
    if l.items != [] {
      var m := Msg(l.tag, l.items, l.conds, l.acts);
      MessageAppended(l.sent, m, conds, acts);
      assert WellSized(m);
    }
  }

  lemma JoinKeeps(l: Loop, it: Item, conds: Entries, acts: ActDict, done: seq<Item>)
    requires LoopHolds(l, conds, acts, done) && it.cond.action in acts
    ensures LoopHolds(Joined(l, it), conds, acts, done + [it])
  {
  }

  lemma AddKeeps(l: Loop, it: Item, conds: Entries, acts: ActDict, done: seq<Item>)
    requires LoopOk(l, conds, acts, done) && it.cond.action in acts && (it.sender.Some? ==> l.items == [])
    ensures
      var j := Joined(l, it);
      LoopOk(if it.sender.Some? || |j.items| == PER_MESSAGE then Flushed(j) else j, conds, acts, done + [it])
  {
    JoinKeeps(l, it, conds, acts, done);
    var j := Joined(l, it);
    if it.sender.Some? || |j.items| == PER_MESSAGE {
      FlushKeeps(j, conds, acts, done + [it]);
    }
  }

  lemma OpenKeeps(l: Loop, it: Item, conds: Entries, acts: ActDict, done: seq<Item>)
    requires LoopOk(l, conds, acts, done)
    ensures LoopOk(Opened(l, it), conds, acts, done) && Opened(l, it).acts.Keys == acts.Keys
    ensures it.sender.Some? ==> Opened(l, it).items == []
  {
    if it.sender.Some? {
      FlushKeeps(l, conds, acts, done);
    }
  }

  lemma TurnKeeps(l: Loop, it: Item, conds: Entries, acts: ActDict, done: seq<Item>)
    requires LoopOk(l, conds, acts, done)
    ensures LoopOk(Turn(l, it), conds, acts, if Settles(it, acts.Keys) then done + [it] else done)
  {
    if it.resolve.None? {
      return;
    }
    OpenKeeps(l, it, conds, acts, done);
    if Settles(it, acts.Keys) {
      AddKeeps(Opened(l, it), it, conds, acts, done);
    }
  }

  lemma {:induction false} LoopIsOk(conds: Entries, acts: ActDict, all: seq<Item>)
    ensures LoopOk(RunLoop(conds, acts, all), conds, acts, Settled(all, acts.Keys))
    decreases |all|
  {
    if all != [] {
      var front := all[..|all| - 1];
      LoopIsOk(conds, acts, front);
      TurnKeeps(RunLoop(conds, acts, front), all[|all| - 1], conds, acts, Settled(front, acts.Keys));
    }
  }

  /** The messages hold the entries that can be executed, each once and in order; every message has
      one to thirty of them, an entry with a sender alone; and each proves what the ones before it leave. */
  lemma MessagesCoverEverything(conds: Entries, acts: ActDict, all: seq<Item>)
    ensures
      var l := Flushed(RunLoop(conds, acts, all));
      && Flatten(l.sent) == Settled(all, acts.Keys)
      && AllWellSized(l.sent)
      && Chained(l.sent, conds, acts, l.newConds, l.newActs)
  {
    LoopIsOk(conds, acts, all);
    FlushKeeps(RunLoop(conds, acts, all), conds, acts, Settled(all, acts.Keys));
    var l := Flushed(RunLoop(conds, acts, all));
    assert Flatten(l.sent) + [] == Flatten(l.sent);
  }

  // ---------- the expected action dictionary ----------

  /** What the entries on one action cost together. */
  function Total(items: seq<Item>, a: SendAction): int
    decreases |items|
  {
    if items == [] then 0
    else
      var it := items[|items| - 1];
      Total(items[..|items| - 1], a) + (if it.cond.action == a then NeedOf(it) else 0)
  }

  /** The part of it overwritten by a later entry of the same message. */
  function Missed(items: seq<Item>, a: SendAction): int
    decreases |items|
  {
    if items == [] then 0
    else if items[|items| - 1].cond.action == a then Total(items[..|items| - 1], a)
    else Missed(items[..|items| - 1], a)
  }

  function MissedAll(ms: seq<Msg>, a: SendAction): int
    decreases |ms|
  {
    if ms == [] then 0 else MissedAll(ms[..|ms| - 1], a) + Missed(ms[|ms| - 1].items, a)
  }

  /** No entry that adds coins is followed in its message by another on the same action. */
  predicate Clean(items: seq<Item>) {
    forall i, j :: 0 <= i < j < |items| && items[i].cond.action == items[j].cond.action ==> NeedOf(items[i]) == 0
  }

  lemma {:induction false} AppliedAmount(acts: ActDict, items: seq<Item>, a: SendAction)
    requires AllIn(items, acts.Keys) && a in acts
    ensures Applied(acts, items)[a] == AddCoins(acts[a], Total(items, a) - Missed(items, a))
    decreases |items|
  {
    if items != [] {
      AppliedAmount(acts, items[..|items| - 1], a);
    }
  }

  lemma {:induction false} SequentialAmount(acts: ActDict, items: seq<Item>, a: SendAction)
    requires AllIn(items, acts.Keys) && a in acts
    ensures Sequential(acts, items)[a] == AddCoins(acts[a], Total(items, a))
    decreases |items|
  {
    if items != [] {
      SequentialAmount(acts, items[..|items| - 1], a);
    }
  }

  lemma {:induction false} TotalAppend(x: seq<Item>, y: seq<Item>, a: SendAction)
    ensures Total(x + y, a) == Total(x, a) + Total(y, a)
    decreases |y|
  {
    if y == [] {
      assert x + y == x;
    } else {
      var front := y[..|y| - 1];
      assert (x + y)[..|x + y| - 1] == x + front;
      TotalAppend(x, front, a);
    }
  }

  lemma {:induction false} ChainAmount(ms: seq<Msg>, conds: Entries, acts: ActDict, endConds: Entries,
                                       endActs: ActDict, a: SendAction)
    requires Chained(ms, conds, acts, endConds, endActs) && a in acts
    ensures a in endActs && endActs[a] == AddCoins(acts[a], Total(Flatten(ms), a) - MissedAll(ms, a))
    decreases |ms|
  {
    if ms != [] {
      var front, m := ms[..|ms| - 1], ms[|ms| - 1];
      ChainAmount(front, conds, acts, m.condRoot, m.actRoot, a);
      AppliedAmount(m.actRoot, m.items, a);
      TotalAppend(Flatten(front), m.items, a);
    }
  }

  lemma {:induction false} SettledAreIn(all: seq<Item>, acts: set<SendAction>)
    ensures AllIn(Settled(all, acts), acts)
    ensures forall i :: 0 <= i < |Settled(all, acts)| ==> Settled(all, acts)[i] in all
    decreases |all|
  {
    if all != [] {
      SettledAreIn(all[..|all| - 1], acts);
    }
  }

  /** The dictionary expected after the messages `ms`, which hold the entries `done`, falls short of executing
      those one after another by exactly the parts overwritten within messages. */
  lemma ExpectedFallsShortBy(ms: seq<Msg>, conds: Entries, acts: ActDict, endConds: Entries, endActs: ActDict,
                             done: seq<Item>)
    requires Chained(ms, conds, acts, endConds, endActs) && Flatten(ms) == done && AllIn(done, acts.Keys)
    ensures forall a :: a in acts ==>
              a in endActs && AddCoins(endActs[a], MissedAll(ms, a)) == Sequential(acts, done)[a]
  {
    forall a | a in acts
      ensures a in endActs && AddCoins(endActs[a], MissedAll(ms, a)) == Sequential(acts, done)[a]
    {
      ChainAmount(ms, conds, acts, endConds, endActs, a);
      SequentialAmount(acts, done, a);
    }
  }

  predicate NoneNegative(items: seq<Item>) {
    forall i :: 0 <= i < |items| ==> NeedOf(items[i]) >= 0
  }

  lemma {:induction false} TotalIsZero(items: seq<Item>, a: SendAction)
    requires NoneNegative(items)
    ensures Total(items, a) >= Missed(items, a) >= 0
    ensures Total(items, a) == 0 <==>
            (forall i :: 0 <= i < |items| && items[i].cond.action == a ==> NeedOf(items[i]) == 0)
    decreases |items|
  {
    if items != [] {
      var front := items[..|items| - 1];
      TotalIsZero(front, a);
      assert forall i :: 0 <= i < |front| ==> front[i] == items[i];
    }
  }

  lemma {:induction false} NothingMissed(items: seq<Item>, acts: set<SendAction>)
    requires NoneNegative(items) && AllIn(items, acts)
    ensures Clean(items) <==> forall a :: a in acts ==> Missed(items, a) == 0
    decreases |items|
  {
    if items != [] {
      var front, it := items[..|items| - 1], items[|items| - 1];
      NothingMissed(front, acts);
      assert forall i :: 0 <= i < |front| ==> front[i] == items[i];
      assert Clean(items) <==>
             Clean(front)
             && (forall i :: 0 <= i < |front| && front[i].cond.action == it.cond.action ==> NeedOf(front[i]) == 0);
      forall a ensures Total(front, a) >= Missed(front, a) >= 0 {
        TotalIsZero(front, a);
      }
      TotalIsZero(front, it.cond.action);
    }
  }

  predicate Sound(m: Msg, acts: set<SendAction>) { NoneNegative(m.items) && AllIn(m.items, acts) }

  lemma {:induction false} NothingMissedAnywhere(ms: seq<Msg>, acts: set<SendAction>)
    requires forall i :: 0 <= i < |ms| ==> Sound(ms[i], acts)
    ensures forall a :: a in acts ==> MissedAll(ms, a) >= 0
    ensures (forall i :: 0 <= i < |ms| ==> Clean(ms[i].items)) <==> forall a :: a in acts ==> MissedAll(ms, a) == 0
    decreases |ms|
  {
    if ms != [] {
      var front, m := ms[..|ms| - 1], ms[|ms| - 1];
      assert forall i :: 0 <= i < |front| ==> front[i] == ms[i];
      NothingMissedAnywhere(front, acts);
      NothingMissed(m.items, acts);
      forall a | a in acts ensures Missed(m.items, a) >= 0 {
        TotalIsZero(m.items, a);
      }
      assert (forall i :: 0 <= i < |ms| ==> Clean(ms[i].items)) <==>
             (forall i :: 0 <= i < |front| ==> Clean(front[i].items)) && Clean(m.items);
    }
  }

  lemma {:induction false} PartsOfFlatten(ms: seq<Msg>, acts: set<SendAction>)
    requires NoneNegative(Flatten(ms)) && AllIn(Flatten(ms), acts)
    ensures forall i :: 0 <= i < |ms| ==> Sound(ms[i], acts)
    decreases |ms|
  {
    if ms != [] {
      var front, m := ms[..|ms| - 1], ms[|ms| - 1];
      var f := Flatten(front);
      assert forall i :: 0 <= i < |f| ==> f[i] == Flatten(ms)[i];
      assert forall i :: 0 <= i < |m.items| ==> m.items[i] == Flatten(ms)[|f| + i];
      PartsOfFlatten(front, acts);
    }
  }

  lemma {:induction false} ChainKeys(ms: seq<Msg>, conds: Entries, acts: ActDict, endConds: Entries, endActs: ActDict)
    requires Chained(ms, conds, acts, endConds, endActs)
    ensures endActs.Keys == acts.Keys
    decreases |ms|
  {
    if ms != [] {
      ChainKeys(ms[..|ms| - 1], conds, acts, ms[|ms| - 1].condRoot, ms[|ms| - 1].actRoot);
    }
  }

  /** Two dictionaries that differ by a shortfall are equal exactly when nothing is short. */
  lemma EqualExactly(x: ActDict, y: ActDict, short: SendAction -> int)
    requires x.Keys == y.Keys && forall a :: a in x ==> AddCoins(x[a], short(a)) == y[a]
    ensures x == y <==> forall a :: a in x ==> short(a) == 0
  {
  }

  lemma ChainIsSequentialExactly(ms: seq<Msg>, conds: Entries, acts: ActDict, endConds: Entries, endActs: ActDict,
                                 done: seq<Item>)
    requires Chained(ms, conds, acts, endConds, endActs) && Flatten(ms) == done && AllIn(done, acts.Keys)
             && NoneNegative(done)
    ensures endActs == Sequential(acts, done) <==> forall i :: 0 <= i < |ms| ==> Clean(ms[i].items)
  {
    PartsOfFlatten(ms, acts.Keys);
    NothingMissedAnywhere(ms, acts.Keys);
    ExpectedFallsShortBy(ms, conds, acts, endConds, endActs, done);
    ChainKeys(ms, conds, acts, endConds, endActs);
    EqualExactly(endActs, Sequential(acts, done), (a: SendAction) => MissedAll(ms, a));
  }

  // ---------- the same condition on the input ----------

  /** How far the splitting has come after some entries: messages closed, and entries in the open one. */
  datatype Count = Count(closed: nat, open: nat)

  function Closed(n: Count): Count { if n.open == 0 then n else Count(n.closed + 1, 0) }

  /** An entry with a sender closes what is open, also when it then fails, and is closed itself; so is the thirtieth. */
  function Counted(n: Count, it: Item, acts: set<SendAction>): Count {
    if it.resolve.None? then n
    else
      var o := if it.sender.Some? then Closed(n) else n;
      if !Settles(it, acts) then o
      else
        var j := o.(open := o.open + 1);
        if it.sender.Some? || j.open == PER_MESSAGE then Closed(j) else j
  }

  function CountOf(all: seq<Item>, acts: set<SendAction>): Count
    decreases |all|
  {
    if all == [] then Count(0, 0) else Counted(CountOf(all[..|all| - 1], acts), all[|all| - 1], acts)
  }

  /** The number of the message that takes the next entry. */
  function NumberFor(n: Count, it: Item): nat { if it.sender.Some? then Closed(n).closed else n.closed }

  /** A settled entry with the number of its message. */
  datatype Numbered = Numbered(item: Item, number: nat)

  function Numbers(all: seq<Item>, acts: set<SendAction>): seq<Numbered>
    decreases |all|
  {
    if all == [] then []
    else
      var front, it := all[..|all| - 1], all[|all| - 1];
      var ns := Numbers(front, acts);
      if Settles(it, acts) then ns + [Numbered(it, NumberFor(CountOf(front, acts), it))] else ns
  }

  /** No entry that adds coins shares action and message with a later one. */
  predicate NoneOverwritten(ns: seq<Numbered>) {
    forall i, j ::
      0 <= i < j < |ns| && ns[i].number == ns[j].number && ns[i].item.cond.action == ns[j].item.cond.action ==>
        NeedOf(ns[i].item) == 0
  }

  function Labelled(items: seq<Item>, n: nat): (r: seq<Numbered>)
    ensures |r| == |items| && forall i :: 0 <= i < |items| ==> r[i] == Numbered(items[i], n)
  {
    seq(|items|, i requires 0 <= i < |items| => Numbered(items[i], n))
  }

  function Labels(ms: seq<Msg>): seq<Numbered>
    decreases |ms|
  {
    if ms == [] then [] else Labels(ms[..|ms| - 1]) + Labelled(ms[|ms| - 1].items, |ms| - 1)
  }

  /** The loop agrees with the counting: entries are labelled with the messages they end up in. */
  ghost predicate LabelsOk(l: Loop, n: Count, ns: seq<Numbered>) {
    |l.sent| == n.closed && |l.items| == n.open && Labels(l.sent) + Labelled(l.items, |l.sent|) == ns
  }

  lemma FlushKeepsLabels(l: Loop, n: Count, ns: seq<Numbered>)
    requires LabelsOk(l, n, ns)
    ensures LabelsOk(Flushed(l), Closed(n), ns)
  {
    if l.items != [] {
      assert Flushed(l).sent[..|l.sent|] == l.sent;
    }
  }

  lemma JoinKeepsLabels(l: Loop, n: Count, ns: seq<Numbered>, it: Item)
    requires LabelsOk(l, n, ns) && it.cond.action in l.acts
    ensures LabelsOk(Joined(l, it), n.(open := n.open + 1), ns + [Numbered(it, n.closed)])
  {
    assert Labelled(l.items + [it], |l.sent|) == Labelled(l.items, |l.sent|) + [Numbered(it, |l.sent|)];
  }

  lemma TurnKeepsLabels(l: Loop, n: Count, ns: seq<Numbered>, it: Item, acts: set<SendAction>)
    requires LabelsOk(l, n, ns) && l.acts.Keys == acts && Opened(l, it).acts.Keys == acts
    ensures LabelsOk(Turn(l, it), Counted(n, it, acts),
                     if Settles(it, acts) then ns + [Numbered(it, NumberFor(n, it))] else ns)
  {
    if it.resolve.Some? {
      FlushKeepsLabels(l, n, ns);
      var o, m := Opened(l, it), if it.sender.Some? then Closed(n) else n;
      if Settles(it, acts) {
        JoinKeepsLabels(o, m, ns, it);
        FlushKeepsLabels(Joined(o, it), m.(open := m.open + 1), ns + [Numbered(it, m.closed)]);
      }
    }
  }

  lemma {:induction false} LoopIsLabelled(conds: Entries, acts: ActDict, all: seq<Item>)
    ensures LabelsOk(RunLoop(conds, acts, all), CountOf(all, acts.Keys), Numbers(all, acts.Keys))
    decreases |all|
  {
    if all != [] {
      var front, it := all[..|all| - 1], all[|all| - 1];
      LoopIsLabelled(conds, acts, front);
      LoopIsOk(conds, acts, front);
      var l := RunLoop(conds, acts, front);
      OpenKeeps(l, it, conds, acts, Settled(front, acts.Keys));
      TurnKeepsLabels(l, CountOf(front, acts.Keys), Numbers(front, acts.Keys), it, acts.Keys);
    }
  }

  lemma {:induction false} LabelsBelow(ms: seq<Msg>)
    ensures forall i :: 0 <= i < |Labels(ms)| ==> Labels(ms)[i].number < |ms|
    decreases |ms|
  {
    if ms != [] {
      LabelsBelow(ms[..|ms| - 1]);
    }
  }

  lemma CleanIsNoneOverwritten(items: seq<Item>, n: nat)
    ensures Clean(items) <==> NoneOverwritten(Labelled(items, n))
  {
    if NoneOverwritten(Labelled(items, n)) {
      forall i, j | 0 <= i < j < |items| && items[i].cond.action == items[j].cond.action ensures NeedOf(items[i]) == 0 {
        assert Labelled(items, n)[i].item == items[i] && Labelled(items, n)[j].item == items[j];
      }
    }
  }

  /** Different numbers keep parts of the list apart. */
  lemma NoneOverwrittenSplits(xs: seq<Numbered>, ys: seq<Numbered>)
    requires forall i, j :: 0 <= i < |xs| && 0 <= j < |ys| ==> xs[i].number != ys[j].number
    ensures NoneOverwritten(xs + ys) <==> NoneOverwritten(xs) && NoneOverwritten(ys)
  {
    var zs := xs + ys;
    assert forall i :: 0 <= i < |xs| ==> zs[i] == xs[i];
    assert forall j :: 0 <= j < |ys| ==> zs[|xs| + j] == ys[j];
  }

  lemma {:induction false} AllCleanIsNoneOverwritten(ms: seq<Msg>)
    ensures (forall i :: 0 <= i < |ms| ==> Clean(ms[i].items)) <==> NoneOverwritten(Labels(ms))
    decreases |ms|
  {
    if ms != [] {
      var front, m := ms[..|ms| - 1], ms[|ms| - 1];
      AllCleanIsNoneOverwritten(front);
      CleanIsNoneOverwritten(m.items, |front|);
      LabelsBelow(front);
      NoneOverwrittenSplits(Labels(front), Labelled(m.items, |front|));
      assert (forall i :: 0 <= i < |ms| ==> Clean(ms[i].items)) <==>
             (forall i :: 0 <= i < |front| ==> Clean(front[i].items)) && Clean(m.items);
    }
  }

  /** The expected dictionary is the one left by executing everything one after another exactly when no entry that adds
      coins shares its action and its message with a later one; which message an entry goes to is counted off the
      input. */
  lemma ExpectedIsSequentialExactly(conds: Entries, acts: ActDict, all: seq<Item>)
    requires NoneNegative(all)
    ensures AllIn(Settled(all, acts.Keys), acts.Keys)
    ensures (Flushed(RunLoop(conds, acts, all)).newActs == Sequential(acts, Settled(all, acts.Keys)))
            <==> NoneOverwritten(Numbers(all, acts.Keys))
  {
    var l := Flushed(RunLoop(conds, acts, all));
    MessagesCoverEverything(conds, acts, all);
    SettledAreIn(all, acts.Keys);
    ChainIsSequentialExactly(l.sent, conds, acts, l.newConds, l.newActs, Settled(all, acts.Keys));
    LoopIsLabelled(conds, acts, all);
    FlushKeepsLabels(RunLoop(conds, acts, all), CountOf(all, acts.Keys), Numbers(all, acts.Keys));
    AllCleanIsNoneOverwritten(l.sent);
    EndLabels(RunLoop(conds, acts, all));
  }

  lemma EndLabels(l: Loop)
    ensures Labels(Flushed(l).sent) + Labelled(Flushed(l).items, |Flushed(l).sent|) == Labels(Flushed(l).sent)
  {
  }

  /** For instance, two entries on one action in one message: what the first adds is not expected. */
  lemma TwoOnOneActionFallShort(conds: Entries, acts: ActDict, x: Item, y: Item)
    requires Settles(x, acts.Keys) && Settles(y, acts.Keys) && x.sender.None? && y.sender.None?
    requires x.cond.action == y.cond.action && NeedOf(x) > 0
    ensures
      var l, a := Flushed(RunLoop(conds, acts, [x, y])), x.cond.action;
      a in l.newActs && l.newActs[a] == AddCoins(acts[a], NeedOf(y))
        && l.newActs[a] != AddCoins(acts[a], NeedOf(x) + NeedOf(y))
  {
    assert [x, y][..1] == [x] && [x][..0] == [];
    assert RunLoop(conds, acts, [x]) == Joined(Begin(conds, acts), x);
    assert RunLoop(conds, acts, [x, y]) == Joined(Joined(Begin(conds, acts), x), y);
  }

  // ---------- who must deliver a message ----------

  /** An entry with a sender failed to execute since the last one that was settled. */
  predicate Pending(all: seq<Item>, acts: set<SendAction>)
    decreases |all|
  {
    all != [] &&
      var it := all[|all| - 1];
      if it.resolve.None? then Pending(all[..|all| - 1], acts)
      else !Settles(it, acts) && (it.sender.Some? || Pending(all[..|all| - 1], acts))
  }

  /** Some entry without a sender is the next one settled after a failed entry with a sender. */
  predicate Leaks(all: seq<Item>, acts: set<SendAction>)
    decreases |all|
  {
    all != [] &&
      var it := all[|all| - 1];
      Leaks(all[..|all| - 1], acts) || (Settles(it, acts) && it.sender.None? && Pending(all[..|all| - 1], acts))
  }

  predicate TaggedRight(m: Msg) { m.items != [] && m.tag == m.items[0].sender }

  predicate TagsRight(ms: seq<Msg>) { forall i :: 0 <= i < |ms| ==> TaggedRight(ms[i]) }

  ghost predicate TagsOk(l: Loop, acts: set<SendAction>, pending: bool, leaks: bool) {
    && l.acts.Keys == acts && l.newActs.Keys == acts && NoSenders(l.items)
    && (l.items != [] ==> !pending)
    && (l.items == [] ==> (l.tag.Some? <==> pending))
    && (TagsRight(l.sent) && (l.items != [] ==> l.tag.None?) <==> !leaks)
  }

  lemma TagsFlush(l: Loop, acts: set<SendAction>, pending: bool, leaks: bool)
    requires TagsOk(l, acts, pending, leaks)
    ensures TagsOk(Flushed(l), acts, pending, leaks)
  {
    var f := Flushed(l);
    if l.items != [] {
      assert forall i :: 0 <= i < |l.sent| ==> f.sent[i] == l.sent[i];
      assert TagsRight(f.sent) <==> TagsRight(l.sent) && TaggedRight(f.sent[|l.sent|]);
    }
  }

  lemma TagsTurn(l: Loop, it: Item, acts: set<SendAction>, pending: bool, leaks: bool)
    requires TagsOk(l, acts, pending, leaks)
    ensures TagsOk(Turn(l, it), acts,
                   if it.resolve.None? then pending else !Settles(it, acts) && (it.sender.Some? || pending),
                   leaks || (Settles(it, acts) && it.sender.None? && pending))
  {
    TagsFlush(l, acts, pending, leaks);
    var o := Opened(l, it);
    if Settles(it, acts) {
      var j := Joined(o, it);
      if it.sender.Some? {
        assert Flushed(j).sent[..|o.sent|] == o.sent;
        assert TagsRight(Flushed(j).sent) <==> TagsRight(o.sent);
      } else {
        assert TagsOk(j, acts, false, leaks || pending);
        TagsFlush(j, acts, false, leaks || pending);
      }
    }
  }

  lemma {:induction false} TagsRun(conds: Entries, acts: ActDict, all: seq<Item>)
    ensures TagsOk(RunLoop(conds, acts, all), acts.Keys, Pending(all, acts.Keys), Leaks(all, acts.Keys))
    decreases |all|
  {
    if all != [] {
      var front, it := all[..|all| - 1], all[|all| - 1];
      TagsRun(conds, acts, front);
      TagsTurn(RunLoop(conds, acts, front), it, acts.Keys, Pending(front, acts.Keys), Leaks(front, acts.Keys));
    }
  }

  /** Every message names the sender its entry requires, and no sender when none does, exactly when no
      failed entry with a sender comes right before a settled entry without one. */
  lemma TagsAreRightExactly(conds: Entries, acts: ActDict, all: seq<Item>)
    ensures TagsRight(Flushed(RunLoop(conds, acts, all)).sent) <==> !Leaks(all, acts.Keys)
  {
    TagsRun(conds, acts, all);
    TagsFlush(RunLoop(conds, acts, all), acts.Keys, Pending(all, acts.Keys), Leaks(all, acts.Keys));
  }

  /** For instance, a derivative whose execution fails leaves its resolver on the next plain message. */
  lemma FailedSenderTagsTheNext(conds: Entries, acts: ActDict, x: Item, y: Item)
    requires x.resolve.Some? && x.sender.Some? && !Settles(x, acts.Keys) && Settles(y, acts.Keys) && y.sender.None?
    ensures !TagsRight(Flushed(RunLoop(conds, acts, [x, y])).sent)
  {
    assert [x, y][..1] == [x];
    assert Pending([x], acts.Keys);
    assert Leaks([x, y], acts.Keys);
    TagsAreRightExactly(conds, acts, [x, y]);
  }
}
