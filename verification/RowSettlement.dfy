/** Settling the conditionals of a row some run leads to: nothing that has a resolve is skipped. */
module RowSettlement {
  import opened Prelude
  import opened Payments
  import opened Channel
  import opened Protocol
  import opened ProtocolTheorems
  import opened RowData
  import VirtualChannel
  import Settlement

  /** A resolve for this conditional: of its kind, by its key, not negative. */
  predicate ResolveFits(c: Conditional, r: Option<Resolve>) { r.Some? ==> Need(c, r.value).Ok? }

  /** The forms a record keeps of one conditional share its key and kind. */
  predicate FormsOf(rec: VirtualChannel.Record, c: Conditional) {
    && (rec.incoming.Some? ==> rec.incoming.value.key == c.key && rec.incoming.value.Virtual? == c.Virtual?)
    && (rec.outgoing.Some? ==> rec.outgoing.value.key == c.key && rec.outgoing.value.Virtual? == c.Virtual?)
  }

  /** Stored resolves are validated, so whatever a record has come to know fits its conditional. */
  lemma {:induction false} HeardResolveFits(rec: VirtualChannel.Record, c: Conditional, es: seq<VirtualChannel.Arrival>,
                                            prices: Prices, latest: map<nat, int>)
    requires FormsOf(rec, c) && ResolveFits(c, rec.known)
    ensures ResolveFits(c, VirtualChannel.HeardAll(rec, es, prices, latest).known)
    decreases |es|
  {
    if es != [] {
      HeardResolveFits(VirtualChannel.Heard(rec, es[0], prices, latest), c, es[1..], prices, latest);
    }
  }

  /** The entries of a side, each with a resolve that fits or none. */
  ghost predicate EntriesOf(all: seq<Settlement.Item>, s: Side) {
    forall i :: 0 <= i < |all| ==>
      && all[i].id in s.data.conds && all[i].cond == s.data.conds[all[i].id]
      && ResolveFits(all[i].cond, all[i].resolve)
  }

  function Known(all: seq<Settlement.Item>): seq<Settlement.Item>
    decreases |all|
  {
    if all == [] then []
    else
      var front, it := Known(all[..|all| - 1]), all[|all| - 1];
      if it.resolve.Some? then front + [it] else front
  }

  lemma {:induction false} NothingIsSkipped(all: seq<Settlement.Item>, s: Side)
    requires EntriesOf(all, s) && Stated(s.data)
    ensures Settlement.Settled(all, s.data.acts.Keys) == Known(all)
    ensures !Settlement.Pending(all, s.data.acts.Keys) && !Settlement.Leaks(all, s.data.acts.Keys)
    decreases |all|
  {
    if all != [] {
      NothingIsSkipped(all[..|all| - 1], s);
    }
  }

  /** At every reachable moment the settlement of the counterparty's conditionals puts every one that has a resolve in
      exactly one message, and every message names the sender its conditional needs. */
  lemma ReachableSettlementIsComplete(s: System, base: nat, p: Party, conds: Settlement.Entries,
                                      all: seq<Settlement.Item>)
    requires Reachable(s, base) && EntriesOf(all, At(s, p).store.ch.their)
    ensures
      var sent := Settlement.Flushed(Settlement.RunLoop(conds, At(s, p).store.ch.their.data.acts, all)).sent;
      Settlement.Flatten(sent) == Known(all) && Settlement.TagsRight(sent)
  {
    ReachableDataIsOk(s, base, p);
    var side := At(s, p).store.ch.their;
    NothingIsSkipped(all, side);
    Settlement.MessagesCoverEverything(conds, side.data.acts, all);
    Settlement.TagsAreRightExactly(conds, side.data.acts, all);
  }

  lemma NothingIsNegative(all: seq<Settlement.Item>, s: Side)
    requires EntriesOf(all, s) && SideSound(s)
    ensures Settlement.NoneNegative(all)
  {
    forall i | 0 <= i < |all| ensures Settlement.NeedOf(all[i]) >= 0 {
      if all[i].resolve.Some? {
        NeedIsNonNegative(all[i].cond, all[i].resolve.value);
      }
    }
  }

  /** And the action dictionary expected after it is the one left by executing all of them one after another exactly
      when none is overwritten within its message. */
  lemma ReachableExpectationExactly(s: System, base: nat, p: Party, conds: Settlement.Entries,
                                    all: seq<Settlement.Item>)
    requires Reachable(s, base) && EntriesOf(all, At(s, p).store.ch.their)
    ensures
      var acts := At(s, p).store.ch.their.data.acts;
      && Settlement.AllIn(Known(all), acts.Keys)
      && ((Settlement.Flushed(Settlement.RunLoop(conds, acts, all)).newActs == Settlement.Sequential(acts, Known(all)))
          <==> Settlement.NoneOverwritten(Settlement.Numbers(all, acts.Keys)))
  {
    ReachableDataIsOk(s, base, p);
    var side := At(s, p).store.ch.their;
    NothingIsSkipped(all, side);
    NothingIsNegative(all, side);
    Settlement.ExpectedIsSequentialExactly(conds, side.data.acts, all);
  }
}
