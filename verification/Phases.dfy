/** Uncooperative closing: the phase a contract is in, and the tasks a node schedules for the phases ahead. */
module Phases {
  import opened Prelude

  const TWO32: nat := 0x1_0000_0000

  type Uint32 = x: int | 0 <= x < 0x1_0000_0000

  /** Unsigned 32-bit addition wraps. */
  function Wrap(x: nat): Uint32 { x % TWO32 }

  datatype Quarantine = Quarantine(starts: Uint32, hasTheirState: bool, committedByOwner: bool, seqno: nat)

  datatype Storage = Storage(initialized: bool, quarantine: Option<Quarantine>,
                             quarantineDuration: Uint32, conditionalDuration: Uint32, actionsDuration: Uint32)

  datatype Phase =
    | Uninitialized | Open | ClosureStarted | SettlingConditionals | ExecutingActions | AwaitingFinalization
  {
    function Rank(): nat {
      match this
      case Uninitialized => 0
      case Open => 1
      case ClosureStarted => 2
      case SettlingConditionals => 3
      case ExecutingActions => 4
      case AwaitingFinalization => 5
    }

    predicate Closing() { Rank() >= 2 }
  }

  /** `calcState`: the sums are 64-bit, so they do not wrap. */
  function PhaseAt(s: Storage, now: int): (p: Phase)
    ensures p.Closing() ==> s.quarantine.Some?
  {
    if !s.initialized then Uninitialized
    else if s.quarantine.None? then Open
    else
      var ends := s.quarantine.value.starts + s.quarantineDuration;
      if ends > now then ClosureStarted
      else if s.quarantine.value.hasTheirState && ends + s.conditionalDuration > now then SettlingConditionals
      else if s.quarantine.value.hasTheirState && ends + s.conditionalDuration + s.actionsDuration > now then
        ExecutingActions
      else AwaitingFinalization
  }

  /** With the storage fixed, time only moves a channel forward. */
  lemma PhaseNeverGoesBack(s: Storage, now: int, later: int)
    requires now <= later
    ensures PhaseAt(s, now).Rank() <= PhaseAt(s, later).Rank()
  {
  }

  // ---------- scheduling ----------

  datatype Kind = Challenge | Settle | SettleActions | Finalize

  datatype Planned = Planned(kind: Kind, at: Option<int>, till: Option<int>)

  function ChallengeTill(s: Storage): Uint32
    requires s.quarantine.Some?
  {
    Wrap(s.quarantine.value.starts + s.quarantineDuration + 1)
  }

  function SettleAt(s: Storage): Uint32
    requires s.quarantine.Some?
  {
    Wrap(s.quarantine.value.starts + s.quarantineDuration + 3)
  }

  function SettleActionsAt(s: Storage): Uint32
    requires s.quarantine.Some?
  {
    Wrap(s.quarantine.value.starts + s.quarantineDuration + s.conditionalDuration + 3)
  }

  function FinalizeAt(s: Storage): Uint32
    requires s.quarantine.Some?
  {
    Wrap(s.quarantine.value.starts + s.quarantineDuration + s.conditionalDuration + s.actionsDuration + 5)
  }

  /** What is scheduled when the close is first seen in phase `p`: the phase's own task and those of all later ones. */
  function Plan(s: Storage, p: Phase, ourSeqno: nat): seq<Planned>
    requires s.quarantine.Some?
  {
    var q := s.quarantine.value;
    (if p.ClosureStarted? && !q.committedByOwner && q.seqno < ourSeqno
     then [Planned(Challenge, None, Some(ChallengeTill(s)))] else [])
    + (if p.Rank() <= 3 then [Planned(Settle, Some(SettleAt(s)), Some(SettleAt(s) + s.conditionalDuration))] else [])
    + (if p.Rank() <= 4 then [Planned(SettleActions, Some(SettleActionsAt(s)),
                                      Some(SettleActionsAt(s) + s.actionsDuration))] else [])
    + [Planned(Finalize, Some(FinalizeAt(s)), None)]
  }

  predicate Has(tasks: seq<Planned>, k: Kind) { exists i :: 0 <= i < |tasks| && tasks[i].kind == k }

  /** What a close first seen at `now` must leave scheduled. A challenge, exactly while a close by the counterparty at
      an older state can still be answered; the task of each phase, exactly while that phase is not over. Every window
      opens a little after its phase does and stays open that much longer than it. */
  predicate Scheduled(tasks: seq<Planned>, s: Storage, now: int, ourSeqno: nat)
    requires s.quarantine.Some?
  {
    var q, ends := s.quarantine.value, s.quarantine.value.starts + s.quarantineDuration;
    var settled := if q.hasTheirState then ends + s.conditionalDuration else ends;
    var executed := if q.hasTheirState then settled + s.actionsDuration else ends;
    && (Has(tasks, Challenge) <==> now < ends && !q.committedByOwner && q.seqno < ourSeqno)
    && (Has(tasks, Settle) <==> now < settled) && (Has(tasks, SettleActions) <==> now < executed)
       && Has(tasks, Finalize)
    && forall i :: 0 <= i < |tasks| ==> Timed(tasks[i], ends, s.conditionalDuration, s.actionsDuration)
  }

  /** The window of a task whose times stay below 2^32; beyond that the start wraps. */
  predicate Timed(t: Planned, ends: nat, conditional: Uint32, actions: Uint32) {
    match t.kind
    case Challenge => t.at.None? && t.till == Some((ends + 1) % 0x1_0000_0000)
    case Settle =>
      t.at == Some((ends + 3) % 0x1_0000_0000) && t.till.Some? && t.till.value - t.at.value == conditional
    case SettleActions =>
      t.at == Some((ends + conditional + 3) % 0x1_0000_0000) && t.till.Some? && t.till.value - t.at.value == actions
    case Finalize => t.at == Some((ends + conditional + actions + 5) % 0x1_0000_0000) && t.till.None?
  }

  lemma PlanIsScheduled(s: Storage, now: int, ourSeqno: nat)
    requires PhaseAt(s, now).Closing()
    ensures Scheduled(Plan(s, PhaseAt(s, now), ourSeqno), s, now, ourSeqno)
  {
    var p := PhaseAt(s, now);
    var plan := Plan(s, p, ourSeqno);
    assert plan[|plan| - 1].kind == Finalize;
    if p.Rank() <= 4 {
      assert plan[|plan| - 2].kind == SettleActions;
    }
    if p.Rank() <= 3 {
      assert plan[|plan| - 3].kind == Settle;
    }
    if p.ClosureStarted? && !s.quarantine.value.committedByOwner && s.quarantine.value.seqno < ourSeqno {
      assert plan[0].kind == Challenge;
    }
  }

  predicate OncePerKind(tasks: seq<Planned>) {
    forall i, j :: 0 <= i < j < |tasks| ==> tasks[i].kind != tasks[j].kind
  }

  datatype Status = Inactive | Active | Closing

  /** The parts of a channel row that `processSideUpdate` rewrites for our own contract. */
  class OurSide {
    var status: Status
    var activeOnchain: bool
    var accepting: bool
    var closeStarted: bool
    var tasks: seq<Planned>

    /** However many updates come in, every task is scheduled at most once, and all of them at the same moment. */
    ghost predicate Valid()
      reads this
    {
      OncePerKind(tasks) && (!closeStarted ==> tasks == [])
    }

    constructor ()
      ensures Valid() && tasks == [] && !closeStarted
    {
      status, activeOnchain, accepting, closeStarted, tasks := Inactive, false, false, false, [];
    }

    method ProcessSideUpdate(s: Storage, now: int, ourSeqno: nat)
      requires Valid()
      modifies this
      ensures Valid()
      ensures !old(closeStarted) && PhaseAt(s, now).Closing() ==> Scheduled(tasks, s, now, ourSeqno)
      ensures old(closeStarted) || !PhaseAt(s, now).Closing() ==> tasks == old(tasks)
      ensures
        var p := PhaseAt(s, now);
        && activeOnchain == !p.Uninitialized?
        && accepting == (old(accepting) && p.Open?)
        && closeStarted == (old(closeStarted) || p.Closing())
        && tasks == (if old(closeStarted) || !p.Closing() then old(tasks) else Plan(s, p, ourSeqno))
        && status == (if p.Open? then Active else if p.Uninitialized? then Inactive
                      else if old(status).Active? then Closing else old(status))
    {
      var p := PhaseAt(s, now);
      if p.Open? {
        activeOnchain := true;
      } else {
        accepting := false;
        if !p.Uninitialized? {
          if status.Active? {
            status := Closing;
          }
          activeOnchain := true;
        } else {
          activeOnchain := false;
        }
      }
      if p.Open? {
        status := Active;
      } else if p.Uninitialized? {
        status := Inactive;
      } else if !closeStarted {
        Schedule(s, p, ourSeqno);
        PlanIsScheduled(s, now, ourSeqno);
      }
    }

    /** The cases that fall through: from the phase first seen to the last. */
    method Schedule(s: Storage, p: Phase, ourSeqno: nat)
      requires s.quarantine.Some? && p.Closing() && tasks == []
      modifies this`tasks, this`closeStarted
      ensures tasks == Plan(s, p, ourSeqno) && closeStarted
    {
      var q := s.quarantine.value;
      if p.ClosureStarted? && !q.committedByOwner && q.seqno < ourSeqno {
        tasks := tasks + [Planned(Challenge, None, Some(ChallengeTill(s)))];
      }
      if p.ClosureStarted? || p.SettlingConditionals? {
        tasks := tasks + [Planned(Settle, Some(SettleAt(s)), Some(SettleAt(s) + s.conditionalDuration))];
      }
      if !p.AwaitingFinalization? {
        var at := SettleActionsAt(s);
        tasks := tasks + [Planned(SettleActions, Some(at), Some(at + s.actionsDuration))];
      }
      tasks := tasks + [Planned(Finalize, Some(FinalizeAt(s)), None)];
      closeStarted := true;
    }
  }

  // ---------- does a task start in its phase ----------

  /** Conditionals are settled in their phase exactly when the counterparty's state is there, the phase lasts more
      than three seconds, and the start does not wrap. */
  lemma SettleStartsInPhaseExactly(s: Storage)
    requires s.initialized && s.quarantine.Some?
    ensures PhaseAt(s, SettleAt(s)).SettlingConditionals? <==>
            s.quarantine.value.hasTheirState && s.conditionalDuration > 3
            && s.quarantine.value.starts + s.quarantineDuration + 3 < TWO32
  {
  }

  lemma SettleActionsStartsInPhaseExactly(s: Storage)
    requires s.initialized && s.quarantine.Some?
    ensures PhaseAt(s, SettleActionsAt(s)).ExecutingActions? <==>
            s.quarantine.value.hasTheirState && s.actionsDuration > 3
            && s.quarantine.value.starts + s.quarantineDuration + s.conditionalDuration + 3 < TWO32
  {
  }

  /** When everything is over, by the contract's own sums. */
  function AllOver(s: Storage): nat
    requires s.quarantine.Some?
  {
    s.quarantine.value.starts + s.quarantineDuration + s.conditionalDuration + s.actionsDuration
  }

  /** Finalization starts in its phase exactly when its start does not wrap; without the counterparty's state also when
      the phases it waits out are longer than what the wrap takes off. */
  lemma FinalizeStartsInPhaseExactly(s: Storage)
    requires s.initialized && s.quarantine.Some?
    ensures PhaseAt(s, FinalizeAt(s)).AwaitingFinalization? <==>
            || AllOver(s) + 5 < TWO32
            || (!s.quarantine.value.hasTheirState
                && s.conditionalDuration + s.actionsDuration + 5 >= TWO32 * ((AllOver(s) + 5) / TWO32))
  {
  }

  /** For instance, a quarantine that ends two seconds before 32 bits run out: settling is scheduled for its first
      seconds in 1970, long before the phase. */
  lemma WrappedStartIsTooEarly(s: Storage)
    requires s.initialized && s.quarantine.Some? && s.quarantine.value.hasTheirState
    requires s.quarantine.value.starts == 0xFFFF_FFF0 && s.quarantineDuration == 14
    ensures SettleAt(s) == 1 && PhaseAt(s, SettleAt(s)).ClosureStarted?
  {
  }

  /** Without it the two settling phases never come, yet their tasks are scheduled all the same. */
  lemma NothingToSettleWithoutTheirState(s: Storage, now: int)
    requires s.initialized && s.quarantine.Some? && !s.quarantine.value.hasTheirState
    ensures PhaseAt(s, now).ClosureStarted? || PhaseAt(s, now).AwaitingFinalization?
    ensures forall seqno: nat :: |Plan(s, ClosureStarted, seqno)| >= 3
  {
  }

  predicate StartsInItsPhase(s: Storage, t: Planned) {
    match t.kind
    case Challenge => t.till.Some? && PhaseAt(s, t.till.value - 2).ClosureStarted?
    case Settle => t.at.Some? && PhaseAt(s, t.at.value).SettlingConditionals?
    case SettleActions => t.at.Some? && PhaseAt(s, t.at.value).ExecutingActions?
    case Finalize => t.at.Some? && PhaseAt(s, t.at.value).AwaitingFinalization?
  }

  /** The whole schedule, whichever phase the close was first seen in: every task starts in the phase it needs,
      and a challenge expires one second after its phase. */
  lemma PlanStartsInPhase(s: Storage, now: int, ourSeqno: nat, i: nat)
    requires s.quarantine.Some? && s.quarantine.value.hasTheirState && PhaseAt(s, now).Closing()
    requires s.conditionalDuration > 3 && s.actionsDuration > 3
    requires s.quarantine.value.starts + s.quarantineDuration + s.conditionalDuration + s.actionsDuration + 5 < TWO32
    requires i < |Plan(s, PhaseAt(s, now), ourSeqno)|
    ensures StartsInItsPhase(s, Plan(s, PhaseAt(s, now), ourSeqno)[i])
  {
  }
}
