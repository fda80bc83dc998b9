/** A sender change somebody triggered for is offered or stays armed, whatever else happens. */
module GateDemand {
  import opened Prelude
  import opened Gate
  import opened GateInvariant
  import opened GateTheorems

  /** The connection is closed, failed or being closed. */
  predicate Down(s: State) { s.conn == ClosedConn || s.conn == Failed || s.mu == Closing }

  /** Some state of the run is down. */
  ghost predicate EverDown(s: State, acts: seq<Action>)
    decreases |acts|
  {
    Down(s) || (acts != [] && EverDown(Next(s, acts[0]), acts[1..]))
  }

  /** The step is the guard of serverOfferLocked, met without a sender. */
  predicate FindsNoSender(s: State, a: Action) { a.GateStep? && s.phase.OfferEntry? && s.mu.Free? && !s.hasSender }

  /** The gate call in progress reaches its guard while there is no sender. */
  ghost predicate SenderGone(s: State, acts: seq<Action>)
    decreases |acts|
  {
    acts != [] && !s.phase.Idle? && (FindsNoSender(s, acts[0]) || SenderGone(Next(s, acts[0]), acts[1..]))
  }

  // ---------------------------------------------------------------- what a step does to a need

  /** Generation g is recorded, or armed, or on its way: in the offer being made, or in the failure closure. */
  predicate Owed(s: State, g: nat) {
    g <= s.lastOfferGeneration || s.pendingNegotiation || s.phase.Failing? || (s.phase.Carries() && g <= s.phase.g)
  }

  /** A trigger has not decided yet. */
  predicate Deciding(p: Phase) { p.TriggerCheck? || p.Deferring? || p == OfferEntry(true) }

  /** The need is taken care of, or the trigger in progress is about to. */
  predicate Demanded(s: State, g: nat) { g <= s.negotiationGeneration && (Owed(s, g) || Deciding(s.phase)) }

  lemma {:induction false} OwedMu(s: State, a: Action, g: nat)
    requires !Down(s) && !a.IsGate()
    ensures MuStep(s, a).phase == s.phase && (Owed(s, g) ==> Owed(MuStep(s, a), g))
  {
    match a {
      case AddBegin(_) =>
      case AddDetach =>
      case AddReattach =>
      case AddCommit =>
      case AddAbort =>
      case RemoveBegin(_, _) =>
      case RemoveCommit =>
      case CloseBegin =>
      case CloseEnd(_) =>
      case ConnChange(_) =>
      case SetSender(_) =>
    }
  }

  lemma OwedEnter(s: State, a: Action, g: nat)
    requires Owed(s, g) && a.IsGate() && !a.GateStep?
    ensures Owed(EnterStep(s, a), g)
  {
  }

  lemma OwedTrigger(s: State, g: nat)
    requires s.phase.TriggerCheck? || s.phase.Deferring?
    ensures Owed(s, g) ==> Owed(TriggerStep(s), g)
    ensures Owed(TriggerStep(s), g) || Deciding(TriggerStep(s).phase)
  {
  }

  lemma OwedEntry(s: State, g: nat)
    requires !Down(s) && g <= s.negotiationGeneration && (s.phase.OfferEntry? || s.phase.Failing?)
    ensures Owed(s, g) || s.hasSender ==> Owed(EntryStep(s), g)
  {
  }

  lemma {:induction false} OwedOffer(s: State, ok: bool, g: nat)
    requires GenerationInv(s) && Owed(s, g) && s.phase.InOffer?
    ensures Owed(OfferStep(s, ok), g)
  {
    match s.phase.op {
      case Creating =>
      case SettingLocal =>
      case Recording =>
      case Gathering =>
      case Sending =>
    }
  }

  lemma {:induction false} OwedAnswer(s: State, ok: bool, g: nat)
    requires Owed(s, g) && s.phase.InAnswer?
    ensures Owed(AnswerStep(s, ok), g)
  {
    match s.phase.ap {
      case SettingRemote =>
      case CreatingAnswer =>
      case SettingAnswer =>
      case GatheringAnswer =>
      case Delivering =>
    }
  }

  lemma OwedReceive(s: State, ok: bool, g: nat)
    requires Owed(s, g)
    ensures s.phase.InReceive? ==> Owed(ReceiveStep(s), g)
    ensures s.phase.InApply? ==> Owed(ApplyStep(s, ok), g)
  {
  }

  lemma {:induction false} OwedFlush(s: State, g: nat)
    requires !Down(s) && Owed(s, g) && s.phase.InFlush?
    ensures Owed(FlushStep(s), g)
  {
    match s.phase.fp {
      case FlushTake =>
      case FlushCheck(_) =>
      case FlushRestore(_) =>
      case FlushPending =>
      case FlushSignaling =>
      case FlushIdleCheck =>
    }
  }

  lemma {:induction false} OwedGate(s: State, ok: bool, g: nat)
    requires GenerationInv(s) && !Down(s) && Owed(s, g) && g <= s.negotiationGeneration
    ensures Owed(GateProgress(s, ok), g)
  {
    match s.phase {
      case Idle =>
      case TriggerCheck | Deferring => OwedTrigger(s, g);
      case OfferEntry(_) | Failing => OwedEntry(s, g);
      case InOffer(_, _) => OwedOffer(s, ok, g);
      case InReceive(_) => OwedReceive(s, ok, g);
      case InAnswer(_, _, _) => OwedAnswer(s, ok, g);
      case InApply(_) => OwedReceive(s, ok, g);
      case InFlush(_) => OwedFlush(s, g);
    }
  }

  lemma {:induction false} OwedStep(s: State, a: Action, g: nat)
    requires GenerationInv(s) && !Down(s) && Owed(s, g) && g <= s.negotiationGeneration
    ensures Owed(Next(s, a), g)
  {
    if a.GateStep? { OwedGate(s, a.ok, g); } else if a.IsGate() { OwedEnter(s, a, g); } else { OwedMu(s, a, g); }
  }

  /** Generations never go back. */
  lemma {:induction false} NeverBack(s: State, a: Action)
    ensures s.negotiationGeneration <= Next(s, a).negotiationGeneration
  {
    if a.GateStep? { GateKeepsGeneration(s, a.ok); } else if !a.IsGate() { MuGenerations(s, a); }
  }

  lemma {:induction false} GateKeepsGeneration(s: State, ok: bool)
    ensures GateProgress(s, ok).negotiationGeneration == s.negotiationGeneration
  {
    match s.phase
    case Idle =>
    case TriggerCheck | Deferring =>
    case OfferEntry(_) | Failing =>
    case InOffer(_, _) => OfferCovers(s, ok);
    case InReceive(_) => ReceiveKeepsGenerations(s);
    case InAnswer(_, _, _) => AnswerKeepsGenerations(s, ok);
    case InApply(_) => ApplyKeepsGenerations(s, ok);
    case InFlush(_) => FlushKeepsGenerations(s);
  }

  /** Until its call is over, the trigger in progress takes care of the need or goes on, unless it finds no sender. */
  lemma {:induction false} DemandedStep(s: State, a: Action, g: nat)
    requires GenerationInv(s) && !Down(s) && Demanded(s, g) && !FindsNoSender(s, a)
    ensures Demanded(Next(s, a), g)
  {
    NeverBack(s, a);
    if Owed(s, g) {
      OwedStep(s, a, g);
    } else if a.GateStep? {
      if s.phase.OfferEntry? { OwedEntry(s, g); } else { OwedTrigger(s, g); }
    } else if !a.IsGate() {
      OwedMu(s, a, g);
    }
  }

  // ---------------------------------------------------------------- over runs

  lemma {:induction false} OwedRun(s: State, acts: seq<Action>, g: nat)
    requires GenerationInv(s) && Owed(s, g) && g <= s.negotiationGeneration && !EverDown(s, acts)
    ensures Owed(Run(s, acts), g)
    decreases |acts|
  {
    if acts != [] {
      GenerationStep(s, acts[0]);
      OwedStep(s, acts[0], g);
      NeverBack(s, acts[0]);
      OwedRun(Next(s, acts[0]), acts[1..], g);
    }
  }

  lemma {:induction false} DemandedRun(s: State, acts: seq<Action>, g: nat)
    requires GenerationInv(s) && Demanded(s, g) && !EverDown(s, acts) && !SenderGone(s, acts)
    ensures Demanded(Run(s, acts), g) && (Run(s, acts).phase.Idle? ==> Owed(Run(s, acts), g))
    decreases |acts|
  {
    if s.phase.Idle? {
      OwedRun(s, acts, g);
      GenerationGrows(s, acts);
    } else if acts != [] {
      GenerationStep(s, acts[0]);
      DemandedStep(s, acts[0], g);
      DemandedRun(Next(s, acts[0]), acts[1..], g);
    }
  }

  lemma {:induction false} GenerationGrows(s: State, acts: seq<Action>)
    ensures s.negotiationGeneration <= Run(s, acts).negotiationGeneration
    decreases |acts|
  {
    if acts != [] {
      NeverBack(s, acts[0]);
      GenerationGrows(Next(s, acts[0]), acts[1..]);
    }
  }

  /** A trigger entered now gets past its first tests. */
  predicate Heard(s: State) { s.phase.Idle? && s.mu.Free? && s.hasSender && !Down(s) }

  /**
   Over every run: a trigger, synchronous or not, that is entered on a connection that is up and has a sender leaves
   the generation it met recorded as offered or the need armed, at the end of its call and between gate calls ever
   after, while the connection stays up; unless its own guard finds the sender gone.
   */
  lemma {:induction false} NoRenegotiationLost(hasSender: bool, before: seq<Action>, sync: bool, after: seq<Action>)
    requires Heard(Reached(hasSender, before))
    ensures var s := Reached(hasSender, before);
            var u := Next(s, Trigger(sync));
            Run(u, after).phase.Idle? && !EverDown(u, after) && !SenderGone(u, after) ==>
              s.negotiationGeneration <= Run(u, after).lastOfferGeneration || Run(u, after).pendingNegotiation
  {
    ReachedInv(hasSender, before);
    var s := Reached(hasSender, before);
    var u := Next(s, Trigger(sync));
    GenerationStep(s, Trigger(sync));
    assert Demanded(u, s.negotiationGeneration);
    if !EverDown(u, after) && !SenderGone(u, after) { DemandedRun(u, after, s.negotiationGeneration); }
  }

  // ---------------------------------------------------------------- how many needs are waiting

  /** The step coalesces a need: behind our own offer, outside stable, or at a guard that does not meet stable. */
  predicate Coalesces(s: State, a: Action) {
    || (a == Trigger(false) && Heard(s) && s.isNegotiating)
    || (a.GateStep? && s.mu.Free? && s.phase.Deferring?)
    || (a.GateStep? && s.mu.Free? && s.phase.OfferEntry? && s.conn.Usable() && s.hasSender && !s.sig.Stable?)
  }

  /** The step forgets how many: a guard that meets stable, or a clean Close. */
  predicate Forgets(s: State, a: Action) {
    || (a.GateStep? && s.mu.Free? && s.phase.OfferEntry? && s.conn.Usable() && s.hasSender && s.sig.Stable?)
    || (a == CloseEnd(true) && s.mu.Closing?)
  }

  ghost function Waiting(s: State, acts: seq<Action>, n: nat): nat
    decreases |acts|
  {
    if acts == [] then n
    else Waiting(Next(s, acts[0]), acts[1..], if Forgets(s, acts[0]) then 0 else if Coalesces(s, acts[0]) then n + 1 else n)
  }

  lemma {:induction false} CountStep(s: State, a: Action)
    ensures Next(s, a).negotiationsQueued ==
              if Forgets(s, a) then 0 else if Coalesces(s, a) then s.negotiationsQueued + 1 else s.negotiationsQueued
  {
    if a.GateStep? { CountGate(s, a.ok); } else if a.IsGate() { CountEnter(s, a); } else { CountMu(s, a); }
  }

  lemma CountEnter(s: State, a: Action)
    requires a.IsGate() && !a.GateStep?
    ensures EnterStep(s, a).negotiationsQueued == if Coalesces(s, a) then s.negotiationsQueued + 1 else s.negotiationsQueued
  {
  }

  lemma {:induction false} CountMu(s: State, a: Action)
    requires !a.IsGate()
    ensures MuStep(s, a).negotiationsQueued == if Forgets(s, a) then 0 else s.negotiationsQueued
  {
    match a {
      case AddBegin(_) =>
      case AddDetach =>
      case AddReattach =>
      case AddCommit =>
      case AddAbort =>
      case RemoveBegin(_, _) =>
      case RemoveCommit =>
      case CloseBegin =>
      case CloseEnd(_) =>
      case ConnChange(_) =>
      case SetSender(_) =>
    }
  }

  lemma {:induction false} CountGate(s: State, ok: bool)
    ensures GateProgress(s, ok).negotiationsQueued ==
              if Forgets(s, GateStep(ok)) then 0
              else if Coalesces(s, GateStep(ok)) then s.negotiationsQueued + 1 else s.negotiationsQueued
  {
    match s.phase {
      case Idle =>
      case TriggerCheck | Deferring => assert TriggerStep(s).negotiationsQueued == s.negotiationsQueued + if s.phase.Deferring? then 1 else 0;
      case OfferEntry(_) | Failing => CountEntry(s);
      case InOffer(_, _) => CountOffer(s, ok);
      case InReceive(_) => CountReceive(s, ok);
      case InAnswer(_, _, _) => CountAnswer(s, ok);
      case InApply(_) => CountReceive(s, ok);
      case InFlush(_) => CountFlush(s);
    }
  }

  lemma CountEntry(s: State)
    ensures s.phase.Failing? ==> EntryStep(s).negotiationsQueued == s.negotiationsQueued
    ensures s.phase.OfferEntry? ==>
              EntryStep(s).negotiationsQueued == if !s.conn.Usable() || !s.hasSender then s.negotiationsQueued
                                                 else if s.sig.Stable? then 0 else s.negotiationsQueued + 1
  {
  }

  lemma {:induction false} CountOffer(s: State, ok: bool)
    requires s.phase.InOffer?
    ensures OfferStep(s, ok).negotiationsQueued == s.negotiationsQueued
  {
    match s.phase.op {
      case Creating =>
      case SettingLocal =>
      case Recording =>
      case Gathering =>
      case Sending =>
    }
  }

  lemma CountReceive(s: State, ok: bool)
    ensures s.phase.InReceive? ==> ReceiveStep(s).negotiationsQueued == s.negotiationsQueued
    ensures s.phase.InApply? ==> ApplyStep(s, ok).negotiationsQueued == s.negotiationsQueued
  {
  }

  lemma {:induction false} CountAnswer(s: State, ok: bool)
    requires s.phase.InAnswer?
    ensures AnswerStep(s, ok).negotiationsQueued == s.negotiationsQueued
  {
    match s.phase.ap {
      case SettingRemote =>
      case CreatingAnswer =>
      case SettingAnswer =>
      case GatheringAnswer =>
      case Delivering =>
    }
  }

  lemma {:induction false} CountFlush(s: State)
    requires s.phase.InFlush?
    ensures FlushStep(s).negotiationsQueued == s.negotiationsQueued
  {
    match s.phase.fp {
      case FlushTake =>
      case FlushCheck(_) =>
      case FlushRestore(_) =>
      case FlushPending =>
      case FlushSignaling =>
      case FlushIdleCheck =>
    }
  }

  /** Over every run `negotiationsQueued` is the number of needs coalesced since it was last cleared. */
  lemma {:induction false} QueuedIsWaiting(s: State, acts: seq<Action>)
    ensures Run(s, acts).negotiationsQueued == Waiting(s, acts, s.negotiationsQueued)
    decreases |acts|
  {
    if acts != [] {
      CountStep(s, acts[0]);
      QueuedIsWaiting(Next(s, acts[0]), acts[1..]);
    }
  }

  /** Where the run is down. */
  lemma {:induction false} DownAt(s: State, acts: seq<Action>) returns (k: nat)
    requires EverDown(s, acts)
    ensures k <= |acts| && Down(Run(s, acts[..k]))
    decreases |acts|
  {
    if Down(s) {
      k := 0;
    } else {
      k := DownAt(Next(s, acts[0]), acts[1..]);
      k := k + 1;
      assert acts[..k][1..] == acts[1..][..k - 1];
    }
  }

  /** Where the sender is gone. */
  lemma {:induction false} GoneAt(s: State, acts: seq<Action>) returns (k: nat)
    requires SenderGone(s, acts)
    ensures k < |acts| && !Run(s, acts[..k]).hasSender
    decreases |acts|
  {
    if FindsNoSender(s, acts[0]) {
      k := 0;
    } else {
      k := GoneAt(Next(s, acts[0]), acts[1..]);
      k := k + 1;
      assert acts[..k][1..] == acts[1..][..k - 1];
    }
  }
}
