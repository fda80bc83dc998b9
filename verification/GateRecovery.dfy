/**
 What a gate call achieves when pion accepts what it is given: flushes drain, and from any idle usable state
 the exchange can be brought to rest, except from have-remote-offer, which no gate call ever leaves.
 */
module GateRecovery {
  import opened Prelude
  import opened Gate
  import opened GateInvariant
  import opened GateLog
  import opened GateTheorems
  import opened GateDemand

  // ---------------------------------------------------------------- draining

  /** Actions other threads may take while the connection stays usable and keeps its sender. */
  predicate Benign(a: Action) {
    match a
    case GateStep(ok) => ok
    case AddBegin(_) | AddDetach | AddReattach | AddCommit | AddAbort | RemoveBegin(_, _) | RemoveCommit => true
    case ConnChange(conn) => conn.Usable()
    case SetSender(present) => present
    case _ => false
  }

  predicate Serving(s: State) { s.conn.Usable() && s.hasSender && !s.sig.SignalingClosed? && !s.mu.Closing? }

  /** A gate call that is on its way to leaving no stored offer and no pending need behind. */
  predicate Draining(s: State) {
    match s.phase
    case Idle => s.pendingInboundOffer.None? && !s.pendingNegotiation && !s.sig.HaveRemoteOffer?
    case TriggerCheck => s.sig.Stable? && s.pendingInboundOffer.None? && !s.isNegotiating
    case OfferEntry(_) => s.pendingInboundOffer.None?
    case InOffer(_, _) => s.pendingInboundOffer.None? && !s.pendingNegotiation
    case InAnswer(_, _, mode) => mode.Deferred? && !s.isNegotiating
    case InApply(pp) => pp.AnswerCheck? ==> s.sig.HaveLocalOffer?
    case InFlush(fp) =>
      s.sig.Stable? && !s.isNegotiating && !fp.FlushRestore? && (s.pendingInboundOffer.Some? ==> fp.FlushTake?)
    case _ => false
  }

  lemma {:induction false} DrainGate(s: State)
    requires GlareInv(s) && Serving(s) && Draining(s)
    ensures Draining(GateProgress(s, true)) && Serving(GateProgress(s, true))
  {
    match s.phase {
      case Idle =>
      case TriggerCheck | Deferring =>
      case OfferEntry(_) | Failing =>
      case InOffer(op, _) => DrainOffer(s);
      case InReceive(_) =>
      case InAnswer(ap, _, _) => DrainAnswer(s);
      case InApply(_) => DrainApply(s);
      case InFlush(_) => DrainFlush(s);
    }
  }

  lemma {:induction false} DrainOffer(s: State)
    requires GlareInv(s) && Serving(s) && Draining(s) && s.phase.InOffer?
    ensures Draining(OfferStep(s, true)) && Serving(OfferStep(s, true))
  {
    match s.phase.op {
      case Creating =>
      case SettingLocal =>
      case Recording =>
      case Gathering =>
      case Sending =>
    }
  }

  lemma {:induction false} DrainAnswer(s: State)
    requires GlareInv(s) && Serving(s) && Draining(s) && s.phase.InAnswer?
    ensures Draining(AnswerStep(s, true)) && Serving(AnswerStep(s, true))
  {
    match s.phase.ap {
      case SettingRemote =>
      case CreatingAnswer =>
      case SettingAnswer =>
      case GatheringAnswer =>
      case Delivering =>
    }
  }

  lemma {:induction false} DrainApply(s: State)
    requires GlareInv(s) && Serving(s) && Draining(s) && s.phase.InApply?
    ensures Draining(ApplyStep(s, true)) && Serving(ApplyStep(s, true))
  {
    match s.phase.pp {
      case AnswerCheck =>
      case ApplyingAnswer =>
      case ClearNegotiating =>
    }
  }

  lemma {:induction false} DrainFlush(s: State)
    requires GlareInv(s) && Serving(s) && Draining(s) && s.phase.InFlush?
    ensures Draining(FlushStep(s)) && Serving(FlushStep(s))
  {
    match s.phase.fp {
      case FlushTake =>
      case FlushCheck(_) =>
      case FlushRestore(_) =>
      case FlushPending =>
      case FlushSignaling =>
      case FlushIdleCheck =>
    }
  }

  lemma {:induction false} DrainStep(s: State, a: Action)
    requires GlareInv(s) && Serving(s) && Draining(s) && Benign(a)
    ensures Draining(Next(s, a)) && Serving(Next(s, a))
  {
    if a.GateStep? { DrainGate(s); } else { DrainMu(s, a); }
  }

  lemma DrainMu(s: State, a: Action)
    requires Serving(s) && Draining(s) && Benign(a) && !a.IsGate()
    ensures Draining(MuStep(s, a)) && Serving(MuStep(s, a))
  {
  }

  /**
   A flush entered in stable, or the flush behind a browser answer, leaves no stored browser offer and no pending
   need when pion accepts its calls, whatever sender changes run in between.
   */
  lemma {:induction false} FlushDrains(s: State, acts: seq<Action>)
    requires Inv(s) && Serving(s) && Draining(s) && forall i :: 0 <= i < |acts| ==> Benign(acts[i])
    ensures Inv(Run(s, acts)) && Serving(Run(s, acts)) && Draining(Run(s, acts))
    ensures Run(s, acts).phase.Idle? ==> Run(s, acts).pendingInboundOffer.None? && !Run(s, acts).pendingNegotiation
    decreases |acts|
  {
    if acts != [] {
      NextInv(s, acts[0]);
      DrainStep(s, acts[0]);
      FlushDrains(Next(s, acts[0]), acts[1..]);
    }
  }

  /** The calls that start a drain, between gate calls. */
  lemma DrainEntered(s: State, a: Action)
    requires GlareInv(s) && Serving(s) && s.phase.Idle? && s.mu.Free?
    requires (s.sig.Stable? && (a.Flush? || a.Trigger?)) || (s.sig.HaveLocalOffer? && a.BrowserAnswer?)
    ensures Draining(Next(s, a)) && Serving(Next(s, a)) && Next(s, a).mu.Free? && Rank(Next(s, a).phase) <= 20
    ensures Next(s, a).negotiationGeneration == s.negotiationGeneration && Next(s, a).h == s.h
  {
  }

  // ---------------------------------------------------------------- every gate call ends

  /** How many steps a gate call still has at most. */
  function Rank(p: Phase): nat {
    match p
    case Idle => 0
    case Failing | Deferring => 1
    case InOffer(op, _) =>
      (match op case Creating => 6 case SettingLocal => 5 case Recording => 4 case Gathering => 3 case Sending => 2)
    case OfferEntry(_) => 7
    case TriggerCheck => 8
    case InFlush(fp) =>
      (match fp case FlushIdleCheck => 8 case FlushSignaling => 9 case FlushPending => 10
       case FlushRestore(_) => 1 case FlushCheck(_) => 16 case FlushTake => 17)
    case InAnswer(ap, _, _) =>
      (match ap case Delivering => 11 case GatheringAnswer => 12 case SettingAnswer => 13
       case CreatingAnswer => 14 case SettingRemote => 15)
    case InApply(pp) => (match pp case ClearNegotiating => 18 case ApplyingAnswer => 19 case AnswerCheck => 20)
    case InReceive(rp) => if rp.Storing? then 1 else 16
  }

  lemma TriggerProgresses(s: State)
    requires s.phase.TriggerCheck? || s.phase.Deferring?
    ensures Rank(TriggerStep(s).phase) < Rank(s.phase) && TriggerStep(s).mu == s.mu
  {
  }

  lemma EntryProgresses(s: State)
    requires s.phase.OfferEntry? || s.phase.Failing?
    ensures Rank(EntryStep(s).phase) < Rank(s.phase) && EntryStep(s).mu == s.mu
  {
  }

  lemma {:induction false} OfferProgresses(s: State, ok: bool)
    requires s.phase.InOffer?
    ensures Rank(OfferStep(s, ok).phase) < Rank(s.phase) && OfferStep(s, ok).mu == s.mu
  {
    match s.phase.op {
      case Creating =>
      case SettingLocal =>
      case Recording =>
      case Gathering =>
      case Sending =>
    }
  }

  lemma ReceiveProgresses(s: State)
    requires s.phase.InReceive?
    ensures Rank(ReceiveStep(s).phase) < Rank(s.phase) && ReceiveStep(s).mu == s.mu
  {
  }

  lemma {:induction false} AnswerProgresses(s: State, ok: bool)
    requires s.phase.InAnswer?
    ensures Rank(AnswerStep(s, ok).phase) < Rank(s.phase) && AnswerStep(s, ok).mu == s.mu
  {
    match s.phase.ap {
      case SettingRemote =>
      case CreatingAnswer =>
      case SettingAnswer =>
      case GatheringAnswer =>
      case Delivering =>
    }
  }

  lemma ApplyProgresses(s: State, ok: bool)
    requires s.phase.InApply?
    ensures Rank(ApplyStep(s, ok).phase) < Rank(s.phase) && ApplyStep(s, ok).mu == s.mu
  {
  }

  lemma {:induction false} FlushProgresses(s: State)
    requires s.phase.InFlush?
    ensures Rank(FlushStep(s).phase) < Rank(s.phase) && FlushStep(s).mu == s.mu
  {
    match s.phase.fp {
      case FlushTake =>
      case FlushCheck(_) =>
      case FlushRestore(_) =>
      case FlushPending =>
      case FlushSignaling =>
      case FlushIdleCheck =>
    }
  }

  /** With pc.mu free, a step brings the gate call closer to its end, whatever pion says. */
  lemma {:induction false} GateCallProgresses(s: State, ok: bool)
    requires s.mu.Free? && !s.phase.Idle?
    ensures Rank(GateProgress(s, ok).phase) < Rank(s.phase) && GateProgress(s, ok).mu.Free?
  {
    match s.phase {
      case TriggerCheck | Deferring => TriggerProgresses(s);
      case OfferEntry(_) | Failing => EntryProgresses(s);
      case InOffer(_, _) => OfferProgresses(s, ok);
      case InReceive(_) => ReceiveProgresses(s);
      case InAnswer(_, _, _) => AnswerProgresses(s, ok);
      case InApply(_) => ApplyProgresses(s, ok);
      case InFlush(_) => FlushProgresses(s);
    }
  }

  function Finish(n: nat): (acts: seq<Action>)
    ensures forall i :: 0 <= i < |acts| ==> acts[i] == GateStep(true)
  {
    seq(n, i => GateStep(true))
  }

  lemma {:induction false} Finishes(s: State, n: nat)
    requires s.mu.Free? && Rank(s.phase) <= n
    ensures Run(s, Finish(n)).phase.Idle? && Run(s, Finish(n)).mu.Free?
    decreases n
  {
    if n > 0 {
      var t := Next(s, GateStep(true));
      if !s.phase.Idle? { GateCallProgresses(s, true); }
      assert Finish(n)[0] == GateStep(true) && Finish(n)[1..] == Finish(n - 1);
      Finishes(t, n - 1);
    }
  }

  // ---------------------------------------------------------------- coming to rest

  /** Nothing outstanding, nothing stored, nothing pending, and the last offer covers the last change. */
  predicate Quiescent(s: State) {
    && s.phase.Idle? && s.mu.Free? && s.sig.Stable? && s.pendingInboundOffer.None? && !s.pendingNegotiation
    && !s.isNegotiating && s.lastOfferGeneration == s.negotiationGeneration
  }

  /** The state a script starts from and comes back to. */
  ghost predicate Ready(s: State) {
    Inv(s) && Serving(s) && s.phase.Idle? && s.mu.Free?
  }

  /** The current generation is taken care of, or the trigger in progress is about to. */
  predicate Asking(s: State) { Demanded(s, s.negotiationGeneration) }

  /** Gate steps leave sender changes and pc.mu alone. */
  predicate GateFrame(s: State, t: State) {
    t.negotiationGeneration == s.negotiationGeneration && t.mu == s.mu
  }

  lemma TriggerKeeps(s: State)
    requires s.phase.TriggerCheck? || s.phase.Deferring?
    ensures GateFrame(s, TriggerStep(s))
  {
  }

  lemma EntryKeeps(s: State)
    requires s.phase.OfferEntry? || s.phase.Failing?
    ensures GateFrame(s, EntryStep(s))
  {
  }

  lemma {:induction false} OfferKeeps(s: State, ok: bool)
    requires s.phase.InOffer?
    ensures GateFrame(s, OfferStep(s, ok))
  {
    match s.phase.op {
      case Creating =>
      case SettingLocal =>
      case Recording =>
      case Gathering =>
      case Sending =>
    }
  }

  lemma ReceiveKeeps(s: State)
    requires s.phase.InReceive?
    ensures GateFrame(s, ReceiveStep(s))
  {
  }

  lemma {:induction false} AnswerKeeps(s: State, ok: bool)
    requires s.phase.InAnswer?
    ensures GateFrame(s, AnswerStep(s, ok))
  {
    match s.phase.ap {
      case SettingRemote =>
      case CreatingAnswer =>
      case SettingAnswer =>
      case GatheringAnswer =>
      case Delivering =>
    }
  }

  lemma ApplyKeeps(s: State, ok: bool)
    requires s.phase.InApply?
    ensures GateFrame(s, ApplyStep(s, ok))
  {
  }

  lemma {:induction false} FlushKeeps(s: State)
    requires s.phase.InFlush?
    ensures GateFrame(s, FlushStep(s))
  {
    match s.phase.fp {
      case FlushTake =>
      case FlushCheck(_) =>
      case FlushRestore(_) =>
      case FlushPending =>
      case FlushSignaling =>
      case FlushIdleCheck =>
    }
  }

  lemma {:induction false} GateKeeps(s: State, ok: bool)
    ensures GateFrame(s, GateProgress(s, ok))
  {
    match s.phase {
      case Idle =>
      case TriggerCheck | Deferring => TriggerKeeps(s);
      case OfferEntry(_) | Failing => EntryKeeps(s);
      case InOffer(_, _) => OfferKeeps(s, ok);
      case InReceive(_) => ReceiveKeeps(s);
      case InAnswer(_, _, _) => AnswerKeeps(s, ok);
      case InApply(_) => ApplyKeeps(s, ok);
      case InFlush(_) => FlushKeeps(s);
    }
  }

  lemma {:induction false} AskingGate(s: State)
    requires GenerationInv(s) && Serving(s) && Asking(s)
    ensures Asking(GateProgress(s, true))
  {
    DemandedStep(s, GateStep(true), s.negotiationGeneration);
    GateKeepsGeneration(s, true);
  }

  /** Running a draining call to its end, alone. */
  lemma {:induction false} DrainAlone(s: State, n: nat)
    requires Inv(s) && Serving(s) && Draining(s) && Asking(s) && s.mu.Free? && Rank(s.phase) <= n
    ensures var t := Run(s, Finish(n));
            Ready(t) && Draining(t) && Owed(t, t.negotiationGeneration)
    decreases n
  {
    if n == 0 {
      assert Finish(0) == [];
    } else {
      var t := Next(s, GateStep(true));
      NextInv(s, GateStep(true));
      DrainGate(s);
      AskingGate(s);
      GateKeeps(s, true);
      if !s.phase.Idle? { GateCallProgresses(s, true); }
      assert Finish(n)[0] == GateStep(true) && Finish(n)[1..] == Finish(n - 1);
      DrainAlone(t, n - 1);
    }
  }

  /** One draining call from a ready state that has, or gets, its generation taken care of. */
  lemma {:induction false} DrainCall(s: State, a: Action)
    requires Ready(s)
    requires (s.sig.Stable? && a == Trigger(true)) ||
             (s.sig.HaveLocalOffer? && a.BrowserAnswer? && Owed(s, s.negotiationGeneration))
    ensures var t := Run(s, [a] + Finish(20));
            && Ready(t) && Draining(t)
            && t.lastOfferGeneration == t.negotiationGeneration
  {
    var u := Next(s, a);
    NextInv(s, a);
    DrainEntered(s, a);
    assert u.phase.TriggerCheck? || a.BrowserAnswer?;
    DrainAlone(u, 20);
    assert ([a] + Finish(20))[1..] == Finish(20);
  }

  /** A trigger behind our own outstanding offer arms the need. */
  lemma {:induction false} TriggerBehindOffer(s: State)
    requires Ready(s) && s.sig.HaveLocalOffer?
    ensures var t := Run(s, [Trigger(true), GateStep(true), GateStep(true)]);
            Ready(t) && t.sig.HaveLocalOffer? && Owed(t, t.negotiationGeneration)
  {
    var acts := [Trigger(true), GateStep(true), GateStep(true)];
    RunInv(s, acts);
    var v := Next(Next(s, Trigger(true)), GateStep(true));
    RunTwo(s, Trigger(true), GateStep(true));
    RunOne(v, GateStep(true));
    RunAppend(s, [Trigger(true), GateStep(true)], [GateStep(true)]);
    assert acts == [Trigger(true), GateStep(true)] + [GateStep(true)];
    DeferredBehindOffer(s);
  }

  lemma {:induction false} DeferredBehindOffer(s: State)
    requires Serving(s) && s.phase.Idle? && s.mu.Free? && s.sig.HaveLocalOffer?
    ensures var t := Next(Next(Next(s, Trigger(true)), GateStep(true)), GateStep(true));
            t == Arm(s) || t == Arm(s).(phase := Idle)
  {
    var u := Next(s, Trigger(true));
    assert u == s.(phase := Deferring) || u == s.(phase := TriggerCheck);
    if u.phase.TriggerCheck? {
      assert Next(u, GateStep(true)) == s.(phase := Deferring);
    } else {
      assert Next(u, GateStep(true)) == Arm(s);
    }
    assert Next(s.(phase := Deferring), GateStep(true)) == Arm(s);
  }

  /** The browser answers and nothing is left to do. */
  predicate Settling(s: State) {
    && s.pendingInboundOffer.None? && !s.pendingNegotiation && s.lastOfferGeneration == s.negotiationGeneration
    && (match s.phase
        case Idle => s.sig.Stable?
        case InApply(pp) => if pp.ClearNegotiating? then s.sig.Stable? else s.sig.HaveLocalOffer?
        case InFlush(fp) => (fp.FlushTake? || fp.FlushPending?) && s.sig.Stable?
        case _ => false)
  }

  lemma {:induction false} SettlingGate(s: State)
    requires Settling(s)
    ensures Settling(GateProgress(s, true))
  {
    match s.phase {
      case InApply(pp) => assert !s.phase.NeedsMu() || s.mu.Free? ==> Settling(ApplyStep(s, true));
      case InFlush(fp) => assert !s.phase.NeedsMu() || s.mu.Free? ==> Settling(FlushStep(s));
      case Idle =>
    }
  }

  lemma {:induction false} SettlingRun(s: State, n: nat)
    requires Settling(s)
    ensures Settling(Run(s, Finish(n)))
    decreases n
  {
    if n == 0 {
      assert Finish(0) == [];
    } else {
      SettlingGate(s);
      assert Finish(n)[0] == GateStep(true) && Finish(n)[1..] == Finish(n - 1);
      SettlingRun(Next(s, GateStep(true)), n - 1);
    }
  }

  lemma {:induction false} AnswerComesToRest(s: State)
    requires Ready(s) && Draining(s)
    requires s.lastOfferGeneration == s.negotiationGeneration
    ensures exists acts :: Quiescent(Run(s, acts))
  {
    if s.sig.Stable? {
      assert Run(s, []) == s;
      assert Quiescent(Run(s, []));
    } else {
      var acts := [BrowserAnswer] + Finish(20);
      assert acts[1..] == Finish(20);
      DrainCall(s, BrowserAnswer);
      assert Settling(Next(s, BrowserAnswer));
      SettlingRun(Next(s, BrowserAnswer), 20);
      assert Quiescent(Run(s, acts));
    }
  }

  lemma {:induction false} Extends(s: State, first: seq<Action>)
    requires exists acts :: Quiescent(Run(Run(s, first), acts))
    ensures exists acts :: Quiescent(Run(s, acts))
  {
    var acts :| Quiescent(Run(Run(s, first), acts));
    RunAppend(s, first, acts);
    assert Quiescent(Run(s, first + acts));
  }

  /** From stable or have-local-offer, one trigger and at most two browser answers bring the gate to rest. */
  lemma {:induction false} ComesToRest(s: State)
    requires Ready(s) && !s.sig.HaveRemoteOffer?
    ensures exists acts :: Quiescent(Run(s, acts))
  {
    if s.sig.Stable? {
      var first := [Trigger(true)] + Finish(20);
      DrainCall(s, Trigger(true));
      AnswerComesToRest(Run(s, first));
      Extends(s, first);
    } else {
      var first := [Trigger(true), GateStep(true), GateStep(true)];
      TriggerBehindOffer(s);
      var t := Run(s, first);
      var second := [BrowserAnswer] + Finish(20);
      DrainCall(t, BrowserAnswer);
      AnswerComesToRest(Run(t, second));
      Extends(t, second);
      Extends(s, first);
    }
  }

  // ---------------------------------------------------------------- the wedge

  /** A failed answer exchange that pion left in have-remote-offer. */
  predicate Wedged(s: State) {
    s.sig.SignalingClosed? ||
    (s.sig.HaveRemoteOffer? && s.pendingInboundOffer.None? &&
     match s.phase
     case Idle | TriggerCheck | Deferring => true
     case InReceive(rp) => rp.OfferCheck?
     case InApply(pp) => pp.AnswerCheck?
     case InFlush(fp) => fp.FlushTake? || fp.FlushPending? || fp.FlushSignaling?
     case _ => false)
  }

  lemma WedgedTrigger(s: State)
    requires Wedged(s) && (s.phase.TriggerCheck? || s.phase.Deferring?)
    ensures Wedged(TriggerStep(s))
  {
  }

  lemma WedgedEntry(s: State)
    requires Wedged(s) && (s.phase.OfferEntry? || s.phase.Failing?)
    ensures Wedged(EntryStep(s))
  {
  }

  lemma {:induction false} WedgedOffer(s: State, ok: bool)
    requires Wedged(s) && s.phase.InOffer?
    ensures Wedged(OfferStep(s, ok))
  {
    match s.phase.op {
      case Creating =>
      case SettingLocal =>
      case Recording =>
      case Gathering =>
      case Sending =>
    }
  }

  lemma WedgedReceive(s: State)
    requires Wedged(s) && s.phase.InReceive?
    ensures Wedged(ReceiveStep(s))
  {
  }

  lemma {:induction false} WedgedAnswer(s: State, ok: bool)
    requires Wedged(s) && s.phase.InAnswer?
    ensures Wedged(AnswerStep(s, ok))
  {
    match s.phase.ap {
      case SettingRemote =>
      case CreatingAnswer =>
      case SettingAnswer =>
      case GatheringAnswer =>
      case Delivering =>
    }
  }

  lemma WedgedApply(s: State, ok: bool)
    requires Wedged(s) && s.phase.InApply?
    ensures Wedged(ApplyStep(s, ok))
  {
  }

  lemma {:induction false} WedgedFlush(s: State)
    requires Wedged(s) && s.phase.InFlush?
    ensures Wedged(FlushStep(s))
  {
    match s.phase.fp {
      case FlushTake =>
      case FlushCheck(_) =>
      case FlushRestore(_) =>
      case FlushPending =>
      case FlushSignaling =>
      case FlushIdleCheck =>
    }
  }

  lemma {:induction false} WedgedGate(s: State, ok: bool)
    requires Wedged(s)
    ensures Wedged(GateProgress(s, ok))
  {
    match s.phase {
      case Idle =>
      case TriggerCheck | Deferring => WedgedTrigger(s);
      case OfferEntry(_) | Failing => WedgedEntry(s);
      case InOffer(_, _) => WedgedOffer(s, ok);
      case InReceive(_) => WedgedReceive(s);
      case InAnswer(_, _, _) => WedgedAnswer(s, ok);
      case InApply(_) => WedgedApply(s, ok);
      case InFlush(_) => WedgedFlush(s);
    }
  }

  lemma {:induction false} WedgedElsewhere(s: State, a: Action)
    requires Wedged(s) && !a.GateStep?
    ensures Wedged(Next(s, a))
  {
    if a.IsGate() { assert Wedged(EnterStep(s, a)); } else { assert Wedged(MuStep(s, a)); }
  }

  lemma {:induction false} WedgedStep(s: State, a: Action)
    requires Wedged(s)
    ensures Wedged(Next(s, a))
  {
    if a.GateStep? { WedgedGate(s, a.ok); } else { WedgedElsewhere(s, a); }
  }

  lemma {:induction false} WedgedForever(s: State, acts: seq<Action>)
    requires Wedged(s)
    ensures Wedged(Run(s, acts)) && !Run(s, acts).sig.Stable?
    decreases |acts|
  {
    if acts != [] {
      WedgedStep(s, acts[0]);
      WedgedForever(Next(s, acts[0]), acts[1..]);
    }
  }

  /**
   A quiet connection that is up can be brought to rest if and only if pion is not in have-remote-offer;
   from have-remote-offer no run of any length ever returns to stable.
   */
  lemma {:induction false} RecoverableIff(s: State)
    requires Ready(s)
    ensures (exists acts :: Quiescent(Run(s, acts))) <==> !s.sig.HaveRemoteOffer?
    ensures s.sig.HaveRemoteOffer? ==> forall acts :: !Run(s, acts).sig.Stable?
  {
    if s.sig.HaveRemoteOffer? {
      forall acts
        ensures !Run(s, acts).sig.Stable?
      {
        WedgedForever(s, acts);
      }
    } else {
      ComesToRest(s);
    }
  }

  /** The wedge is reachable: pion takes the browser's offer and then fails to create the answer. */
  lemma {:induction false} WedgeReachable()
    ensures var s := Reached(true, [BrowserOffer, GateStep(true), GateStep(true), GateStep(false)]);
            Ready(s) && s.sig.HaveRemoteOffer?
  {
    var acts := [BrowserOffer, GateStep(true), GateStep(true), GateStep(false)];
    ReachedInv(true, acts);
    var a := Init(true);
    OfferArrives();
    RunTwo(a, BrowserOffer, GateStep(true));
    FailedAnswerWedges(Next(Next(a, BrowserOffer), GateStep(true)));
    assert acts == [BrowserOffer, GateStep(true)] + [GateStep(true), GateStep(false)];
    RunAppend(a, [BrowserOffer, GateStep(true)], [GateStep(true), GateStep(false)]);
  }

  lemma {:induction false} OfferArrives()
    ensures var c := Next(Next(Init(true), BrowserOffer), GateStep(true));
            Alike(Init(true), c) && c.phase == InAnswer(SettingRemote, 0, Inline) && c.sig.Stable?
  {
    var b := Init(true).(phase := InReceive(OfferCheck));
    assert Next(Init(true), BrowserOffer) == b;
    assert Next(b, GateStep(true)) == ReceiveStep(b);
  }

  /** Every answer exchange that fails between set-remote and set-local, or at set-local, ends wedged. */
  lemma {:induction false} FailedAnswerWedges(s: State)
    requires s.phase.InAnswer? && s.phase.ap.SettingRemote? && s.sig.Stable?
    ensures WedgedFrom(s, Run(s, [GateStep(true), GateStep(false)]))
    ensures WedgedFrom(s, Run(s, [GateStep(true), GateStep(true), GateStep(false)]))
  {
    var b := Next(s, GateStep(true));
    RemoteSet(s);
    AnswerCreated(b);
    RunTwo(s, GateStep(true), GateStep(false));
    RunTwo(s, GateStep(true), GateStep(true));
    RunAppend(s, [GateStep(true), GateStep(true)], [GateStep(false)]);
    RunOne(Next(b, GateStep(true)), GateStep(false));
    assert [GateStep(true), GateStep(true)] + [GateStep(false)] == [GateStep(true), GateStep(true), GateStep(false)];
    SettingFails(b);
    SettingFails(Next(b, GateStep(true)));
  }

  /** As far as the wedge is concerned, t is s. */
  predicate Alike(s: State, t: State) {
    t.mu == s.mu && t.conn == s.conn && t.hasSender == s.hasSender
  }

  lemma RemoteSet(s: State)
    requires s.phase.InAnswer? && s.phase.ap.SettingRemote? && s.sig.Stable?
    ensures var t := Next(s, GateStep(true));
            Alike(s, t) && t.sig.HaveRemoteOffer? && t.phase == s.phase.(ap := CreatingAnswer)
  {
  }

  lemma AnswerCreated(s: State)
    requires s.phase.InAnswer? && s.phase.ap.CreatingAnswer? && s.sig.HaveRemoteOffer?
    ensures var t := Next(s, GateStep(true));
            Alike(s, t) && t.sig.HaveRemoteOffer? && t.phase == s.phase.(ap := SettingAnswer)
  {
  }

  /** The gate is idle again and pion is left in have-remote-offer. */
  predicate WedgedFrom(s: State, t: State) { t.phase.Idle? && t.sig.HaveRemoteOffer? && Alike(s, t) }

  lemma SettingFails(s: State)
    requires s.phase.InAnswer? && (s.phase.ap.CreatingAnswer? || s.phase.ap.SettingAnswer?) && s.sig.HaveRemoteOffer?
    ensures WedgedFrom(s, Next(s, GateStep(false)))
  {
  }
}
