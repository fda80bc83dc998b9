/** The inductive invariant of the negotiation gate, one family at a time. */
module GateInvariant {
  import opened Prelude
  import opened Gate

  // ---------------------------------------------------------------- glare

  /** The call met the state it needs, or a pion that was already closed. */
  predicate LegalCall(c: (Call, Signaling), closed: bool) { c.1 == c.0.From() || (closed && c.1.SignalingClosed?) }

  predicate AllLegal(calls: seq<(Call, Signaling)>, closed: bool) {
    forall i :: 0 <= i < |calls| ==> LegalCall(calls[i], closed)
  }

  predicate CallsInv(s: State) { AllLegal(s.h.calls, s.sig.SignalingClosed?) }

  lemma LegalExtend(calls: seq<(Call, Signaling)>, c: Call, sig: Signaling, closed: bool)
    requires AllLegal(calls, sig.SignalingClosed?) && LegalCall((c, sig), sig.SignalingClosed?)
    requires sig.SignalingClosed? ==> closed
    ensures AllLegal(calls + [(c, sig)], closed)
  {
  }

  /** The signaling state each phase relies on, unless Close got in. */
  predicate PhaseSignaling(p: Phase, sig: Signaling) {
    match p
    case OfferEntry(_) => sig.Stable?
    case InOffer(op, _) => if op.Creating? || op.SettingLocal? then sig.Stable? else sig.HaveLocalOffer?
    case InReceive(rp) => rp.Storing? ==> sig.HaveLocalOffer?
    case InAnswer(ap, _, _) =>
      if ap.CreatingAnswer? || ap.SettingAnswer? then sig.HaveRemoteOffer? else sig.Stable?
    case InApply(pp) =>
      (pp.ApplyingAnswer? ==> sig.HaveLocalOffer?) && (pp.ClearNegotiating? ==> sig.Stable?)
    case InFlush(fp) =>
      && (fp.FlushRestore? ==> sig.HaveLocalOffer?)
      && (fp.FlushCheck? ==> sig.Stable? || sig.HaveLocalOffer?)
      && (fp.FlushIdleCheck? ==> sig.Stable?)
    case _ => true
  }

  /** The gate holds a browser offer whose server offer has just been answered. */
  predicate JustAnswered(p: Phase) { p == InApply(ClearNegotiating) || p == InFlush(FlushTake) }

  /** A stored browser offer cannot exist while the gate is in one of these phases. */
  predicate SlotEmptyPhase(p: Phase) {
    p.InOffer? || p.InAnswer? || (p.InFlush? && !p.fp.FlushTake?)
  }

  predicate GlareInv(s: State) {
    && (s.sig.SignalingClosed? || PhaseSignaling(s.phase, s.sig))
    && (s.isNegotiating ==>
          s.sig.HaveLocalOffer? || s.sig.SignalingClosed? || s.phase.InOffer? || s.phase.Failing? ||
          s.phase == InApply(ClearNegotiating))
    && (s.pendingInboundOffer.Some? ==>
          && (s.sig.HaveLocalOffer? || s.sig.SignalingClosed? || (s.sig.Stable? && JustAnswered(s.phase)))
          && !SlotEmptyPhase(s.phase))
  }

  lemma {:induction false} GlareMu(s: State, a: Action)
    requires GlareInv(s) && !a.IsGate()
    ensures GlareInv(MuStep(s, a))
  {
    match a {
      case AddBegin(_) =>
      case AddDetach =>
      case AddReattach =>
      case AddCommit =>
      case AddAbort =>
      case RemoveBegin(_, _) =>
      case RemoveCommit =>
      case CloseBegin =>
      case CloseEnd(_) =>
      case ConnChange(_) =>
      case SetSender(_) =>
    }
  }

  lemma GlareEnter(s: State, a: Action)
    requires GlareInv(s) && a.IsGate() && !a.GateStep?
    ensures GlareInv(EnterStep(s, a))
  {
  }

  lemma GlareTrigger(s: State)
    requires GlareInv(s) && (s.phase.TriggerCheck? || s.phase.Deferring?)
    ensures GlareInv(TriggerStep(s))
  {
  }

  lemma GlareEntry(s: State)
    requires GlareInv(s) && (s.phase.OfferEntry? || s.phase.Failing?)
    ensures GlareInv(EntryStep(s))
  {
  }

  lemma {:induction false} GlareOffer(s: State, ok: bool)
    requires GlareInv(s) && s.phase.InOffer?
    ensures GlareInv(OfferStep(s, ok))
  {
    match s.phase.op {
      case Creating =>
      case SettingLocal =>
      case Recording =>
      case Gathering =>
      case Sending =>
    }
  }

  lemma GlareReceive(s: State)
    requires GlareInv(s) && s.phase.InReceive?
    ensures GlareInv(ReceiveStep(s))
  {
  }

  lemma {:induction false} GlareAnswer(s: State, ok: bool)
    requires GlareInv(s) && s.phase.InAnswer?
    ensures GlareInv(AnswerStep(s, ok))
  {
    match s.phase.ap {
      case SettingRemote =>
      case CreatingAnswer =>
      case SettingAnswer =>
      case GatheringAnswer =>
      case Delivering =>
    }
  }

  lemma {:induction false} GlareApply(s: State, ok: bool)
    requires GlareInv(s) && s.phase.InApply?
    ensures GlareInv(ApplyStep(s, ok))
  {
    match s.phase.pp {
      case AnswerCheck =>
      case ApplyingAnswer =>
      case ClearNegotiating =>
    }
  }

  lemma {:induction false} GlareFlush(s: State)
    requires GlareInv(s) && s.phase.InFlush?
    ensures GlareInv(FlushStep(s))
  {
    match s.phase.fp {
      case FlushTake =>
      case FlushCheck(_) =>
      case FlushRestore(_) =>
      case FlushPending =>
      case FlushSignaling =>
      case FlushIdleCheck =>
    }
  }

  lemma {:induction false} GlareGate(s: State, ok: bool)
    requires GlareInv(s)
    ensures GlareInv(GateProgress(s, ok))
  {
    match s.phase {
      case Idle =>
      case TriggerCheck | Deferring => GlareTrigger(s);
      case OfferEntry(_) | Failing => GlareEntry(s);
      case InOffer(_, _) => GlareOffer(s, ok);
      case InReceive(_) => GlareReceive(s);
      case InAnswer(_, _, _) => GlareAnswer(s, ok);
      case InApply(_) => GlareApply(s, ok);
      case InFlush(_) => GlareFlush(s);
    }
  }

  lemma {:induction false} GlareStep(s: State, a: Action)
    requires GlareInv(s)
    ensures GlareInv(Next(s, a))
  {
    if a.GateStep? { GlareGate(s, a.ok); } else if a.IsGate() { GlareEnter(s, a); } else { GlareMu(s, a); }
  }

  lemma {:induction false} CallsOffer(s: State, ok: bool)
    requires GlareInv(s) && CallsInv(s) && s.phase.InOffer?
    ensures CallsInv(OfferStep(s, ok))
  {
    OfferCalls(s, ok);
    if s.phase.op.SettingLocal? { LegalExtend(s.h.calls, SetLocalOffer, s.sig, s.sig.SignalingClosed?); }
  }

  lemma {:induction false} OfferCalls(s: State, ok: bool)
    requires s.phase.InOffer?
    ensures var t := OfferStep(s, ok);
            && t.h.calls == (if s.phase.op.SettingLocal? then s.h.calls + [(SetLocalOffer, s.sig)] else s.h.calls)
            && t.sig.SignalingClosed? == s.sig.SignalingClosed?
  {
    match s.phase.op {
      case Creating =>
      case SettingLocal =>
      case Recording =>
      case Gathering =>
      case Sending =>
    }
  }

  lemma {:induction false} CallsAnswer(s: State, ok: bool)
    requires GlareInv(s) && CallsInv(s) && s.phase.InAnswer?
    ensures CallsInv(AnswerStep(s, ok))
  {
    AnswerCalls(s, ok);
    if s.phase.ap.SettingRemote? { LegalExtend(s.h.calls, SetRemoteOffer, s.sig, s.sig.SignalingClosed?); }
    if s.phase.ap.SettingAnswer? { LegalExtend(s.h.calls, SetLocalAnswer, s.sig, s.sig.SignalingClosed?); }
  }

  lemma {:induction false} AnswerCalls(s: State, ok: bool)
    requires s.phase.InAnswer?
    ensures var t := AnswerStep(s, ok);
            && t.h.calls == (if s.phase.ap.SettingRemote? then s.h.calls + [(SetRemoteOffer, s.sig)]
                             else if s.phase.ap.SettingAnswer? then s.h.calls + [(SetLocalAnswer, s.sig)] else s.h.calls)
            && t.sig.SignalingClosed? == s.sig.SignalingClosed?
  {
    match s.phase.ap {
      case SettingRemote =>
      case CreatingAnswer =>
      case SettingAnswer =>
      case GatheringAnswer =>
      case Delivering =>
    }
  }

  lemma {:induction false} CallsApply(s: State, ok: bool)
    requires GlareInv(s) && CallsInv(s) && s.phase.InApply?
    ensures CallsInv(ApplyStep(s, ok))
  {
    if s.phase.pp.ApplyingAnswer? { LegalExtend(s.h.calls, SetRemoteAnswer, s.sig, s.sig.SignalingClosed?); }
  }

  /** No other step makes a description call, and a closed pion stays closed. */
  lemma {:induction false} CallsElsewhere(s: State, a: Action)
    requires !a.GateStep?
    ensures Next(s, a).h.calls == s.h.calls && (s.sig.SignalingClosed? ==> Next(s, a).sig.SignalingClosed?)
  {
    if a.IsGate() { assert EnterStep(s, a).h.calls == s.h.calls; } else { assert MuStep(s, a).h.calls == s.h.calls; }
  }

  lemma CallsQuiet(s: State)
    ensures s.phase.TriggerCheck? || s.phase.Deferring? ==> TriggerStep(s).h.calls == s.h.calls && TriggerStep(s).sig == s.sig
    ensures s.phase.OfferEntry? || s.phase.Failing? ==> EntryStep(s).h.calls == s.h.calls && EntryStep(s).sig == s.sig
  {
  }

  lemma CallsReceive(s: State)
    ensures s.phase.InReceive? ==> ReceiveStep(s).h.calls == s.h.calls && ReceiveStep(s).sig == s.sig
    ensures s.phase.InFlush? ==> FlushStep(s).h.calls == s.h.calls && FlushStep(s).sig == s.sig
  {
  }

  lemma {:induction false} CallsGate(s: State, ok: bool)
    requires GlareInv(s) && CallsInv(s)
    ensures CallsInv(GateProgress(s, ok))
  {
    match s.phase {
      case Idle =>
      case InOffer(_, _) => CallsOffer(s, ok);
      case InAnswer(_, _, _) => CallsAnswer(s, ok);
      case InApply(_) => CallsApply(s, ok);
      case TriggerCheck | Deferring => CallsQuiet(s);
      case OfferEntry(_) | Failing => CallsQuiet(s);
      case InReceive(_) => CallsReceive(s);
      case InFlush(_) => CallsReceive(s);
    }
  }

  /** Every description call reaches pion in the state the call needs, or after Close. */
  lemma {:induction false} CallsStep(s: State, a: Action)
    requires GlareInv(s) && CallsInv(s)
    ensures CallsInv(Next(s, a))
  {
    if a.GateStep? { CallsGate(s, a.ok); } else { CallsElsewhere(s, a); }
  }

  // ---------------------------------------------------------------- generations

  predicate Increasing(s: seq<nat>) { forall i, j :: 0 <= i < j < |s| ==> s[i] < s[j] }

  /** Live offers carry strictly increasing positive generations, the last one being `top`. */
  predicate LiveUpTo(gens: seq<nat>, top: nat) {
    && Increasing(gens)
    && (forall i :: 0 <= i < |gens| ==> 0 < gens[i])
    && (if gens == [] then top == 0 else gens[|gens| - 1] == top)
  }

  lemma LiveExtend(gens: seq<nat>, top: nat, g: nat)
    requires LiveUpTo(gens, top) && top < g
    ensures LiveUpTo(gens + [g], g)
  {
  }

  /** The generation of the offer that went live last: not recorded yet between set-local and record. */
  function TopLive(s: State): nat {
    if s.phase.InOffer? && s.phase.op.Recording? then s.phase.g else s.lastOfferGeneration
  }

  predicate GenerationInv(s: State) {
    && s.lastOfferGeneration <= s.negotiationGeneration
    && (s.phase.Carries() ==> s.lastOfferGeneration < s.phase.g <= s.negotiationGeneration)
    && LiveUpTo(s.h.liveGens, TopLive(s))
  }

  /** Steps that touch none of the generation bookkeeping keep its invariants. */
  predicate SameGenerations(s: State, t: State) {
    && t.negotiationGeneration == s.negotiationGeneration && t.lastOfferGeneration == s.lastOfferGeneration
    && t.h.liveGens == s.h.liveGens
    && t.h.made == s.h.made && t.h.base == s.h.base && t.senders == s.senders && t.mu == s.mu
    && !s.phase.Carries() && !t.phase.Carries()
  }

  lemma {:induction false} ReceiveKeepsGenerations(s: State)
    requires s.phase.InReceive?
    ensures SameGenerations(s, ReceiveStep(s))
  {
    match s.phase.rp {
      case OfferCheck =>
      case Storing(_) =>
    }
  }

  lemma {:induction false} AnswerKeepsGenerations(s: State, ok: bool)
    requires s.phase.InAnswer?
    ensures SameGenerations(s, AnswerStep(s, ok))
  {
    match s.phase.ap {
      case SettingRemote => AnswerKeepsEarly(s, ok);
      case CreatingAnswer => AnswerKeepsEarly(s, ok);
      case SettingAnswer => AnswerKeepsSet(s, ok);
      case GatheringAnswer => AnswerKeepsLate(s, ok);
      case Delivering => AnswerKeepsLate(s, ok);
    }
  }

  lemma AnswerKeepsEarly(s: State, ok: bool)
    requires s.phase.InAnswer? && (s.phase.ap.SettingRemote? || s.phase.ap.CreatingAnswer?)
    ensures SameGenerations(s, AnswerStep(s, ok))
  {
  }

  lemma AnswerKeepsSet(s: State, ok: bool)
    requires s.phase.InAnswer? && s.phase.ap.SettingAnswer?
    ensures SameGenerations(s, AnswerStep(s, ok))
  {
  }

  lemma AnswerKeepsLate(s: State, ok: bool)
    requires s.phase.InAnswer? && (s.phase.ap.GatheringAnswer? || s.phase.ap.Delivering?)
    ensures SameGenerations(s, AnswerStep(s, ok))
  {
  }

  lemma {:induction false} ApplyKeepsGenerations(s: State, ok: bool)
    requires s.phase.InApply?
    ensures SameGenerations(s, ApplyStep(s, ok))
  {
    match s.phase.pp {
      case AnswerCheck =>
      case ApplyingAnswer =>
      case ClearNegotiating =>
    }
  }

  lemma {:induction false} FlushKeepsGenerations(s: State)
    requires s.phase.InFlush?
    ensures SameGenerations(s, FlushStep(s))
  {
    match s.phase.fp {
      case FlushTake =>
      case FlushCheck(_) =>
      case FlushRestore(_) =>
      case FlushPending =>
      case FlushSignaling =>
      case FlushIdleCheck =>
    }
  }

  lemma GenerationFrame(s: State, t: State)
    requires GenerationInv(s) && SameGenerations(s, t)
    ensures GenerationInv(t)
  {
  }

  lemma {:induction false} GenerationMu(s: State, a: Action)
    requires GenerationInv(s) && !a.IsGate()
    ensures GenerationInv(MuStep(s, a))
  {
    var t := MuStep(s, a);
    MuGenerations(s, a);
    assert TopLive(t) == TopLive(s);
  }

  /** What the steps under pc.mu leave alone, and which way the generation goes. */
  lemma {:induction false} MuGenerations(s: State, a: Action)
    requires !a.IsGate()
    ensures var t := MuStep(s, a);
            && t.h.liveGens == s.h.liveGens && t.phase == s.phase && t.lastOfferGeneration == s.lastOfferGeneration
            && s.negotiationGeneration <= t.negotiationGeneration
  {
    match a {
      case AddBegin(_) =>
      case AddDetach =>
      case AddReattach =>
      case AddCommit =>
      case AddAbort =>
      case RemoveBegin(_, _) =>
      case RemoveCommit =>
      case CloseBegin =>
      case CloseEnd(_) =>
      case ConnChange(_) =>
      case SetSender(_) =>
    }
  }

  lemma GenerationEnter(s: State, a: Action)
    requires GenerationInv(s) && a.IsGate() && !a.GateStep?
    ensures GenerationInv(EnterStep(s, a))
  {
  }

  lemma GenerationTrigger(s: State)
    requires GenerationInv(s) && (s.phase.TriggerCheck? || s.phase.Deferring?)
    ensures GenerationInv(TriggerStep(s))
  {
  }

  lemma GenerationEntry(s: State)
    requires GenerationInv(s) && (s.phase.OfferEntry? || s.phase.Failing?)
    ensures GenerationInv(EntryStep(s))
  {
  }

  lemma {:induction false} GenerationLive(s: State, ok: bool)
    requires GenerationInv(s) && s.phase.InOffer? && s.phase.op.SettingLocal?
    ensures GenerationInv(OfferStep(s, ok))
  {
    LiveExtend(s.h.liveGens, s.lastOfferGeneration, s.phase.g);
  }

  lemma {:induction false} GenerationOffer(s: State, ok: bool)
    requires GenerationInv(s) && s.phase.InOffer?
    ensures GenerationInv(OfferStep(s, ok))
  {
    if s.phase.op.SettingLocal? {
      GenerationLive(s, ok);
    } else {
      match s.phase.op {
        case Creating =>
        case Recording =>
        case Gathering =>
        case Sending =>
      }
    }
  }

  lemma {:induction false} GenerationGate(s: State, ok: bool)
    requires GenerationInv(s)
    ensures GenerationInv(GateProgress(s, ok))
  {
    match s.phase {
      case Idle =>
      case TriggerCheck | Deferring => GenerationTrigger(s);
      case OfferEntry(_) | Failing => GenerationEntry(s);
      case InOffer(_, _) => GenerationOffer(s, ok);
      case InReceive(_) => ReceiveKeepsGenerations(s); GenerationFrame(s, ReceiveStep(s));
      case InAnswer(_, _, _) => AnswerKeepsGenerations(s, ok); GenerationFrame(s, AnswerStep(s, ok));
      case InApply(_) => ApplyKeepsGenerations(s, ok); GenerationFrame(s, ApplyStep(s, ok));
      case InFlush(_) => FlushKeepsGenerations(s); GenerationFrame(s, FlushStep(s));
    }
  }

  lemma {:induction false} GenerationStep(s: State, a: Action)
    requires GenerationInv(s)
    ensures GenerationInv(Next(s, a))
  {
    if a.GateStep? { GenerationGate(s, a.ok); } else if a.IsGate() { GenerationEnter(s, a); } else { GenerationMu(s, a); }
  }

  // ---------------------------------------------------------------- coverage

  /** pion's senders are those in the offer, plus and minus what calls that gave up have done since. */
  predicate Balance(mu: MuHolder, senders: multiset<TrackId>, b: Baseline) {
    match mu
    case Free | Closing => senders + b.missing == b.cover + b.extra
    case Adding(id) => senders + b.missing == b.cover + b.extra + (if b.mid then multiset{} else multiset{id})
    case Rehoming(id) => senders + b.missing + (if b.mid then multiset{id} else multiset{}) == b.cover + b.extra
    case Removing(_) => true
  }

  predicate CoverInv(s: State) {
    && (s.mu.Adding? ==> s.mu.id in s.senders)
    && (s.lastOfferGeneration == s.negotiationGeneration ==> Balance(s.mu, s.senders, s.h.base))
    && (s.phase.Carries() && !s.phase.op.Creating? && s.phase.g == s.negotiationGeneration ==>
          Balance(s.mu, s.senders, s.h.made))
  }

  /** How AddTrack's steps change one balance. */
  lemma {:induction false} BalanceDetach(senders: multiset<TrackId>, id: TrackId, b: Baseline)
    requires Balance(Adding(id), senders, b) && id in senders
    ensures Balance(Rehoming(id), senders - multiset{id}, b)
  {
    var rest := senders - multiset{id};
    assert senders == rest + multiset{id};
    if b.mid {
      assert rest + b.missing + multiset{id} == senders + b.missing;
    } else {
      forall x
        ensures (rest + b.missing)[x] == (b.cover + b.extra)[x]
      {
        assert (senders + b.missing)[x] == (b.cover + b.extra + multiset{id})[x];
      }
    }
  }

  lemma {:induction false} BalanceReattach(senders: multiset<TrackId>, id: TrackId, b: Baseline)
    requires Balance(Rehoming(id), senders, b)
    ensures Balance(Adding(id), senders + multiset{id}, b)
  {
    assert senders + multiset{id} + b.missing == senders + b.missing + multiset{id};
  }

  lemma {:induction false} BalanceBegin(senders: multiset<TrackId>, id: TrackId, b: Baseline)
    requires Balance(Free, senders, b)
    ensures Balance(Adding(id), senders + multiset{id}, b.Begin())
  {
    assert senders + multiset{id} + b.missing == senders + b.missing + multiset{id};
  }

  lemma {:induction false} BalanceGiveUp(m: MuHolder, senders: multiset<TrackId>, b: Baseline)
    requires Balance(m, senders, b) && (m.Adding? || m.Rehoming?)
    ensures Balance(Free, senders, b.GiveUp(m))
  {
    if m.Adding? {
      assert b.cover + b.extra + multiset{m.id} == b.cover + (b.extra + multiset{m.id});
    } else {
      assert senders + b.missing + multiset{m.id} == senders + (b.missing + multiset{m.id});
    }
  }

  /** What a step under pc.mu does to the lock and the senders, as far as balances are concerned. */
  lemma {:induction false} MuSenders(s: State, a: Action)
    requires !a.IsGate() && MuStep(s, a).negotiationGeneration == s.negotiationGeneration
    ensures var t := MuStep(s, a);
            || (a.AddBegin? && s.mu.Free? && s.conn.Usable() && t.mu == Adding(a.id) && t.senders == s.senders + multiset{a.id})
            || (a.AddDetach? && s.mu.Adding? && t.mu == Rehoming(s.mu.id) && t.senders == s.senders - multiset{s.mu.id})
            || (a.AddReattach? && s.mu.Rehoming? && t.mu == Adding(s.mu.id) && t.senders == s.senders + multiset{s.mu.id})
            || (a.AddAbort? && (s.mu.Adding? || s.mu.Rehoming?) && t.mu == Free && t.senders == s.senders)
            || (t.mu.Removing? && !a.AddAbort? && !a.AddBegin?)
            || (!(a.AddBegin? && s.mu.Free? && s.conn.Usable()) && t.senders == s.senders &&
                !(a.AddAbort? && (s.mu.Adding? || s.mu.Rehoming?)) &&
                (t.mu == s.mu || ((s.mu.Free? || s.mu.Closing?) && (t.mu.Free? || t.mu.Closing?))))
  {
    match a {
      case AddBegin(_) =>
      case AddDetach =>
      case AddReattach =>
      case AddCommit =>
      case AddAbort =>
      case RemoveBegin(_, _) =>
      case RemoveCommit =>
      case CloseBegin =>
      case CloseEnd(_) =>
      case ConnChange(_) =>
      case SetSender(_) =>
    }
  }

  lemma {:induction false} BalanceMu(s: State, a: Action, t: State, b: Baseline)
    requires !a.IsGate() && t == MuStep(s, a) && t.negotiationGeneration == s.negotiationGeneration
    requires Balance(s.mu, s.senders, b) && (s.mu.Adding? ==> s.mu.id in s.senders)
    ensures Balance(t.mu, t.senders, Carried(s, a, b))
  {
    MuSenders(s, a);
    if a.AddBegin? && s.mu.Free? && s.conn.Usable() {
      BalanceBegin(s.senders, a.id, b);
    } else if a.AddDetach? && s.mu.Adding? {
      BalanceDetach(s.senders, s.mu.id, b);
    } else if a.AddReattach? && s.mu.Rehoming? {
      BalanceReattach(s.senders, s.mu.id, b);
    } else if a.AddAbort? && (s.mu.Adding? || s.mu.Rehoming?) {
      BalanceGiveUp(s.mu, s.senders, b);
    }
  }

  /** What becomes of a baseline. */
  function Carried(s: State, a: Action, b: Baseline): Baseline {
    if a.AddBegin? && s.mu.Free? && s.conn.Usable() then b.Begin()
    else if a.AddAbort? then b.GiveUp(s.mu)
    else b
  }

  lemma CoverFrame(s: State, t: State)
    requires CoverInv(s) && SameGenerations(s, t)
    ensures CoverInv(t)
  {
  }

  lemma {:induction false} CoverMu(s: State, a: Action)
    requires GenerationInv(s) && CoverInv(s) && !a.IsGate()
    ensures CoverInv(MuStep(s, a))
  {
    CarriedMu(s, a);
    AddingHolds(s, a);
    MuGenerations(s, a);
    if MuStep(s, a).negotiationGeneration == s.negotiationGeneration {
      if s.lastOfferGeneration == s.negotiationGeneration { BalanceMu(s, a, MuStep(s, a), s.h.base); }
      if s.phase.Carries() && !s.phase.op.Creating? && s.phase.g == s.negotiationGeneration { BalanceMu(s, a, MuStep(s, a), s.h.made); }
    }
  }

  lemma {:induction false} CarriedMu(s: State, a: Action)
    requires !a.IsGate()
    ensures MuStep(s, a).h.base == Carried(s, a, s.h.base) && MuStep(s, a).h.made == Carried(s, a, s.h.made)
  {
    match a {
      case AddBegin(_) =>
      case AddDetach =>
      case AddReattach =>
      case AddCommit =>
      case AddAbort =>
      case RemoveBegin(_, _) =>
      case RemoveCommit =>
      case CloseBegin =>
      case CloseEnd(_) =>
      case ConnChange(_) =>
      case SetSender(_) =>
    }
  }

  lemma {:induction false} AddingHolds(s: State, a: Action)
    requires !a.IsGate() && (s.mu.Adding? ==> s.mu.id in s.senders)
    ensures MuStep(s, a).mu.Adding? ==> MuStep(s, a).mu.id in MuStep(s, a).senders
  {
    match a {
      case AddBegin(_) =>
      case AddDetach =>
      case AddReattach =>
      case AddCommit =>
      case AddAbort =>
      case RemoveBegin(_, _) =>
      case RemoveCommit =>
      case CloseBegin =>
      case CloseEnd(_) =>
      case ConnChange(_) =>
      case SetSender(_) =>
    }
  }

  lemma CoverEnter(s: State, a: Action)
    requires GenerationInv(s) && CoverInv(s) && a.IsGate() && !a.GateStep?
    ensures CoverInv(EnterStep(s, a))
  {
  }

  lemma CoverTrigger(s: State)
    requires GenerationInv(s) && CoverInv(s) && (s.phase.TriggerCheck? || s.phase.Deferring?)
    ensures CoverInv(TriggerStep(s))
  {
  }

  lemma CoverEntry(s: State)
    requires GenerationInv(s) && CoverInv(s) && (s.phase.OfferEntry? || s.phase.Failing?)
    ensures CoverInv(EntryStep(s))
  {
  }

  lemma {:induction false} CoverOffer(s: State, ok: bool)
    requires GenerationInv(s) && CoverInv(s) && s.phase.InOffer?
    ensures CoverInv(OfferStep(s, ok))
  {
    OfferCovers(s, ok);
  }

  /** Creating an offer makes a baseline, recording it makes that the recorded one. */
  lemma {:induction false} OfferCovers(s: State, ok: bool)
    requires s.phase.InOffer?
    ensures var t := OfferStep(s, ok);
            && t.mu == s.mu && t.senders == s.senders && t.negotiationGeneration == s.negotiationGeneration
            && (if s.phase.op.Recording? then t.lastOfferGeneration == s.phase.g && t.h.base == s.h.made
                else t.lastOfferGeneration == s.lastOfferGeneration && t.h.base == s.h.base)
            && (t.phase.Carries() ==>
                  && t.phase.g == s.phase.g
                  && (if s.phase.op.Creating? then t.h.made == Baseline(s.senders, multiset{}, multiset{}, s.mu.Adding?)
                      else s.phase.op.SettingLocal? && t.h.made == s.h.made))
            && !(t.phase.Carries() && t.phase.op.Creating?)
  {
    match s.phase.op {
      case Creating =>
      case SettingLocal =>
      case Recording =>
      case Gathering =>
      case Sending =>
    }
  }

  lemma {:induction false} CoverGate(s: State, ok: bool)
    requires GenerationInv(s) && CoverInv(s)
    ensures CoverInv(GateProgress(s, ok))
  {
    match s.phase {
      case Idle =>
      case TriggerCheck | Deferring => CoverTrigger(s);
      case OfferEntry(_) | Failing => CoverEntry(s);
      case InOffer(_, _) => CoverOffer(s, ok);
      case InReceive(_) => ReceiveKeepsGenerations(s); CoverFrame(s, ReceiveStep(s));
      case InAnswer(_, _, _) => AnswerKeepsGenerations(s, ok); CoverFrame(s, AnswerStep(s, ok));
      case InApply(_) => ApplyKeepsGenerations(s, ok); CoverFrame(s, ApplyStep(s, ok));
      case InFlush(_) => FlushKeepsGenerations(s); CoverFrame(s, FlushStep(s));
    }
  }

  lemma {:induction false} CoverStep(s: State, a: Action)
    requires GenerationInv(s) && CoverInv(s)
    ensures CoverInv(Next(s, a))
  {
    if a.GateStep? { CoverGate(s, a.ok); } else if a.IsGate() { CoverEnter(s, a); } else { CoverMu(s, a); }
  }
}
