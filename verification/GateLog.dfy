/**
 What the event log of the gate says in every reachable state: each accepted browser offer has at most
 one fate, fates follow arrival order, a server offer is sent only when no stored browser offer waits,
 and server offers alternate with the answers that complete them.
 */
module GateLog {
  import opened Prelude
  import opened Gate
  import opened GateInvariant

  // ---------------------------------------------------------------- what the log says

  /** The browser offers that have met their fate, in log order. */
  function SettledIds(log: seq<Event>): seq<OfferId> {
    if log == [] then []
    else
      var last := log[|log| - 1];
      SettledIds(log[..|log| - 1]) + (if last.Settled? then [last.id] else [])
  }

  /** A server offer is live and unanswered at the end of the log. */
  predicate Outstanding(log: seq<Event>) {
    log != [] &&
    var last := log[|log| - 1];
    last.OfferLive? || (!last.AnswerApplied? && Outstanding(log[..|log| - 1]))
  }

  /** A server offer goes live only when none is outstanding; an answer applies only when one is. */
  predicate Alternates(log: seq<Event>) {
    log == [] ||
    var last := log[|log| - 1];
    var rest := log[..|log| - 1];
    Alternates(rest) && (last.OfferLive? ==> !Outstanding(rest)) && (last.AnswerApplied? ==> Outstanding(rest))
  }

  ghost predicate SettledBetween(log: seq<Event>, j: int, i: int, id: OfferId)
    requires 0 <= j <= i <= |log|
  {
    exists k :: j < k < i && log[k].Settled? && log[k].id == id
  }

  /** No server offer is sent while a browser offer stored earlier has not met its fate. */
  ghost predicate AnswersFirst(log: seq<Event>) {
    forall i, j :: 0 <= j < i < |log| && log[i].OfferSent? && log[j].Stored? ==> SettledBetween(log, j, i, log[j].id)
  }

  /** Every stored browser offer has met its fate or is still open. */
  ghost predicate StoredAccounted(log: seq<Event>, open: seq<OfferId>) {
    forall j :: 0 <= j < |log| && log[j].Stored? ==> log[j].id in open || SettledBetween(log, j, |log|, log[j].id)
  }

  lemma {:induction false} LogAppend(log: seq<Event>, e: Event)
    ensures SettledIds(log + [e]) == SettledIds(log) + (if e.Settled? then [e.id] else [])
    ensures Outstanding(log + [e]) == (e.OfferLive? || (!e.AnswerApplied? && Outstanding(log)))
    ensures Alternates(log + [e]) ==
            (Alternates(log) && (e.OfferLive? ==> !Outstanding(log)) && (e.AnswerApplied? ==> Outstanding(log)))
  {
    assert (log + [e])[..|log + [e]| - 1] == log;
  }

  lemma {:induction false} SettledStays(log: seq<Event>, e: Event, j: int, i: int, id: OfferId)
    requires 0 <= j <= i <= |log| && SettledBetween(log, j, i, id)
    ensures SettledBetween(log + [e], j, i, id) && SettledBetween(log + [e], j, |log| + 1, id)
  {
    var k :| j < k < i && log[k].Settled? && log[k].id == id;
    assert (log + [e])[k] == log[k];
  }

  // ---------------------------------------------------------------- the invariant

  /** The accepted browser offers still without a fate: the stored one, then the one in hand. */
  function Open(s: State): seq<OfferId> {
    (if s.pendingInboundOffer.Some? then [s.pendingInboundOffer.value] else []) +
    (if s.phase.Hand().Some? then [s.phase.Hand().value] else [])
  }

  predicate CountsUp(s: seq<nat>, n: nat) { |s| == n && forall i :: 0 <= i < n ==> s[i] == i }

  ghost predicate LogOk(log: seq<Event>, open: seq<OfferId>, arrived: nat) {
    && CountsUp(SettledIds(log) + open, arrived)
    && StoredAccounted(log, open)
    && AnswersFirst(log)
    && Alternates(log)
  }

  predicate SignalingMatches(log: seq<Event>, sig: Signaling) {
    sig.SignalingClosed? || Outstanding(log) == sig.HaveLocalOffer?
  }

  ghost predicate LogInv(s: State) {
    LogOk(s.h.log, Open(s), s.h.arrived) && SignalingMatches(s.h.log, s.sig)
  }

  // ---------------------------------------------------------------- how one event changes it

  /** The oldest open offer meets its fate. */
  lemma {:induction false} Settle(log: seq<Event>, id: OfferId, rest: seq<OfferId>, arrived: nat, f: Fate)
    requires LogOk(log, [id] + rest, arrived)
    ensures LogOk(log + [Settled(id, f)], rest, arrived)
    ensures Outstanding(log + [Settled(id, f)]) == Outstanding(log)
  {
    var e := Settled(id, f);
    LogAppend(log, e);
    assert SettledIds(log + [e]) + rest == SettledIds(log) + ([id] + rest);
    OtherEventOrder(log, e);
    forall j | 0 <= j < |log + [e]| && (log + [e])[j].Stored?
      ensures (log + [e])[j].id in rest || SettledBetween(log + [e], j, |log| + 1, (log + [e])[j].id)
    {
      if log[j].id == id {
        assert (log + [e])[|log|].Settled?;
      } else if log[j].id !in rest {
        SettledStays(log, e, j, |log|, log[j].id);
      }
    }
  }

  lemma {:induction false} OtherEventOrder(log: seq<Event>, e: Event)
    requires AnswersFirst(log) && !e.OfferSent?
    ensures AnswersFirst(log + [e])
  {
    forall i, j | 0 <= j < i < |log + [e]| && (log + [e])[i].OfferSent? && (log + [e])[j].Stored?
      ensures SettledBetween(log + [e], j, i, (log + [e])[j].id)
    {
      SettledStays(log, e, j, i, log[j].id);
    }
  }

  lemma {:induction false} SentOrder(log: seq<Event>, g: nat)
    requires AnswersFirst(log) && StoredAccounted(log, [])
    ensures AnswersFirst(log + [OfferSent(g)])
  {
    var e := OfferSent(g);
    forall i, j | 0 <= j < i < |log + [e]| && (log + [e])[i].OfferSent? && (log + [e])[j].Stored?
      ensures SettledBetween(log + [e], j, i, (log + [e])[j].id)
    {
      SettledStays(log, e, j, if i < |log| then i else |log|, log[j].id);
    }
  }

  /** An event that settles nothing; a server offer is sent only with no offer open. */
  lemma {:induction false} Record(log: seq<Event>, open: seq<OfferId>, arrived: nat, e: Event)
    requires LogOk(log, open, arrived) && !e.Settled?
    requires e.OfferSent? ==> open == []
    requires e.Stored? ==> e.id in open
    requires e.OfferLive? ==> !Outstanding(log)
    requires e.AnswerApplied? ==> Outstanding(log)
    ensures LogOk(log + [e], open, arrived)
    ensures Outstanding(log + [e]) == (e.OfferLive? || (!e.AnswerApplied? && Outstanding(log)))
  {
    LogAppend(log, e);
    assert SettledIds(log + [e]) == SettledIds(log);
    if e.OfferSent? { SentOrder(log, e.gen); } else { OtherEventOrder(log, e); }
    forall j | 0 <= j < |log + [e]| && (log + [e])[j].Stored?
      ensures (log + [e])[j].id in open || SettledBetween(log + [e], j, |log| + 1, (log + [e])[j].id)
    {
      if j < |log| && log[j].id !in open { SettledStays(log, e, j, |log|, log[j].id); }
    }
  }

  /** A browser offer is accepted under the next number. */
  lemma {:induction false} Accept(log: seq<Event>, open: seq<OfferId>, arrived: nat)
    requires LogOk(log, open, arrived)
    ensures LogOk(log, open + [arrived], arrived + 1)
  {
    assert SettledIds(log) + (open + [arrived]) == SettledIds(log) + open + [arrived];
  }

  // ---------------------------------------------------------------- every step keeps it

  predicate SameLog(s: State, t: State) {
    && t.h.log == s.h.log && t.h.arrived == s.h.arrived && Open(t) == Open(s)
    && (t.sig == s.sig || t.sig.SignalingClosed? || (!s.sig.SignalingClosed? && t.sig.HaveLocalOffer? == s.sig.HaveLocalOffer?))
  }

  lemma LogFrame(s: State, t: State)
    requires LogInv(s) && SameLog(s, t)
    ensures LogInv(t)
  {
  }

  lemma {:induction false} LogMu(s: State, a: Action)
    requires LogInv(s) && !a.IsGate()
    ensures LogInv(MuStep(s, a))
  {
    if a.CloseEnd? && s.mu.Closing? && a.pionOk && s.pendingInboundOffer.Some? {
      LogClose(s);
    } else {
      MuKeepsLog(s, a);
      LogFrame(s, MuStep(s, a));
    }
  }

  lemma {:induction false} LogClose(s: State)
    requires LogInv(s) && s.mu.Closing? && s.pendingInboundOffer.Some?
    ensures LogInv(MuStep(s, CloseEnd(true)))
  {
    var t := MuStep(s, CloseEnd(true));
    var id := s.pendingInboundOffer.value;
    assert Open(s) == [id] + Open(t);
    Settle(s.h.log, id, Open(t), s.h.arrived, DroppedAtClose);
  }

  lemma {:induction false} MuKeepsLog(s: State, a: Action)
    requires !a.IsGate() && !(a.CloseEnd? && s.mu.Closing? && a.pionOk && s.pendingInboundOffer.Some?)
    ensures SameLog(s, MuStep(s, a))
  {
    var t := MuStep(s, a);
    MuKeepsOffers(s, a);
    assert t.pendingInboundOffer == s.pendingInboundOffer && t.phase == s.phase;
  }

  lemma {:induction false} MuKeepsOffers(s: State, a: Action)
    requires !a.IsGate() && !(a.CloseEnd? && s.mu.Closing? && a.pionOk && s.pendingInboundOffer.Some?)
    ensures var t := MuStep(s, a);
            && t.pendingInboundOffer == s.pendingInboundOffer && t.phase == s.phase
            && t.h.log == s.h.log && t.h.arrived == s.h.arrived && (t.sig == s.sig || t.sig.SignalingClosed?)
  {
    match a {
      case AddBegin(_) =>
      case AddDetach =>
      case AddReattach =>
      case AddCommit =>
      case AddAbort =>
      case RemoveBegin(_, _) =>
      case RemoveCommit =>
      case CloseBegin =>
      case CloseEnd(_) =>
      case ConnChange(_) =>
      case SetSender(_) =>
    }
  }

  lemma {:induction false} LogEnter(s: State, a: Action)
    requires LogInv(s) && a.IsGate() && !a.GateStep?
    ensures LogInv(EnterStep(s, a))
  {
    LogFrame(s, EnterStep(s, a));
  }

  lemma {:induction false} LogTrigger(s: State)
    requires LogInv(s) && (s.phase.TriggerCheck? || s.phase.Deferring?)
    ensures LogInv(TriggerStep(s))
  {
    LogFrame(s, TriggerStep(s));
  }

  lemma {:induction false} LogEntry(s: State)
    requires LogInv(s) && (s.phase.OfferEntry? || s.phase.Failing?)
    ensures LogInv(EntryStep(s))
  {
    if s.phase.Failing? {
      LogRecord(s, EntryStep(s), OfferFailed);
    } else {
      LogFrame(s, EntryStep(s));
    }
  }

  /** One event of the gate call itself is logged. */
  lemma {:induction false} LogRecord(s: State, t: State, e: Event)
    requires LogInv(s) && t.h.log == s.h.log + [e] && t.h.arrived == s.h.arrived && Open(t) == Open(s)
    requires e.OfferLive? || e.OfferSent? || e.OfferFailed? || e.AnswerApplied?
    requires e.OfferSent? ==> Open(s) == []
    requires if e.OfferLive? then s.sig.Stable? && t.sig.HaveLocalOffer?
             else if e.AnswerApplied? then s.sig.HaveLocalOffer? && t.sig.Stable? else t.sig == s.sig
    ensures LogInv(t)
  {
    Record(s.h.log, Open(s), s.h.arrived, e);
  }

  lemma {:induction false} LogLive(s: State)
    requires GlareInv(s) && LogInv(s) && s.phase.InOffer? && s.phase.op.SettingLocal? && s.sig.Stable?
    ensures LogInv(OfferStep(s, true))
  {
    LiveEffect(s);
    LogRecord(s, OfferStep(s, true), OfferLive(s.phase.g));
  }

  lemma LiveEffect(s: State)
    requires s.phase.InOffer? && s.phase.op.SettingLocal? && s.sig.Stable?
    ensures var t := OfferStep(s, true);
            t.h.log == s.h.log + [OfferLive(s.phase.g)] && t.h.arrived == s.h.arrived && Open(t) == Open(s) && t.sig.HaveLocalOffer?
  {
  }

  lemma {:induction false} LogSent(s: State, ok: bool)
    requires GlareInv(s) && LogInv(s) && s.phase.InOffer? && s.phase.op.Sending?
    ensures LogInv(OfferStep(s, ok))
  {
    SentEffect(s, ok);
    LogRecord(s, OfferStep(s, ok), OfferSent(s.phase.g));
  }

  lemma SentEffect(s: State, ok: bool)
    requires s.phase.InOffer? && s.phase.op.Sending?
    ensures var t := OfferStep(s, ok);
            t.h.log == s.h.log + [OfferSent(s.phase.g)] && t.h.arrived == s.h.arrived && Open(t) == Open(s) && t.sig == s.sig
  {
  }

  lemma {:induction false} LogOffer(s: State, ok: bool)
    requires GlareInv(s) && LogInv(s) && s.phase.InOffer?
    ensures LogInv(OfferStep(s, ok))
  {
    if s.phase.op.SettingLocal? && s.sig.Accepts(SetLocalOffer, ok) {
      LogLive(s);
    } else if s.phase.op.Sending? {
      LogSent(s, ok);
    } else {
      OfferKeepsLog(s, ok);
      LogFrame(s, OfferStep(s, ok));
    }
  }

  lemma OfferKeepsLog(s: State, ok: bool)
    requires s.phase.InOffer? && !(s.phase.op.SettingLocal? && s.sig.Accepts(SetLocalOffer, ok)) && !s.phase.op.Sending?
    ensures SameLog(s, OfferStep(s, ok))
  {
  }

  lemma {:induction false} LogStore(s: State)
    requires LogInv(s) && s.phase.InReceive? && s.phase.rp.Storing?
    ensures LogInv(ReceiveStep(s))
  {
    var id, log, t := s.phase.rp.offer, s.h.log, ReceiveStep(s);
    assert Open(t) == [id];
    if s.pendingInboundOffer.Some? {
      var stale := s.pendingInboundOffer.value;
      assert Open(s) == [stale] + [id];
      Settle(log, stale, [id], s.h.arrived, Superseded);
      Record(log + [Settled(stale, Superseded)], [id], s.h.arrived, Stored(id));
    } else {
      assert Open(s) == [id];
      Record(log, [id], s.h.arrived, Stored(id));
    }
  }

  lemma {:induction false} LogReceive(s: State)
    requires LogInv(s) && s.phase.InReceive?
    ensures LogInv(ReceiveStep(s))
  {
    match s.phase.rp {
      case OfferCheck => LogAccept(s);
      case Storing(_) => LogStore(s);
    }
  }

  lemma {:induction false} LogAccept(s: State)
    requires LogInv(s) && s.phase == InReceive(OfferCheck)
    ensures LogInv(ReceiveStep(s))
  {
    AcceptEffect(s);
    if ReceiveStep(s).phase.Idle? { LogFrame(s, ReceiveStep(s)); } else { Accept(s.h.log, Open(s), s.h.arrived); }
  }

  lemma AcceptEffect(s: State)
    requires s.phase == InReceive(OfferCheck)
    ensures var t := ReceiveStep(s);
            && t.h.log == s.h.log && t.sig == s.sig
            && (if t.phase.Idle? then SameLog(s, t)
                else t.h.arrived == s.h.arrived + 1 && Open(t) == Open(s) + [s.h.arrived])
  {
  }

  /** A step of the answer exchange either moves on with the offer or gives it its fate. */
  lemma {:induction false} LogSettles(s: State, t: State, f: Fate)
    requires LogInv(s) && s.pendingInboundOffer.None? && s.phase.InAnswer? && t.h.arrived == s.h.arrived
    requires t.sig.SignalingClosed? || (!s.sig.SignalingClosed? && t.sig.HaveLocalOffer? == s.sig.HaveLocalOffer?)
    requires Open(t) == [] && t.h.log == s.h.log + [Settled(s.phase.id, f)]
    ensures LogInv(t)
  {
    assert Open(s) == [s.phase.id] + [];
    Settle(s.h.log, s.phase.id, [], s.h.arrived, f);
  }

  /** The exchange goes on: nothing is logged. */
  lemma {:induction false} AnswerMoves(s: State, ok: bool)
    requires s.phase.InAnswer? && AnswerStep(s, ok).phase.InAnswer?
    ensures SameLog(s, AnswerStep(s, ok))
  {
    if s.phase.ap.SettingRemote? || s.phase.ap.CreatingAnswer? { AnswerMovesEarly(s, ok); } else { AnswerMovesLate(s, ok); }
  }

  lemma {:induction false} AnswerMovesEarly(s: State, ok: bool)
    requires s.phase.InAnswer? && (s.phase.ap.SettingRemote? || s.phase.ap.CreatingAnswer?) && AnswerStep(s, ok).phase.InAnswer?
    ensures SameLog(s, AnswerStep(s, ok))
  {
    var t := AnswerStep(s, ok);
    assert t.pendingInboundOffer == s.pendingInboundOffer && t.phase.Hand() == s.phase.Hand();
  }

  lemma {:induction false} AnswerMovesLate(s: State, ok: bool)
    requires s.phase.InAnswer? && !s.phase.ap.SettingRemote? && !s.phase.ap.CreatingAnswer? && AnswerStep(s, ok).phase.InAnswer?
    ensures SameLog(s, AnswerStep(s, ok))
  {
    var t := AnswerStep(s, ok);
    assert t.pendingInboundOffer == s.pendingInboundOffer && t.phase.Hand() == s.phase.Hand();
  }

  /** The exchange ends: the offer in hand gets its fate. */
  function FateOf(s: State, ok: bool): Fate
    requires s.phase.InAnswer?
  {
    if s.phase.ap.Delivering? then AnsweredDeferred(s.hasSender)
    else if s.phase.ap.GatheringAnswer? && ok then AnsweredInline
    else if s.phase.mode.Inline? then FailedInline else FailedDeferred
  }

  lemma {:induction false} AnswerEnds(s: State, ok: bool)
    requires s.phase.InAnswer? && !AnswerStep(s, ok).phase.InAnswer?
    ensures var t := AnswerStep(s, ok);
            t.h.log == s.h.log + [Settled(s.phase.id, FateOf(s, ok))] && t.sig == s.sig &&
            t.h.arrived == s.h.arrived && t.pendingInboundOffer == s.pendingInboundOffer && t.phase.Hand().None?
  {
    match s.phase.ap {
      case SettingRemote => AnswerFailsEarly(s, ok);
      case CreatingAnswer => AnswerFailsEarly(s, ok);
      case SettingAnswer => AnswerEndsLate(s, ok);
      case GatheringAnswer => AnswerEndsLate(s, ok);
      case Delivering => AnswerDelivered(s);
    }
  }

  lemma AnswerFailsEarly(s: State, ok: bool)
    requires s.phase.InAnswer? && (s.phase.ap.SettingRemote? || s.phase.ap.CreatingAnswer?) && !AnswerStep(s, ok).phase.InAnswer?
    ensures var t := AnswerStep(s, ok);
            t.h.log == s.h.log + [Settled(s.phase.id, FateOf(s, ok))] && t.sig == s.sig &&
            t.h.arrived == s.h.arrived && t.pendingInboundOffer == s.pendingInboundOffer && t.phase.Hand().None?
  {
  }

  lemma AnswerDelivered(s: State)
    requires s.phase.InAnswer? && s.phase.ap.Delivering?
    ensures forall ok :: var t := AnswerStep(s, ok);
            t.h.log == s.h.log + [Settled(s.phase.id, FateOf(s, ok))] && t.sig == s.sig &&
            t.h.arrived == s.h.arrived && t.pendingInboundOffer == s.pendingInboundOffer && t.phase.Hand().None?
  {
  }

  lemma AnswerEndsLate(s: State, ok: bool)
    requires s.phase.InAnswer? && (s.phase.ap.SettingAnswer? || s.phase.ap.GatheringAnswer?) && !AnswerStep(s, ok).phase.InAnswer?
    ensures var t := AnswerStep(s, ok);
            t.h.log == s.h.log + [Settled(s.phase.id, FateOf(s, ok))] && t.sig == s.sig &&
            t.h.arrived == s.h.arrived && t.pendingInboundOffer == s.pendingInboundOffer && t.phase.Hand().None?
  {
  }

  lemma {:induction false} LogAnswer(s: State, ok: bool)
    requires GlareInv(s) && LogInv(s) && s.phase.InAnswer?
    ensures LogInv(AnswerStep(s, ok))
  {
    var t := AnswerStep(s, ok);
    if t.phase.InAnswer? {
      AnswerMoves(s, ok);
      LogFrame(s, t);
    } else {
      AnswerEnds(s, ok);
      LogSettles(s, t, FateOf(s, ok));
    }
  }

  lemma {:induction false} LogApply(s: State, ok: bool)
    requires LogInv(s) && s.phase.InApply?
    ensures LogInv(ApplyStep(s, ok))
  {
    ApplyEffect(s, ok);
    if s.phase.pp.ApplyingAnswer? && s.sig.Accepts(SetRemoteAnswer, ok) {
      LogRecord(s, ApplyStep(s, ok), AnswerApplied);
    } else {
      LogFrame(s, ApplyStep(s, ok));
    }
  }

  lemma {:induction false} ApplyEffect(s: State, ok: bool)
    requires s.phase.InApply?
    ensures var t := ApplyStep(s, ok);
            && t.h.arrived == s.h.arrived && Open(t) == Open(s)
            && (if s.phase.pp.ApplyingAnswer? && s.sig.Accepts(SetRemoteAnswer, ok)
                then t.h.log == s.h.log + [AnswerApplied] && t.sig.Stable? else t.h.log == s.h.log && t.sig == s.sig)
  {
    match s.phase.pp {
      case AnswerCheck =>
      case ApplyingAnswer =>
      case ClearNegotiating =>
    }
  }

  lemma {:induction false} LogFlush(s: State)
    requires GlareInv(s) && LogInv(s) && s.phase.InFlush?
    ensures LogInv(FlushStep(s))
  {
    FlushKeepsLog(s);
    LogFrame(s, FlushStep(s));
  }

  lemma {:induction false} FlushKeepsLog(s: State)
    requires GlareInv(s) && s.phase.InFlush?
    ensures SameLog(s, FlushStep(s))
  {
    match s.phase.fp {
      case FlushTake =>
      case FlushCheck(_) =>
      case FlushRestore(_) =>
      case FlushPending =>
      case FlushSignaling =>
      case FlushIdleCheck =>
    }
  }

  lemma {:induction false} LogGate(s: State, ok: bool)
    requires GlareInv(s) && LogInv(s)
    ensures LogInv(GateProgress(s, ok))
  {
    match s.phase {
      case Idle =>
      case TriggerCheck | Deferring => LogTrigger(s);
      case OfferEntry(_) | Failing => LogEntry(s);
      case InOffer(_, _) => LogOffer(s, ok);
      case InReceive(_) => LogReceive(s);
      case InAnswer(_, _, _) => LogAnswer(s, ok);
      case InApply(_) => LogApply(s, ok);
      case InFlush(_) => LogFlush(s);
    }
  }

  lemma {:induction false} LogStep(s: State, a: Action)
    requires GlareInv(s) && LogInv(s)
    ensures LogInv(Next(s, a))
  {
    if a.GateStep? { LogGate(s, a.ok); } else if a.IsGate() { LogEnter(s, a); } else { LogMu(s, a); }
  }
}
