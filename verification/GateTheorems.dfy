/** The promises of the negotiation gate, over every interleaving of every run. */
module GateTheorems {
  import opened Prelude
  import opened Gate
  import opened GateInvariant
  import opened GateLog

  ghost predicate Inv(s: State) {
    GlareInv(s) && CallsInv(s) && GenerationInv(s) && CoverInv(s) && LogInv(s)
  }

  lemma InitInv(hasSender: bool)
    ensures Inv(Init(hasSender))
  {
  }

  lemma {:induction false} NextInv(s: State, a: Action)
    requires Inv(s)
    ensures Inv(Next(s, a))
  {
    GlareStep(s, a);
    CallsStep(s, a);
    GenerationStep(s, a);
    CoverStep(s, a);
    LogStep(s, a);
  }

  lemma {:induction false} RunInv(s: State, acts: seq<Action>)
    requires Inv(s)
    ensures Inv(Run(s, acts))
    decreases |acts|
  {
    if acts != [] {
      NextInv(s, acts[0]);
      RunInv(Next(s, acts[0]), acts[1..]);
    }
  }

  /** The state after any interleaving from a fresh connection. */
  function Reached(hasSender: bool, acts: seq<Action>): State { Run(Init(hasSender), acts) }

  lemma {:induction false} ReachedInv(hasSender: bool, acts: seq<Action>)
    ensures Inv(Reached(hasSender, acts))
  {
    InitInv(hasSender);
    RunInv(Init(hasSender), acts);
  }

  // ---------------------------------------------------------------- glare freedom

  /**
   In every run, set-local(offer) and set-remote(offer) reach pion only in stable, set-remote(answer) only in
   have-local-offer and set-local(answer) only in have-remote-offer, as long as pion is not closed; and between
   gate calls a negotiation flag or a stored browser offer means that our own offer is outstanding.
   */
  lemma {:induction false} GlareFreedom(hasSender: bool, acts: seq<Action>)
    ensures var s := Reached(hasSender, acts);
            && (!s.sig.SignalingClosed? ==>
                  forall i :: 0 <= i < |s.h.calls| ==> s.h.calls[i].1 == s.h.calls[i].0.From())
            && (forall i :: 0 <= i < |s.h.calls| ==>
                  s.h.calls[i].1 == s.h.calls[i].0.From() || s.h.calls[i].1.SignalingClosed?)
            && (s.phase.Idle? && !s.sig.SignalingClosed? ==>
                  (s.isNegotiating ==> s.sig.HaveLocalOffer?) &&
                  (s.pendingInboundOffer.Some? ==> s.sig.HaveLocalOffer?))
  {
    ReachedInv(hasSender, acts);
    var s := Reached(hasSender, acts);
    assert forall i :: 0 <= i < |s.h.calls| ==> LegalCall(s.h.calls[i], s.sig.SignalingClosed?);
  }

  // ---------------------------------------------------------------- the generation guard

  lemma {:induction false} IncreasingBound(gens: seq<nat>, top: nat)
    requires LiveUpTo(gens, top)
    ensures |gens| <= top
    decreases |gens|
  {
    if gens != [] {
      var rest := gens[..|gens| - 1];
      IncreasingBound(rest, if rest == [] then 0 else rest[|rest| - 1]);
    }
  }

  /**
   With sender changes interleaved anywhere: when the guard would skip and no sender change is under way, the recorded
   offer covers exactly pion's senders if and only if the AddTrack calls that gave up since it was created have left
   as many senders attached as they took out of it; live offers carry strictly increasing generations, and there are
   never more of them than counted sender changes.
   */
  lemma {:induction false} GenerationGuard(hasSender: bool, acts: seq<Action>)
    ensures var s := Reached(hasSender, acts);
            && (s.lastOfferGeneration == s.negotiationGeneration && s.mu.Free? ==>
                  (s.h.base.cover == s.senders <==> s.h.base.extra == s.h.base.missing))
            && Increasing(s.h.liveGens)
            && |s.h.liveGens| <= s.negotiationGeneration
  {
    ReachedInv(hasSender, acts);
    var s := Reached(hasSender, acts);
    IncreasingBound(s.h.liveGens, TopLive(s));
    if s.lastOfferGeneration == s.negotiationGeneration && s.mu.Free? { Cancel(s.senders, s.h.base); }
  }

  lemma {:induction false} Cancel(senders: multiset<TrackId>, b: Baseline)
    requires senders + b.missing == b.cover + b.extra
    ensures b.cover == senders <==> b.extra == b.missing
  {
    forall x
      ensures senders[x] + b.missing[x] == b.cover[x] + b.extra[x]
    {
      assert (senders + b.missing)[x] == (b.cover + b.extra)[x];
    }
  }

  /** In particular a skipped offer loses nothing while no AddTrack gives up. */
  lemma {:induction false} GuardSoundWithoutAborts(hasSender: bool, acts: seq<Action>)
    requires AddAbort !in acts
    ensures var s := Reached(hasSender, acts);
            s.lastOfferGeneration == s.negotiationGeneration && s.mu.Free? ==> s.h.base.cover == s.senders
  {
    GenerationGuard(hasSender, acts);
    NeverDrifts(Init(hasSender), acts);
  }

  predicate NoDrift(h: History) {
    && h.base.extra == h.base.missing == multiset{} && h.made.extra == h.made.missing == multiset{}
  }

  lemma {:induction false} NeverDrifts(s: State, acts: seq<Action>)
    requires NoDrift(s.h) && AddAbort !in acts
    ensures NoDrift(Run(s, acts).h)
    decreases |acts|
  {
    if acts != [] {
      KeepsNoDrift(s, acts[0]);
      NeverDrifts(Next(s, acts[0]), acts[1..]);
    }
  }

  lemma {:induction false} KeepsNoDrift(s: State, a: Action)
    requires a != AddAbort && NoDrift(s.h)
    ensures NoDrift(Next(s, a).h)
  {
    if a.GateStep? {
      GateKeepsNoDrift(s, a.ok);
    } else if a.IsGate() {
      assert EnterStep(s, a).h.base == s.h.base && EnterStep(s, a).h.made == s.h.made;
    } else {
      CarriedMu(s, a);
    }
  }

  lemma {:induction false} GateKeepsNoDrift(s: State, ok: bool)
    requires NoDrift(s.h)
    ensures NoDrift(GateProgress(s, ok).h)
  {
    match s.phase
    case Idle =>
    case TriggerCheck | Deferring => TriggerKeepsNoDrift(s);
    case OfferEntry(_) | Failing => TriggerKeepsNoDrift(s);
    case InOffer(_, _) => OfferKeepsNoDrift(s, ok);
    case InReceive(_) => ReceiveKeepsGenerations(s);
    case InAnswer(_, _, _) => AnswerKeepsGenerations(s, ok);
    case InApply(_) => ApplyKeepsGenerations(s, ok);
    case InFlush(_) => FlushKeepsGenerations(s);
  }

  lemma TriggerKeepsNoDrift(s: State)
    ensures s.phase.TriggerCheck? || s.phase.Deferring? ==> TriggerStep(s).h.base == s.h.base && TriggerStep(s).h.made == s.h.made
    ensures s.phase.OfferEntry? || s.phase.Failing? ==> EntryStep(s).h.base == s.h.base && EntryStep(s).h.made == s.h.made
  {
  }

  lemma {:induction false} OfferKeepsNoDrift(s: State, ok: bool)
    requires s.phase.InOffer? && NoDrift(s.h)
    ensures NoDrift(OfferStep(s, ok).h)
  {
    OfferBaselines(s, ok);
  }

  lemma {:induction false} OfferBaselines(s: State, ok: bool)
    requires s.phase.InOffer?
    ensures var h := OfferStep(s, ok).h;
            && (h.base == s.h.base || h.base == s.h.made)
            && (h.made == s.h.made || h.made == Baseline(s.senders, multiset{}, multiset{}, s.mu.Adding?))
  {
    match s.phase.op {
      case Creating => BaselinesEarly(s, ok);
      case SettingLocal => BaselinesEarly(s, ok);
      case Recording => BaselinesLate(s, ok);
      case Gathering => BaselinesLate(s, ok);
      case Sending => BaselinesLate(s, ok);
    }
  }

  lemma BaselinesEarly(s: State, ok: bool)
    requires s.phase.InOffer? && (s.phase.op.Creating? || s.phase.op.SettingLocal?)
    ensures var h := OfferStep(s, ok).h;
            && (h.base == s.h.base || h.base == s.h.made)
            && (h.made == s.h.made || h.made == Baseline(s.senders, multiset{}, multiset{}, s.mu.Adding?))
  {
  }

  lemma BaselinesLate(s: State, ok: bool)
    requires s.phase.InOffer? && !(s.phase.op.Creating? || s.phase.op.SettingLocal?)
    ensures var h := OfferStep(s, ok).h;
            && (h.base == s.h.base || h.base == s.h.made)
            && (h.made == s.h.made || h.made == Baseline(s.senders, multiset{}, multiset{}, s.mu.Adding?))
  {
  }

  /** What a trigger finds when the guard skips: nothing is offered and the need is dropped. */
  lemma {:induction false} Skips(s: State)
    requires s.phase.Idle? && s.mu.Free? && s.conn.Usable() && s.hasSender && s.sig.Stable? && !s.isNegotiating
    requires s.lastOfferGeneration == s.negotiationGeneration
    ensures Run(s, [Trigger(true), GateStep(true), GateStep(true)]) ==
              s.(pendingNegotiation := false, negotiationsQueued := 0)
  {
    RunTwo(s, Trigger(true), GateStep(true));
    var u := Next(Next(s, Trigger(true)), GateStep(true));
    assert u == s.(phase := OfferEntry(true));
    RunAppend(s, [Trigger(true), GateStep(true)], [GateStep(true)]);
    RunOne(u, GateStep(true));
    assert [Trigger(true), GateStep(true)] + [GateStep(true)] == [Trigger(true), GateStep(true), GateStep(true)];
  }

  /**
   One failing family: from any quiet state whose last offer is up to date, an AddTrack that gives up because it
   cannot detach its sender from a publish transceiver leaves a sender that the next trigger does not offer.
   */
  lemma {:induction false} FailedAddTrackEscapesGuard(s: State, id: TrackId)
    requires s.phase.Idle? && s.mu.Free? && s.conn.Usable() && s.hasSender && s.sig.Stable? && !s.isNegotiating
    requires s.lastOfferGeneration == s.negotiationGeneration && s.h.base.cover == s.senders
    ensures var t := Run(s, [AddBegin(id), AddAbort]);
            && t.lastOfferGeneration == t.negotiationGeneration && t.h.base.cover != t.senders
            && Run(t, [Trigger(true), GateStep(true), GateStep(true)]).h.log == t.h.log
  {
    RunTwo(s, AddBegin(id), AddAbort);
    var t := Next(Next(s, AddBegin(id)), AddAbort);
    assert t.senders[id] == t.h.base.cover[id] + 1;
    Skips(t);
  }

  /**
   The other: an offer created while AddTrack has its sender attached covers it; if re-homing then detaches it and
   cannot re-attach it, the offer that was recorded promises a sender pion does not hold.
   */
  lemma {:induction false} OfferDuringRehoming(s: State, id: TrackId)
    requires s.mu == Adding(id) && id in s.senders && s.phase.InOffer? && s.phase.op.Creating? && s.sig.Stable?
    requires s.phase.g == s.negotiationGeneration
    ensures var t := Run(s, [GateStep(true), AddDetach, AddAbort, GateStep(true), GateStep(true)]);
            && t.mu.Free? && t.lastOfferGeneration == t.negotiationGeneration
            && t.h.base.cover == t.senders + multiset{id} && t.h.base.missing == multiset{id}
  {
    var first, last := [GateStep(true), AddDetach, AddAbort], [GateStep(true), GateStep(true)];
    LostInRehoming(s, id);
    Recorded(Run(s, first));
    RunAppend(s, first, last);
    assert first + last == [GateStep(true), AddDetach, AddAbort, GateStep(true), GateStep(true)];
  }

  /** The offer is created with the sender, which is then lost. */
  lemma {:induction false} LostInRehoming(s: State, id: TrackId)
    requires s.mu == Adding(id) && id in s.senders && s.phase.InOffer? && s.phase.op.Creating? && s.sig.Stable?
    ensures var t := Run(s, [GateStep(true), AddDetach, AddAbort]);
            && t.phase == InOffer(SettingLocal, s.phase.g) && t.mu.Free? && t.sig.Stable?
            && t.negotiationGeneration == s.negotiationGeneration && t.senders + multiset{id} == s.senders
            && t.h.made == Baseline(s.senders, multiset{}, multiset{id}, true)
  {
    var s1 := Next(s, GateStep(true));
    assert s1 == s.(phase := InOffer(SettingLocal, s.phase.g), h := s.h.(made := Baseline(s.senders, multiset{}, multiset{}, true)));
    RunTwo(s1, AddDetach, AddAbort);
    RunOne(s, GateStep(true));
    RunAppend(s, [GateStep(true)], [AddDetach, AddAbort]);
    assert [GateStep(true)] + [AddDetach, AddAbort] == [GateStep(true), AddDetach, AddAbort];
    Detached(s1, id);
  }

  lemma Detached(s: State, id: TrackId)
    requires s.mu == Adding(id) && id in s.senders && s.h.made == Baseline(s.senders, multiset{}, multiset{}, true)
    ensures var t := Next(Next(s, AddDetach), AddAbort);
            && t == s.(senders := t.senders, mu := Free, h := t.h) && t.senders + multiset{id} == s.senders
            && t.h.made == Baseline(s.senders, multiset{}, multiset{id}, true)
  {
  }

  /** Such a state is reached: a first track is added and offered, and while the offer is made a second one is added. */
  lemma {:induction false} RehomingReached(first: TrackId, id: TrackId)
    ensures var s := Reached(true, [AddBegin(first), AddCommit, Trigger(true), GateStep(true), GateStep(true), AddBegin(id)]);
            && s.mu == Adding(id) && id in s.senders && s.phase == InOffer(Creating, s.negotiationGeneration) && s.sig.Stable?
  {
    var acts := [AddBegin(first), AddCommit, Trigger(true), GateStep(true), GateStep(true)];
    FirstOfferBegun(first);
    RunAppend(Init(true), acts, [AddBegin(id)]);
    assert acts + [AddBegin(id)] == [AddBegin(first), AddCommit, Trigger(true), GateStep(true), GateStep(true), AddBegin(id)];
    RunOne(Reached(true, acts), AddBegin(id));
  }

  lemma {:induction false} FirstOfferBegun(first: TrackId)
    ensures var s := Reached(true, [AddBegin(first), AddCommit, Trigger(true), GateStep(true), GateStep(true)]);
            && s.mu.Free? && s.conn.Usable() && s.phase == InOffer(Creating, s.negotiationGeneration) && s.sig.Stable?
  {
    RunTwo(Init(true), AddBegin(first), AddCommit);
    var a := Next(Next(Init(true), AddBegin(first)), AddCommit);
    assert a.negotiationGeneration == 1 && a.mu.Free? && a.phase.Idle? && a.conn.Usable();
    OfferBegins(a);
    RunAppend(Init(true), [AddBegin(first), AddCommit], [Trigger(true), GateStep(true), GateStep(true)]);
    assert [AddBegin(first), AddCommit] + [Trigger(true), GateStep(true), GateStep(true)]
        == [AddBegin(first), AddCommit, Trigger(true), GateStep(true), GateStep(true)];
  }

  /** A trigger in a quiet state with something to offer is past the guard after two more steps. */
  lemma {:induction false} OfferBegins(s: State)
    requires s.phase.Idle? && s.mu.Free? && s.conn.Usable() && s.hasSender && s.sig.Stable? && !s.isNegotiating
    requires s.lastOfferGeneration != s.negotiationGeneration
    ensures var t := Run(s, [Trigger(true), GateStep(true), GateStep(true)]);
            t.mu.Free? && t.conn == s.conn && t.sig == s.sig && t.phase == InOffer(Creating, t.negotiationGeneration)
  {
    RunTwo(s, Trigger(true), GateStep(true));
    var u := Next(Next(s, Trigger(true)), GateStep(true));
    assert u == s.(phase := OfferEntry(true));
    RunAppend(s, [Trigger(true), GateStep(true)], [GateStep(true)]);
    RunOne(u, GateStep(true));
    assert [Trigger(true), GateStep(true)] + [GateStep(true)] == [Trigger(true), GateStep(true), GateStep(true)];
  }

  /** Set-local and record, with pc.mu free. */
  lemma {:induction false} Recorded(s: State)
    requires s.phase.InOffer? && s.phase.op.SettingLocal? && s.sig.Stable? && s.mu.Free?
    ensures var t := Run(s, [GateStep(true), GateStep(true)]);
            && t.mu == s.mu && t.lastOfferGeneration == s.phase.g && t.negotiationGeneration == s.negotiationGeneration
            && t.h.base == s.h.made && t.senders == s.senders
  {
    RunTwo(s, GateStep(true), GateStep(true));
    assert Next(s, GateStep(true)).phase == InOffer(Recording, s.phase.g);
  }

  lemma {:induction false} RunOne(s: State, a: Action)
    ensures Run(s, [a]) == Next(s, a)
  {
    assert [a][1..] == [];
  }

  lemma {:induction false} RunTwo(s: State, a: Action, b: Action)
    ensures Run(s, [a, b]) == Next(Next(s, a), b)
  {
    assert [a, b] == [a] + [b];
    RunAppend(s, [a], [b]);
    RunOne(s, a);
    RunOne(Next(s, a), b);
  }

  // ---------------------------------------------------------------- browser-offer accounting

  lemma {:induction false} SettledIsPrefix(log: seq<Event>, open: seq<OfferId>, n: nat, k: nat)
    requires CountsUp(SettledIds(log) + open, n) && k < |log| && log[k].Settled?
    ensures log[k].id == |SettledIds(log[..k])|
    ensures forall i :: 0 <= i < k && log[i].Settled? ==> log[i].id < log[k].id
    decreases |log|
  {
    var last := |log| - 1;
    var rest := log[..last];
    var tail := if log[last].Settled? then [log[last].id] else [];
    assert SettledIds(rest) + (tail + open) == SettledIds(log) + open;
    if k < last {
      assert rest[..k] == log[..k];
      SettledIsPrefix(rest, tail + open, n, k);
    } else {
      assert (SettledIds(rest) + (tail + open))[|SettledIds(rest)|] == log[k].id;
      forall i | 0 <= i < k && log[i].Settled?
        ensures log[i].id < log[k].id
      {
        SettledIsPrefix(rest, tail + open, n, i);
        SettledMonotone(rest, i);
      }
    }
  }

  lemma {:induction false} SettledMonotone(log: seq<Event>, i: nat)
    requires i < |log| && log[i].Settled?
    ensures |SettledIds(log[..i])| < |SettledIds(log)|
    decreases |log|
  {
    var rest := log[..|log| - 1];
    if i == |log| - 1 {
      assert log[..i] == rest;
    } else {
      assert rest[..i] == log[..i];
      SettledMonotone(rest, i);
    }
  }

  lemma {:induction false} SettledFound(log: seq<Event>, id: OfferId) returns (k: nat)
    requires id in SettledIds(log)
    ensures k < |log| && log[k].Settled? && log[k].id == id
    decreases |log|
  {
    var last := |log| - 1;
    if log[last].Settled? && log[last].id == id {
      k := last;
    } else {
      k := SettledFound(log[..last], id);
    }
  }

  /**
   Every browser offer accepted by the gate has exactly one fate, or is the stored one, or is the one in hand;
   fates are given in arrival order, so answers are too, and no offer gets a second fate.
   */
  lemma {:induction false} BrowserOfferAccounting(hasSender: bool, acts: seq<Action>)
    ensures var s := Reached(hasSender, acts);
            && (forall i, j :: 0 <= i < j < |s.h.log| && s.h.log[i].Settled? && s.h.log[j].Settled? ==>
                  s.h.log[i].id < s.h.log[j].id)
            && (forall id: nat :: id < s.h.arrived ==>
                  ((exists k :: 0 <= k < |s.h.log| && s.h.log[k].Settled? && s.h.log[k].id == id)
                   <==> Some(id) != s.pendingInboundOffer && Some(id) != s.phase.Hand()))
            && (forall k :: 0 <= k < |s.h.log| && s.h.log[k].Settled? ==> s.h.log[k].id < s.h.arrived)
            && (s.phase.Idle? ==> s.phase.Hand().None?)
  {
    ReachedInv(hasSender, acts);
    var s := Reached(hasSender, acts);
    var log, open, n := s.h.log, Open(s), s.h.arrived;
    forall i, j | 0 <= i < j < |log| && log[i].Settled? && log[j].Settled?
      ensures log[i].id < log[j].id
    {
      SettledIsPrefix(log, open, n, j);
    }
    forall k | 0 <= k < |log| && log[k].Settled?
      ensures log[k].id < |SettledIds(log)|
    {
      SettledIsPrefix(log, open, n, k);
      SettledMonotone(log, k);
    }
    var settled := |SettledIds(log)|;
    forall id: nat | id < n
      ensures (exists k :: 0 <= k < |log| && log[k].Settled? && log[k].id == id)
              <==> Some(id) != s.pendingInboundOffer && Some(id) != s.phase.Hand()
    {
      assert (SettledIds(log) + open)[id] == id;
      if id < settled {
        assert SettledIds(log)[id] == id;
        var k := SettledFound(log, id);
        OpenAbove(s, id);
      } else {
        assert open[id - settled] == id;
      }
    }
  }

  /** Open offers are numbered after every settled one. */
  lemma {:induction false} OpenAbove(s: State, id: OfferId)
    requires CountsUp(SettledIds(s.h.log) + Open(s), s.h.arrived) && id < |SettledIds(s.h.log)|
    ensures Some(id) != s.pendingInboundOffer && Some(id) != s.phase.Hand()
  {
    var all, m := SettledIds(s.h.log) + Open(s), |SettledIds(s.h.log)|;
    forall i | 0 <= i < |Open(s)|
      ensures Open(s)[i] >= m
    {
      assert all[m + i] == Open(s)[i];
    }
    if s.pendingInboundOffer.Some? { assert Open(s)[0] == s.pendingInboundOffer.value; }
    if s.phase.Hand().Some? { assert Open(s)[|Open(s)| - 1] == s.phase.Hand().value; }
  }

  // ---------------------------------------------------------------- the deferred answer goes first

  lemma {:induction false} OneLiveAtATime(log: seq<Event>, i: nat, j: nat) returns (k: nat)
    requires Alternates(log) && i < j < |log| && log[i].OfferLive? && log[j].OfferLive?
    ensures i < k < j && log[k].AnswerApplied?
    decreases |log|
  {
    var rest := log[..|log| - 1];
    if j < |log| - 1 {
      k := OneLiveAtATime(rest, i, j);
    } else {
      k := AnsweredSince(rest, i);
    }
  }

  lemma {:induction false} AnsweredSince(log: seq<Event>, i: nat) returns (k: nat)
    requires i < |log| && log[i].OfferLive? && !Outstanding(log)
    ensures i < k < |log| && log[k].AnswerApplied?
    decreases |log|
  {
    var last := |log| - 1;
    if log[last].AnswerApplied? {
      k := last;
    } else {
      k := AnsweredSince(log[..last], i);
    }
  }

  /**
   A server offer is sent only after every browser offer stored before it has met its fate, and two server offers
   never go live without the browser's answer to the first in between: a flush coalesces to at most one offer.
   */
  lemma {:induction false} DeferredAnswerFirst(hasSender: bool, acts: seq<Action>)
    ensures var log := Reached(hasSender, acts).h.log;
            && (forall i, j :: 0 <= j < i < |log| && log[i].OfferSent? && log[j].Stored? ==>
                  exists k :: j < k < i && log[k].Settled? && log[k].id == log[j].id)
            && (forall i, j :: 0 <= i < j < |log| && log[i].OfferLive? && log[j].OfferLive? ==>
                  exists k :: i < k < j && log[k].AnswerApplied?)
  {
    ReachedInv(hasSender, acts);
    var log := Reached(hasSender, acts).h.log;
    forall i, j | 0 <= j < i < |log| && log[i].OfferSent? && log[j].Stored?
      ensures exists k :: j < k < i && log[k].Settled? && log[k].id == log[j].id
    {
      assert SettledBetween(log, j, i, log[j].id);
    }
    forall i, j | 0 <= i < j < |log| && log[i].OfferLive? && log[j].OfferLive?
      ensures exists k :: i < k < j && log[k].AnswerApplied?
    {
      var k := OneLiveAtATime(log, i, j);
    }
  }
}
