/**
 The negotiation gate of PeerConnection as a transition system at lock granularity.

 Two mutexes order the steps. `negMu` serialises the gate calls (triggers, browser offers,
 browser answers, flushes), so at most one gate call is in progress and `phase` is its program
 counter. `pc.mu` guards the fields; a step of the gate that needs it waits until no sender change
 or Close holds it, while a pion call needs no lock and may fall inside somebody else's `mu` section.

 The only assumption about pion is `Signaling.Apply`: a description call takes the transition of
 section 3.2 of RFC 8829 when the signaling state allows it, or fails and leaves the state alone.
 */
module Gate {
  import opened Prelude

  type TrackId = string
  type OfferId = nat

  // ---------------------------------------------------------------- pion

  datatype Signaling = Stable | HaveLocalOffer | HaveRemoteOffer | SignalingClosed
  {
    /** pion's description calls: `ok` is pion's own verdict on the SDP. */
    function Apply(c: Call, ok: bool): Signaling {
      if ok && this == c.From() then c.To() else this
    }

    predicate Accepts(c: Call, ok: bool) { ok && this == c.From() }
  }

  datatype Call = SetLocalOffer | SetRemoteAnswer | SetRemoteOffer | SetLocalAnswer
  {
    function From(): Signaling {
      match this
      case SetLocalOffer => Stable
      case SetRemoteAnswer => HaveLocalOffer
      case SetRemoteOffer => Stable
      case SetLocalAnswer => HaveRemoteOffer
    }
    function To(): Signaling {
      match this
      case SetLocalOffer => HaveLocalOffer
      case SetRemoteAnswer => Stable
      case SetRemoteOffer => HaveRemoteOffer
      case SetLocalAnswer => Stable
    }
  }

  datatype ConnState = NewConn | Connecting | Connected | Disconnected | Failed | ClosedConn
  {
    predicate Usable() { !ClosedConn? && !Failed? }
  }

  // ---------------------------------------------------------------- state

  /** Who holds pc.mu between two atomic steps. */
  datatype MuHolder =
    | Free
    | Adding(id: TrackId)      // AddTrack: the pion sender exists, the generation is not bumped yet
    | Rehoming(id: TrackId)    // AddTrack: detached from a publish transceiver, not yet re-attached
    | Removing(id: TrackId)    // RemoveTrack: the pion sender is gone, the generation is not bumped yet
    | Closing                  // Close: the context is cancelled, pion is not closed yet

  datatype Mode = Inline | Deferred

  /** serverOfferLocked after its guard, with the generation it snapshots. */
  datatype OfferPc = Creating | SettingLocal | Recording | Gathering | Sending
  /** answerExchangeLocked, then deliverAnswerLocked for a deferred answer. */
  datatype AnswerPc = SettingRemote | CreatingAnswer | SettingAnswer | GatheringAnswer | Delivering
  datatype ReceivePc = OfferCheck | Storing(offer: OfferId)
  datatype ApplyPc = AnswerCheck | ApplyingAnswer | ClearNegotiating
  datatype FlushPc = FlushTake | FlushCheck(held: OfferId) | FlushRestore(held: OfferId)
                   | FlushPending | FlushSignaling | FlushIdleCheck

  /** Program counter of the thread that holds negMu, one constructor per procedure of the gate. */
  datatype Phase =
    | Idle
    | TriggerCheck | Deferring                                       // a trigger past its entry
    | OfferEntry(triggered: bool) | Failing                          // serverOfferLocked: guard, failure closure
    | InOffer(op: OfferPc, g: nat)
    | InReceive(rp: ReceivePc)                                       // ProcessBrowserOffer
    | InAnswer(ap: AnswerPc, id: OfferId, mode: Mode)
    | InApply(pp: ApplyPc)                                           // ProcessBrowserAnswer
    | InFlush(fp: FlushPc)                                           // flushPendingLocked
  {
    /** The next step of this phase runs under pc.mu. */
    predicate NeedsMu() {
      match this
      case Idle | TriggerCheck => false
      case Deferring | OfferEntry(_) | Failing => true
      case InOffer(op, _) => op.Recording?
      case InReceive(rp) => rp.Storing?
      case InAnswer(ap, _, _) => ap.Delivering?
      case InApply(pp) => pp.ClearNegotiating?
      case InFlush(fp) => fp.FlushTake? || fp.FlushRestore? || fp.FlushPending? || fp.FlushIdleCheck?
    }

    /** The browser offer in hand of the gate call: accepted, not stored, not settled. */
    function Hand(): Option<OfferId> {
      match this
      case InReceive(rp) => if rp.Storing? then Some(rp.offer) else None
      case InAnswer(_, id, _) => Some(id)
      case InFlush(fp) => if fp.FlushCheck? || fp.FlushRestore? then Some(fp.held) else None
      case _ => None
    }

    /** The phase carries a generation that is not recorded yet. */
    predicate Carries() { InOffer? && (op.Creating? || op.SettingLocal? || op.Recording?) }
  }

  datatype Fate = AnsweredInline | AnsweredDeferred(sent: bool) | FailedInline | FailedDeferred
                | Superseded | DroppedAtClose

  datatype Event =
    | Stored(id: OfferId)
    | Settled(id: OfferId, fate: Fate)
    | OfferLive(gen: nat)
    | OfferSent(gen: nat)
    | OfferFailed
    | AnswerApplied
  {
    /** The outcome of a gate call: an offer sent or failed, an answer installed, a browser offer answered inline or not. */
    predicate Outgoing() {
      OfferSent? || OfferFailed? || AnswerApplied? || (Settled? && (fate.AnsweredInline? || fate.FailedInline?))
    }
  }

  /**
   A created offer against what AddTrack calls that gave up have done since: `cover` are the senders in the offer,
   `extra` the senders attached after it was created and left attached by a call that gave up, `missing` the
   senders in it that a call still in progress at its creation detached before giving up. `mid`: the sender of the
   AddTrack now in progress is in the offer.
   */
  datatype Baseline = Baseline(cover: multiset<TrackId>, extra: multiset<TrackId>, missing: multiset<TrackId>, mid: bool)
  {
    function Begin(): Baseline { this.(mid := false) }

    function GiveUp(m: MuHolder): Baseline {
      match m
      case Adding(id) => if mid then this else this.(extra := extra + multiset{id})
      case Rehoming(id) => if mid then this.(missing := missing + multiset{id}) else this
      case _ => this
    }
  }

  /** What happened so far. No step reads it. */
  datatype History = History(
    calls: seq<(Call, Signaling)>,   // description calls with the state pion was in
    liveGens: seq<nat>,              // generations of the server offers that went live
    made: Baseline,                  // the offer created last
    base: Baseline,                  // the offer recorded last
    arrived: nat,                    // browser offers accepted so far; the next one gets this number
    log: seq<Event>,
    out: seq<Event>)                 // of these, the outcomes of the gate calls
  {
    function Note(e: Event): History {
      this.(log := log + [e], out := if e.Outgoing() then out + [e] else out)
    }
    function Called(c: Call, sig: Signaling): History { this.(calls := calls + [(c, sig)]) }
    function BeginAdd(): History { this.(made := made.Begin(), base := base.Begin()) }
    function GiveUp(m: MuHolder): History { this.(made := made.GiveUp(m), base := base.GiveUp(m)) }
    function Fail(id: OfferId, mode: Mode): History {
      Note(Settled(id, if mode.Inline? then FailedInline else FailedDeferred))
    }
    /** The stored offer, if any, meets fate `f`. */
    function Drop(slot: Option<OfferId>, f: Fate): History {
      if slot.Some? then Note(Settled(slot.value, f)) else this
    }
  }

  datatype State = State(
    conn: ConnState, hasSender: bool, ctxDone: bool,
    isNegotiating: bool, pendingNegotiation: bool, negotiationsQueued: nat,
    pendingInboundOffer: Option<OfferId>,
    negotiationGeneration: nat, lastOfferGeneration: nat,
    localTracks: set<TrackId>,
    sig: Signaling, senders: multiset<TrackId>,
    mu: MuHolder, phase: Phase,
    h: History)

  function Init(hasSender: bool): State {
    State(NewConn, hasSender, false, false, false, 0, None, 0, 0, {}, Stable, multiset{}, Free, Idle,
          History([], [], NoOffer, NoOffer, 0, [], []))
  }

  const NoOffer := Baseline(multiset{}, multiset{}, multiset{}, false)

  // ---------------------------------------------------------------- steps

  datatype Action =
    // threads that take only pc.mu
    | AddBegin(id: TrackId) | AddDetach | AddReattach | AddCommit | AddAbort
    | RemoveBegin(id: TrackId, pionOk: bool) | RemoveCommit
    | CloseBegin | CloseEnd(pionOk: bool)
    | ConnChange(conn: ConnState) | SetSender(present: bool)
    // gate calls taking negMu
    | Trigger(sync: bool) | BrowserOffer | BrowserAnswer | Flush
    // the gate call in progress makes its next step; `ok` is pion's verdict where one is asked for
    | GateStep(ok: bool)
  {
    predicate IsGate() { Trigger? || BrowserOffer? || BrowserAnswer? || Flush? || GateStep? }
  }

  /** Steps of AddTrack, RemoveTrack, Close, the state callback and UpdateSignalingSender. */
  function MuStep(s: State, a: Action): State
    requires !a.IsGate()
  {
    match a
    case AddBegin(id) =>
      if s.mu.Free? && s.conn.Usable() then
        s.(senders := s.senders + multiset{id}, mu := Adding(id), h := s.h.BeginAdd())
      else s
    case AddDetach =>
      if s.mu.Adding? then s.(senders := s.senders - multiset{s.mu.id}, mu := Rehoming(s.mu.id)) else s
    case AddReattach =>
      if s.mu.Rehoming? then s.(senders := s.senders + multiset{s.mu.id}, mu := Adding(s.mu.id)) else s
    case AddCommit =>
      if s.mu.Adding? then
        s.(localTracks := s.localTracks + {s.mu.id}, negotiationGeneration := s.negotiationGeneration + 1, mu := Free)
      else s
    case AddAbort =>
      if s.mu.Adding? || s.mu.Rehoming? then
        s.(mu := Free, h := s.h.GiveUp(s.mu))
      else s
    case RemoveBegin(id, pionOk) =>
      if !s.mu.Free? || !s.conn.Usable() || id !in s.localTracks then s
      else if id !in s.senders then s.(localTracks := s.localTracks - {id})
      else if !pionOk then s
      else s.(senders := s.senders - multiset{id}, mu := Removing(id))
    case RemoveCommit =>
      if s.mu.Removing? then
        s.(localTracks := s.localTracks - {s.mu.id}, negotiationGeneration := s.negotiationGeneration + 1, mu := Free)
      else s
    case CloseBegin =>
      if s.mu.Free? && !s.conn.ClosedConn? then
        s.(ctxDone := true, mu := Closing)
      else s
    case CloseEnd(pionOk) =>
      if !s.mu.Closing? then s
      else if !pionOk then s.(sig := SignalingClosed, mu := Free)
      else
        s.(sig := SignalingClosed, mu := Free, conn := ClosedConn, isNegotiating := false,
           pendingNegotiation := false, negotiationsQueued := 0, pendingInboundOffer := None,
           h := s.h.Drop(s.pendingInboundOffer, DroppedAtClose))
    case ConnChange(conn) =>
      if s.mu.Free? then s.(conn := conn) else s
    case SetSender(present) =>
      if s.mu.Free? then s.(hasSender := present) else s
  }

  /** First `mu` section of a gate call; the call starts only when negMu is free. */
  function EnterStep(s: State, a: Action): State
    requires a.Trigger? || a.BrowserOffer? || a.BrowserAnswer? || a.Flush?
  {
    if !s.phase.Idle? || !s.mu.Free? || !s.conn.Usable() then s
    else match a
      case Trigger(sync) =>
        if !s.hasSender then s
        else if !s.isNegotiating then s.(phase := TriggerCheck)
        else if sync then s.(phase := Deferring)
        else Arm(s)
      case BrowserOffer => s.(phase := InReceive(OfferCheck))
      case BrowserAnswer => s.(phase := InApply(AnswerCheck))
      case Flush => s.(phase := InFlush(FlushTake))
  }

  /** Coalesce a server need into the single pending flag. */
  function Arm(s: State): State {
    s.(pendingNegotiation := true, negotiationsQueued := s.negotiationsQueued + 1, phase := Idle)
  }

  /** RequestSubscriberOffer and handleNegotiationNeeded after their entry. */
  function TriggerStep(s: State): State
    requires s.phase.TriggerCheck? || s.phase.Deferring?
  {
    if s.phase.Deferring? then Arm(s)
    else s.(phase := if s.sig.Stable? then OfferEntry(true) else Deferring)
  }

  /** serverOfferLocked: the guarded entry, and the failure closure that re-arms the need. */
  function EntryStep(s: State): State
    requires s.phase.OfferEntry? || s.phase.Failing?
  {
    if s.phase.Failing? then
      s.(isNegotiating := false, pendingNegotiation := true, phase := Idle, h := s.h.Note(OfferFailed))
    else if !s.conn.Usable() || !s.hasSender then s.(phase := Idle)
    else if s.sig != Stable then Arm(s)
    else if s.lastOfferGeneration == s.negotiationGeneration then
      s.(pendingNegotiation := false, negotiationsQueued := 0, phase := Idle)
    else
      s.(pendingNegotiation := false, negotiationsQueued := 0, isNegotiating := true,
         phase := InOffer(Creating, s.negotiationGeneration))
  }

  /** serverOfferLocked: create, set-local, record, gather and send. */
  function OfferStep(s: State, ok: bool): State
    requires s.phase.InOffer?
  {
    var InOffer(op, g) := s.phase;
    match op
    case Creating =>
      if ok && !s.sig.SignalingClosed? then
        s.(phase := InOffer(SettingLocal, g),
           h := s.h.(made := Baseline(s.senders, multiset{}, multiset{}, s.mu.Adding?)))
      else s.(phase := Failing)
    case SettingLocal =>
      if s.sig.Accepts(SetLocalOffer, ok) then
        s.(sig := s.sig.Apply(SetLocalOffer, ok), phase := InOffer(Recording, g),
           h := s.h.Called(SetLocalOffer, s.sig).Note(OfferLive(g)).(liveGens := s.h.liveGens + [g]))
      else s.(phase := Failing, h := s.h.Called(SetLocalOffer, s.sig))
    case Recording =>
      s.(lastOfferGeneration := g, phase := InOffer(Gathering, g), h := s.h.(base := s.h.made))
    case Gathering => s.(phase := if ok then InOffer(Sending, g) else Failing)
    case Sending => s.(phase := Idle, h := s.h.Note(OfferSent(g)))
  }

  /** ProcessBrowserOffer after its entry: answer now, store, or reject. */
  function ReceiveStep(s: State): State
    requires s.phase.InReceive?
  {
    match s.phase.rp
    case OfferCheck =>
      var id := s.h.arrived;
      if s.sig.Stable? then
        s.(phase := InAnswer(SettingRemote, id, Inline), h := s.h.(arrived := id + 1))
      else if s.sig.HaveLocalOffer? then
        s.(phase := InReceive(Storing(id)), h := s.h.(arrived := id + 1))
      else s.(phase := Idle)
    case Storing(id) =>
      s.(pendingInboundOffer := Some(id), phase := Idle,
         h := s.h.Drop(s.pendingInboundOffer, Superseded).Note(Stored(id)))
  }

  /** answerExchangeLocked and deliverAnswerLocked. */
  function AnswerStep(s: State, ok: bool): State
    requires s.phase.InAnswer?
  {
    var InAnswer(ap, id, mode) := s.phase;
    match ap
    case SettingRemote =>
      var h := s.h.Called(SetRemoteOffer, s.sig);
      if s.sig.Accepts(SetRemoteOffer, ok)
      then s.(sig := s.sig.Apply(SetRemoteOffer, ok), phase := InAnswer(CreatingAnswer, id, mode), h := h)
      else s.(phase := Idle, h := h.Fail(id, mode))
    case CreatingAnswer =>
      if ok && s.sig.HaveRemoteOffer? then s.(phase := InAnswer(SettingAnswer, id, mode))
      else s.(phase := Idle, h := s.h.Fail(id, mode))
    case SettingAnswer =>
      var h := s.h.Called(SetLocalAnswer, s.sig);
      if s.sig.Accepts(SetLocalAnswer, ok)
      then s.(sig := s.sig.Apply(SetLocalAnswer, ok), phase := InAnswer(GatheringAnswer, id, mode), h := h)
      else s.(phase := Idle, h := h.Fail(id, mode))
    case GatheringAnswer =>
      if !ok then s.(phase := Idle, h := s.h.Fail(id, mode))
      else if mode.Inline? then s.(phase := Idle, h := s.h.Note(Settled(id, AnsweredInline)))
      else s.(phase := InAnswer(Delivering, id, mode))
    case Delivering =>
      s.(phase := InFlush(FlushPending), h := s.h.Note(Settled(id, AnsweredDeferred(s.hasSender))))
  }

  /** ProcessBrowserAnswer after its entry. */
  function ApplyStep(s: State, ok: bool): State
    requires s.phase.InApply?
  {
    match s.phase.pp
    case AnswerCheck => s.(phase := if s.sig.HaveLocalOffer? then InApply(ApplyingAnswer) else Idle)
    case ApplyingAnswer =>
      var h := s.h.Called(SetRemoteAnswer, s.sig);
      if s.sig.Accepts(SetRemoteAnswer, ok) then
        s.(sig := s.sig.Apply(SetRemoteAnswer, ok), phase := InApply(ClearNegotiating), h := h.Note(AnswerApplied))
      else s.(phase := Idle, h := h)
    case ClearNegotiating => s.(isNegotiating := false, phase := InFlush(FlushTake))
  }

  /** flushPendingLocked. */
  function FlushStep(s: State): State
    requires s.phase.InFlush?
  {
    match s.phase.fp
    case FlushTake =>
      if s.pendingInboundOffer.Some?
      then s.(phase := InFlush(FlushCheck(s.pendingInboundOffer.value)), pendingInboundOffer := None)
      else s.(phase := InFlush(FlushPending))
    case FlushCheck(id) =>
      s.(phase := if s.sig.Stable? then InAnswer(SettingRemote, id, Deferred) else InFlush(FlushRestore(id)))
    case FlushRestore(id) => s.(pendingInboundOffer := Some(id), phase := Idle)
    case FlushPending =>
      if !s.pendingNegotiation then s.(phase := Idle)
      else if !s.conn.Usable() then s.(pendingNegotiation := false, phase := Idle)
      else s.(phase := InFlush(FlushSignaling))
    case FlushSignaling => s.(phase := if s.sig.Stable? then InFlush(FlushIdleCheck) else Idle)
    case FlushIdleCheck => s.(phase := if s.isNegotiating then Idle else OfferEntry(false))
  }

  /** The gate call in progress makes its next step, or waits for pc.mu. */
  function GateProgress(s: State, ok: bool): State {
    if s.phase.NeedsMu() && !s.mu.Free? then s
    else match s.phase
      case Idle => s
      case TriggerCheck | Deferring => TriggerStep(s)
      case OfferEntry(_) | Failing => EntryStep(s)
      case InOffer(_, _) => OfferStep(s, ok)
      case InReceive(_) => ReceiveStep(s)
      case InAnswer(_, _, _) => AnswerStep(s, ok)
      case InApply(_) => ApplyStep(s, ok)
      case InFlush(_) => FlushStep(s)
  }

  /** One atomic step; an action that cannot run now changes nothing. */
  function Next(s: State, a: Action): State {
    match a
    case GateStep(ok) => GateProgress(s, ok)
    case Trigger(_) => EnterStep(s, a)
    case BrowserOffer => EnterStep(s, a)
    case BrowserAnswer => EnterStep(s, a)
    case Flush => EnterStep(s, a)
    case _ => MuStep(s, a)
  }

  /** Every interleaving of every thread is some sequence of actions. */
  function Run(s: State, acts: seq<Action>): State
    decreases |acts|
  {
    if acts == [] then s else Run(Next(s, acts[0]), acts[1..])
  }

  lemma {:induction false} RunAppend(s: State, a: seq<Action>, b: seq<Action>)
    ensures Run(s, a + b) == Run(Run(s, a), b)
    decreases |a|
  {
    if a == [] {
      assert a + b == b;
    } else {
      assert (a + b)[1..] == a[1..] + b;
      RunAppend(Next(s, a[0]), a[1..], b);
    }
  }
}
