/**
 PeerConnection as it runs: the gate's methods over mutable fields, with every other thread's steps let in wherever
 the program holds no lock that excludes them. Each section of code between two such points is one step of the Gate
 machine, so the object is always where some run of the machine is, and what is proved of runs holds of it.
 */
module PeerConnectionOps {
  import opened Prelude
  import opened Gate
  import opened GateTheorems
  import opened GateDemand
  import opened GateTracks

  /** How the first section of a trigger ends. */
  datatype Entry = Refused | Coalesce | Proceed

  class PeerConnection {
    var conn: ConnState
    var hasSender: bool
    var ctxDone: bool
    var isNegotiating: bool
    var pendingNegotiation: bool
    var negotiationsQueued: nat
    var pendingInboundOffer: Option<OfferId>
    var negotiationGeneration: nat
    var lastOfferGeneration: nat
    var localTracks: set<TrackId>
    var sig: Signaling                // pion
    var senders: multiset<TrackId>    // pion
    var mu: MuHolder
    ghost var phase: Phase
    ghost var h: History
    ghost const start: State
    ghost var trace: seq<Action>     // the steps so far
    ghost var past: seq<State>       // the state before each of them
    ghost var entered: seq<Action>   // of the steps, the gate calls entered

    const others: nat -> seq<Action>  // what the other threads do at each point where they can
    const pion: nat -> bool           // pion's verdicts
    var clock: nat

    ghost function S(): State
      reads this
    {
      State(conn, hasSender, ctxDone, isNegotiating, pendingNegotiation, negotiationsQueued, pendingInboundOffer,
            negotiationGeneration, lastOfferGeneration, localTracks, sig, senders, mu, phase, h)
    }

    /** The object is where the machine is after `trace`. */
    ghost predicate Valid()
      reads this
    {
      Journal(start, trace, past, S())
    }

    constructor (sender: bool, others: nat -> seq<Action>, pion: nat -> bool)
      ensures Valid() && S() == start == Init(sender) && trace == []
      ensures forall n :: this.others(n) == others(n)
    {
      conn, hasSender, ctxDone := NewConn, sender, false;
      isNegotiating, pendingNegotiation, negotiationsQueued := false, false, 0;
      pendingInboundOffer, negotiationGeneration, lastOfferGeneration := None, 0, 0;
      localTracks, sig, senders, mu := {}, Stable, multiset{}, Free;
      phase, h, trace, past, entered := Idle, Init(sender).h, [], [], [];
      start := Init(sender);
      this.others, this.pion, clock := others, pion, 0;
    }

    /** One step of the machine has been carried out on the fields. */
    ghost method Note(s: State, a: Action)
      requires Journal(start, trace, past, s) && S() == Next(s, a)
      modifies this`trace, this`past, this`entered
      ensures Valid() && trace == old(trace) + [a] && past == old(past) + [s]
      ensures entered == if a.IsGate() && !a.GateStep? then old(entered) + [a] else old(entered)
    {
      JournalMore(start, trace, past, s, a);
      trace, past := trace + [a], past + [s];
      if a.IsGate() && !a.GateStep? { entered := entered + [a]; }
    }

    // -------------------------------------------------------------- the other threads

    /** AddTrack, pion's part: attach the sender, or move it off a publish transceiver. */
    method AddTrackStep(a: Action)
      requires a.AddBegin? || a.AddDetach? || a.AddReattach?
      modifies this`senders, this`mu, this`h
      ensures S() == MuStep(old(S()), a)
      ensures a.AddBegin? && old(mu).Free? && conn != ClosedConn && conn != Failed ==>
                senders == old(senders) + multiset{a.id} && mu == Adding(a.id)
    {
      if a.AddBegin? {
        if mu.Free? && conn.Usable() {
          senders, mu := senders + multiset{a.id}, Adding(a.id);
          h := h.BeginAdd();
        }
      } else if a.AddDetach? && mu.Adding? {
        senders, mu := senders - multiset{mu.id}, Rehoming(mu.id);
      } else if a.AddReattach? && mu.Rehoming? {
        senders, mu := senders + multiset{mu.id}, Adding(mu.id);
      }
    }

    /** AddTrack's end: store the track and count the change, or give up with an error. */
    method AddTrackEnd(a: Action)
      requires a.AddCommit? || a.AddAbort?
      modifies this`mu, this`localTracks, this`negotiationGeneration, this`h
      ensures S() == MuStep(old(S()), a)
      ensures a.AddCommit? && old(mu).Adding? ==>
                localTracks == old(localTracks) + {old(mu).id} && negotiationGeneration == old(negotiationGeneration) + 1 && mu.Free?
      ensures !(a.AddCommit? && old(mu).Adding?) ==>
                localTracks == old(localTracks) && negotiationGeneration == old(negotiationGeneration)
    {
      if a.AddCommit? {
        if mu.Adding? {
          localTracks := localTracks + {mu.id};
          negotiationGeneration := negotiationGeneration + 1;
          mu := Free;
        }
      } else if mu.Adding? || mu.Rehoming? {
        h := h.GiveUp(mu);
        mu := Free;
      }
    }

    method RemoveTrackBegin(id: TrackId, pionOk: bool)
      modifies this`senders, this`mu, this`localTracks
      ensures S() == MuStep(old(S()), RemoveBegin(id, pionOk))
      ensures old(mu).Free? && conn != ClosedConn && conn != Failed && id in old(localTracks) && id in old(senders) && pionOk ==>
                senders == old(senders) - multiset{id} && mu == Removing(id)
    {
      if !mu.Free? || !conn.Usable() || id !in localTracks {
        return;
      }
      if id !in senders {
        localTracks := localTracks - {id};
      } else if pionOk {
        senders, mu := senders - multiset{id}, Removing(id);
      }
    }

    method RemoveTrackEnd()
      modifies this`mu, this`localTracks, this`negotiationGeneration
      ensures S() == MuStep(old(S()), RemoveCommit)
      ensures old(mu).Removing? ==>
                localTracks == old(localTracks) - {old(mu).id} && negotiationGeneration == old(negotiationGeneration) + 1 && mu.Free?
    {
      if mu.Removing? {
        negotiationGeneration := negotiationGeneration + 1;
        localTracks := localTracks - {mu.id};
        mu := Free;
      }
    }

    /** Close cancels the context first. */
    method CloseStart()
      modifies this`ctxDone, this`mu
      ensures S() == MuStep(old(S()), CloseBegin)
      ensures old(mu).Free? && conn != ClosedConn ==> ctxDone && mu.Closing?
    {
      if mu.Free? && !conn.ClosedConn? {
        ctxDone, mu := true, Closing;
      }
    }

    /** Close then closes pion, and clears the gate's fields unless pion reports an error. */
    method CloseFinish(pionOk: bool)
      modifies this`mu, this`sig, this`conn, this`isNegotiating, this`pendingNegotiation,
               this`negotiationsQueued, this`pendingInboundOffer, this`h
      ensures S() == MuStep(old(S()), CloseEnd(pionOk))
      ensures old(mu).Closing? ==> mu.Free? && sig == SignalingClosed && (pionOk ==> NothingLeft(S()))
    {
      if mu.Closing? {
        if pionOk {
          CloseCleanly();
        } else {
          sig, mu := SignalingClosed, Free;
        }
      }
    }

    method CloseCleanly()
      requires mu.Closing?
      modifies this`mu, this`sig, this`conn, this`isNegotiating, this`pendingNegotiation,
               this`negotiationsQueued, this`pendingInboundOffer, this`h
      ensures S() == MuStep(old(S()), CloseEnd(true))
    {
      sig, mu := SignalingClosed, Free;
      ClearGate();
    }

    method ClearGate()
      modifies this`conn, this`isNegotiating, this`pendingNegotiation, this`negotiationsQueued, this`pendingInboundOffer, this`h
      ensures conn == ClosedConn && !isNegotiating && !pendingNegotiation && negotiationsQueued == 0
      ensures pendingInboundOffer == None && h == old(h).Drop(old(pendingInboundOffer), DroppedAtClose)
    {
      h := h.Drop(pendingInboundOffer, DroppedAtClose);
      conn, isNegotiating, pendingNegotiation, negotiationsQueued := ClosedConn, false, false, 0;
      pendingInboundOffer := None;
    }

    /** The connection-state callback and UpdateSignalingSender. */
    method CallbackStep(a: Action)
      requires a.ConnChange? || a.SetSender?
      modifies this`conn, this`hasSender
      ensures S() == MuStep(old(S()), a)
      ensures mu.Free? && a.ConnChange? ==> conn == a.conn && hasSender == old(hasSender)
      ensures mu.Free? && a.SetSender? ==> hasSender == a.present && conn == old(conn)
    {
      if mu.Free? {
        if a.ConnChange? {
          conn := a.conn;
        } else {
          hasSender := a.present;
        }
      }
    }

    /** One step of a thread that takes only pc.mu. */
    method Perform(a: Action)
      requires !a.IsGate()
      modifies this`senders, this`mu, this`localTracks, this`negotiationGeneration, this`ctxDone, this`sig, this`conn, this`hasSender,
               this`isNegotiating, this`pendingNegotiation, this`negotiationsQueued, this`pendingInboundOffer, this`h
      ensures S() == MuStep(old(S()), a)
    {
      match a {
        case RemoveBegin(id, pionOk) => RemoveTrackBegin(id, pionOk);
        case RemoveCommit => RemoveTrackEnd();
        case CloseBegin => CloseStart();
        case CloseEnd(pionOk) => CloseFinish(pionOk);
        case ConnChange(_) => CallbackStep(a);
        case SetSender(_) => CallbackStep(a);
        case AddCommit => AddTrackEnd(a);
        case AddAbort => AddTrackEnd(a);
        case AddBegin(_) => AddTrackStep(a);
        case AddDetach => AddTrackStep(a);
        case AddReattach => AddTrackStep(a);
      }
    }

    method OtherStep(a: Action)
      requires Valid() && !a.IsGate()
      modifies this
      ensures Valid() && trace == old(trace) + [a] && past == old(past) + [old(S())] && entered == old(entered)
      ensures S() == Next(old(S()), a) && Kept(old(S()))
    {
      ghost var s := S();
      Perform(a);
      OthersKeep(s, a);
      Note(s, a);
    }

    /** The gate's own position did not move, and nothing of its own was logged. */
    ghost predicate Kept(s: State)
      reads this
    {
      phase == s.phase && h.arrived == s.h.arrived && h.out == s.h.out && lastOfferGeneration == s.lastOfferGeneration
    }

    /** No other thread takes a step. */
    ghost predicate Alone()
      reads this
    {
      forall n :: others(n) == []
    }

    /** The journal was only added to. */
    ghost predicate Grown(t: seq<Action>, p: seq<State>)
      reads this
    {
      && |t| == |p| <= |trace| == |past|
      && forall n {:trigger Pin(n)} :: 0 <= n < |t| && Pin(n) ==> trace[n] == t[n] && past[n] == p[n]
    }

    /** So far and no gate call entered. */
    ghost predicate NoEntrySince(t: seq<Action>, p: seq<State>, e: seq<Action>)
      reads this
    {
      Grown(t, p) && entered == e
    }

    /** A point where the other threads may run, and pion's next verdict: no step of the gate happens here. */
    method Yield() returns (verdict: bool)
      requires Valid()
      modifies this
      ensures Valid() && Kept(old(S())) && NoEntrySince(old(trace), old(past), old(entered))
      ensures Alone() ==> trace == old(trace) && S() == old(S())
    {
      var acts := others(clock);
      verdict := pion(clock);
      clock := clock + 1;
      var i := 0;
      while i < |acts|
        invariant 0 <= i <= |acts| && Valid() && Kept(old(S())) && NoEntrySince(old(trace), old(past), old(entered))
        invariant Alone() ==> trace == old(trace) && S() == old(S())
      {
        if !acts[i].IsGate() {
          OtherStep(acts[i]);
        }
        i := i + 1;
      }
    }

    /** Take pc.mu: other threads run, and whoever holds the lock finishes first. */
    method Lock()
      requires Valid()
      modifies this
      ensures Valid() && mu.Free? && Kept(old(S())) && NoEntrySince(old(trace), old(past), old(entered))
      ensures Alone() && old(mu.Free?) ==> trace == old(trace) && S() == old(S())
    {
      var ok := Yield();
      if !mu.Free? {
        var a := Finisher(mu, ok);
        FinisherFrees(S(), ok);
        OtherStep(a);
      }
    }

    // -------------------------------------------------------------- sections of the triggers

    /** First section of RequestSubscriberOffer (sync) and handleNegotiationNeeded. */
    method EnterTrigger(sync: bool) returns (e: Entry)
      requires phase.Idle? && mu.Free?
      modifies this`pendingNegotiation, this`negotiationsQueued, this`phase, this`h
      ensures S() == Next(old(S()), Trigger(sync))
      ensures phase == (match e case Refused => Idle case Coalesce => Deferring case Proceed => TriggerCheck)
      ensures h.arrived == old(h.arrived)
      ensures e.Coalesce? <==> sync && Behind(old(S()))
      ensures if !sync && Behind(old(S())) then pendingNegotiation && negotiationsQueued == old(negotiationsQueued) + 1
              else pendingNegotiation == old(pendingNegotiation) && negotiationsQueued == old(negotiationsQueued)
    {
      if !conn.Usable() {
        return Refused;
      }
      if !hasSender {
        return Refused;
      }
      if isNegotiating {
        if sync {
          phase := Deferring;
          return Coalesce;
        }
        pendingNegotiation := true;
        negotiationsQueued := negotiationsQueued + 1;
        return Refused;
      }
      phase := TriggerCheck;
      return Proceed;
    }

    /** Coalesce the need into the one pending flag. */
    method Coalesced()
      requires phase.Deferring? && mu.Free?
      modifies this`pendingNegotiation, this`negotiationsQueued, this`phase, this`h
      ensures Did(old(S()), S(), true) && phase.Idle? && h.arrived == old(h.arrived)
      ensures pendingNegotiation && negotiationsQueued == old(negotiationsQueued) + 1
    {
      pendingNegotiation := true;
      negotiationsQueued := negotiationsQueued + 1;
      phase := Idle;
    }

    method TriggerStable() returns (stable: bool)
      requires phase.TriggerCheck?
      modifies this`phase
      ensures Did(old(S()), S(), true) && phase == (if stable then OfferEntry(true) else Deferring) && stable == sig.Stable?
    {
      stable := sig == Stable;
      phase := if stable then OfferEntry(true) else Deferring;
    }

    // -------------------------------------------------------------- sections of serverOfferLocked

    /** The guarded entry: the generation to offer, if an offer is to be made. */
    method OfferGuard() returns (ok: bool, generation: Option<nat>)
      requires phase.OfferEntry? && mu.Free?
      modifies this`pendingNegotiation, this`negotiationsQueued, this`isNegotiating, this`phase, this`h
      ensures Did(old(S()), S(), true) && h.arrived == old(h.arrived)
      ensures phase == if generation.None? then Idle else InOffer(Creating, generation.value)
      ensures ok == conn.Usable()
      ensures generation == if MakesOffer(old(S())) then Some(negotiationGeneration) else None
      ensures ok && hasSender ==> pendingNegotiation == (sig != Stable)
      ensures !(ok && hasSender) ==> pendingNegotiation == old(pendingNegotiation)
    {
      ok, generation := conn.Usable(), None;
      if !ok || !hasSender {
        phase := Idle;
        return;
      }
      if sig != Stable {
        pendingNegotiation, negotiationsQueued, phase := true, negotiationsQueued + 1, Idle;
        return;
      }
      generation := SnapshotGeneration();
    }

    /** The generation guard, with the flags of an offer about to be made. */
    method SnapshotGeneration() returns (generation: Option<nat>)
      modifies this`pendingNegotiation, this`negotiationsQueued, this`isNegotiating, this`phase
      ensures !pendingNegotiation && negotiationsQueued == 0
      ensures isNegotiating == (old(isNegotiating) || generation.Some?)
      ensures generation == if lastOfferGeneration == negotiationGeneration then None else Some(negotiationGeneration)
      ensures phase == if generation.None? then Idle else InOffer(Creating, generation.value)
    {
      pendingNegotiation, negotiationsQueued, phase := false, 0, Idle;
      if lastOfferGeneration == negotiationGeneration {
        return None;
      }
      isNegotiating := true;
      phase := InOffer(Creating, negotiationGeneration);
      return Some(negotiationGeneration);
    }

    method CreateOffer(verdict: bool) returns (ok: bool)
      requires phase.InOffer? && phase.op.Creating?
      modifies this`phase, this`h
      ensures Did(old(S()), S(), verdict) && h.arrived == old(h.arrived)
      ensures if ok then phase.InOffer? && phase.op.SettingLocal? && phase.g == old(phase.g) else phase.Failing?
    {
      ok := verdict && sig != SignalingClosed;
      if ok { h := h.(made := Baseline(senders, multiset{}, multiset{}, mu.Adding?)); }
      phase := if ok then InOffer(SettingLocal, phase.g) else Failing;
    }

    method SetLocalOffer(verdict: bool) returns (ok: bool)
      requires phase.InOffer? && phase.op.SettingLocal?
      modifies this`sig, this`phase, this`h
      ensures Did(old(S()), S(), verdict) && h.arrived == old(h.arrived)
      ensures if ok then phase.InOffer? && phase.op.Recording? && phase.g == old(phase.g) else phase.Failing?
      ensures ok == (verdict && old(sig) == Stable) && sig == if ok then HaveLocalOffer else old(sig)
    {
      h := h.Called(Call.SetLocalOffer, sig);
      ok := verdict && sig == Stable;
      if ok {
        sig := HaveLocalOffer;
        h := h.(log := h.log + [OfferLive(phase.g)], liveGens := h.liveGens + [phase.g]);
        phase := phase.(op := Recording);
      } else {
        phase := Failing;
      }
    }

    method RecordOffer(generation: nat)
      requires phase.InOffer? && phase.op.Recording? && phase.g == generation && mu.Free?
      modifies this`lastOfferGeneration, this`phase, this`h
      ensures Did(old(S()), S(), true) && h.arrived == old(h.arrived)
      ensures phase == old(phase).(op := Gathering) && lastOfferGeneration == generation
    {
      lastOfferGeneration := generation;
      h := h.(base := h.made);
      phase := phase.(op := Gathering);
    }

    /** Wait for the gathered description; fails when there is none or the connection closes first. */
    method GatherOffer(verdict: bool) returns (ok: bool)
      requires phase.InOffer? && phase.op.Gathering?
      modifies this`phase
      ensures Did(old(S()), S(), verdict) && phase == (if ok then old(phase).(op := Sending) else Failing) && ok == verdict
    {
      ok := verdict;
      phase := if ok then phase.(op := Sending) else Failing;
    }

    method SendOffer()
      requires phase.InOffer? && phase.op.Sending?
      modifies this`phase, this`h
      ensures Did(old(S()), S(), true) && phase.Idle? && h.arrived == old(h.arrived)
    {
      h := h.Note(OfferSent(phase.g));
      phase := Idle;
    }

    method FailOffer()
      requires phase.Failing? && mu.Free?
      modifies this`isNegotiating, this`pendingNegotiation, this`phase, this`h
      ensures Did(old(S()), S(), true) && phase.Idle? && h.arrived == old(h.arrived)
      ensures !isNegotiating && pendingNegotiation
    {
      isNegotiating, pendingNegotiation := false, true;
      h := h.Note(OfferFailed);
      phase := Idle;
    }

    // -------------------------------------------------------------- sections of ProcessBrowserOffer

    /** First section of ProcessBrowserOffer, ProcessBrowserAnswer and FlushDeferredNegotiation. */
    method Enter(a: Action) returns (ok: bool)
      requires phase.Idle? && mu.Free? && (a.BrowserOffer? || a.BrowserAnswer? || a.Flush?)
      modifies this`phase
      ensures S() == Next(old(S()), a) && ok == conn.Usable()
      ensures phase == if !ok then Idle else match a
                case BrowserOffer => InReceive(OfferCheck)
                case BrowserAnswer => InApply(AnswerCheck)
                case _ => InFlush(FlushTake)
    {
      ok := conn.Usable();
      if ok {
        phase := match a
          case BrowserOffer => InReceive(OfferCheck)
          case BrowserAnswer => InApply(AnswerCheck)
          case _ => InFlush(FlushTake);
      }
    }

    /** Which way an inbound offer goes. */
    method Classify(ghost offer: OfferId) returns (before: Signaling)
      requires phase.InReceive? && phase.rp.OfferCheck? && offer == h.arrived
      modifies this`phase, this`h
      ensures Did(old(S()), S(), true) && before == sig
      ensures h.arrived == if before.Stable? || before.HaveLocalOffer? then offer + 1 else offer
      ensures phase == match before
                case Stable => InAnswer(SettingRemote, offer, Inline)
                case HaveLocalOffer => InReceive(Storing(offer))
                case _ => Idle
    {
      before := sig;
      phase := match before
        case Stable => InAnswer(SettingRemote, offer, Inline)
        case HaveLocalOffer => InReceive(Storing(offer))
        case _ => Idle;
      if before.Stable? || before.HaveLocalOffer? { h := h.(arrived := offer + 1); }
    }

    /** Keep the offer in the one slot; an older one is superseded. */
    method StoreOffer(offer: OfferId)
      requires phase == InReceive(Storing(offer)) && mu.Free?
      modifies this`pendingInboundOffer, this`phase, this`h
      ensures Did(old(S()), S(), true) && phase.Idle? && h.arrived == old(h.arrived)
      ensures pendingInboundOffer == Some(offer) && Stored(offer) in h.log
    {
      h := h.Drop(pendingInboundOffer, Superseded).Note(Stored(offer));
      pendingInboundOffer := Some(offer);
      phase := Idle;
    }

    // -------------------------------------------------------------- sections of answerExchangeLocked

    method SetRemoteOffer(verdict: bool) returns (ok: bool)
      requires phase.InAnswer? && phase.ap.SettingRemote?
      modifies this`sig, this`phase, this`h
      ensures Did(old(S()), S(), verdict) && h.arrived == old(h.arrived)
      ensures phase == if ok then old(phase).(ap := CreatingAnswer) else Idle
      ensures ok == Continues(old(sig), old(phase).ap, verdict)
    {
      h := h.Called(Call.SetRemoteOffer, sig);
      ok := verdict && sig == Stable;
      if ok {
        sig := HaveRemoteOffer;
        phase := phase.(ap := CreatingAnswer);
      } else {
        h := h.Fail(phase.id, phase.mode);
        phase := Idle;
      }
    }

    method CreateAnswer(verdict: bool) returns (ok: bool)
      requires phase.InAnswer? && phase.ap.CreatingAnswer?
      modifies this`phase, this`h
      ensures Did(old(S()), S(), verdict) && h.arrived == old(h.arrived)
      ensures phase == if ok then old(phase).(ap := SettingAnswer) else Idle
      ensures ok == Continues(old(sig), old(phase).ap, verdict)
    {
      ok := verdict && sig == HaveRemoteOffer;
      if !ok { h := h.Fail(phase.id, phase.mode); }
      phase := if ok then phase.(ap := SettingAnswer) else Idle;
    }

    method SetLocalAnswer(verdict: bool) returns (ok: bool)
      requires phase.InAnswer? && phase.ap.SettingAnswer?
      modifies this`sig, this`phase, this`h
      ensures Did(old(S()), S(), verdict) && h.arrived == old(h.arrived)
      ensures phase == if ok then old(phase).(ap := GatheringAnswer) else Idle
      ensures ok == Continues(old(sig), old(phase).ap, verdict)
    {
      h := h.Called(Call.SetLocalAnswer, sig);
      ok := verdict && sig == HaveRemoteOffer;
      if ok {
        sig := Stable;
        phase := phase.(ap := GatheringAnswer);
      } else {
        h := h.Fail(phase.id, phase.mode);
        phase := Idle;
      }
    }

    method GatherAnswer(verdict: bool, mode: Mode) returns (ok: bool)
      requires phase.InAnswer? && phase.ap.GatheringAnswer? && phase.mode == mode
      modifies this`phase, this`h
      ensures Did(old(S()), S(), verdict) && h.arrived == old(h.arrived) && ok == verdict
      ensures phase == if ok && mode.Deferred? then old(phase).(ap := Delivering) else Idle
      ensures ok && mode.Inline? ==> h.log == old(h.log) + [Settled(old(phase).id, AnsweredInline)]
    {
      ok := verdict;
      if !ok {
        h := h.Fail(phase.id, phase.mode);
        phase := Idle;
      } else if mode.Inline? {
        h := h.Note(Settled(phase.id, AnsweredInline));
        phase := Idle;
      } else {
        phase := phase.(ap := Delivering);
      }
    }

    /** deliverAnswerLocked: send the deferred answer over the signaling sender, if there is one. */
    method DeliverAnswer() returns (sent: bool)
      requires phase.InAnswer? && phase.ap.Delivering? && mu.Free?
      modifies this`phase, this`h
      ensures Did(old(S()), S(), true) && h.arrived == old(h.arrived)
      ensures phase == InFlush(FlushPending) && sent == hasSender
    {
      sent := hasSender;
      h := h.Note(Settled(phase.id, AnsweredDeferred(sent)));
      phase := InFlush(FlushPending);
    }

    // -------------------------------------------------------------- sections of ProcessBrowserAnswer

    method AnswerExpected() returns (expected: bool)
      requires phase == InApply(AnswerCheck)
      modifies this`phase
      ensures Did(old(S()), S(), true) && phase == if expected then InApply(ApplyingAnswer) else Idle
      ensures expected == sig.HaveLocalOffer?
    {
      expected := sig == HaveLocalOffer;
      phase := if expected then InApply(ApplyingAnswer) else Idle;
    }

    method ApplyAnswer(verdict: bool) returns (ok: bool)
      requires phase == InApply(ApplyingAnswer)
      modifies this`sig, this`phase, this`h
      ensures Did(old(S()), S(), verdict) && h.arrived == old(h.arrived)
      ensures phase == if ok then InApply(ClearNegotiating) else Idle
      ensures ok == (verdict && old(sig) == HaveLocalOffer) && sig == if ok then Stable else old(sig)
    {
      h := h.Called(SetRemoteAnswer, sig);
      ok := verdict && sig == HaveLocalOffer;
      if ok {
        sig := Stable;
        h := h.Note(AnswerApplied);
      }
      phase := if ok then InApply(ClearNegotiating) else Idle;
    }

    method ClearNegotiation()
      requires phase == InApply(ClearNegotiating) && mu.Free?
      modifies this`isNegotiating, this`phase
      ensures Did(old(S()), S(), true) && phase == InFlush(FlushTake) && !isNegotiating
    {
      isNegotiating := false;
      phase := InFlush(FlushTake);
    }

    // -------------------------------------------------------------- sections of flushPendingLocked

    method TakeStored() returns (inbound: Option<OfferId>)
      requires phase == InFlush(FlushTake) && mu.Free?
      modifies this`pendingInboundOffer, this`phase
      ensures Did(old(S()), S(), true) && inbound == old(pendingInboundOffer) && pendingInboundOffer.None?
      ensures phase == InFlush(if inbound.Some? then FlushCheck(inbound.value) else FlushPending)
    {
      inbound := pendingInboundOffer;
      pendingInboundOffer := None;
      phase := InFlush(if inbound.Some? then FlushCheck(inbound.value) else FlushPending);
    }

    method FlushStable(inbound: OfferId) returns (stable: bool)
      requires phase == InFlush(FlushCheck(inbound))
      modifies this`phase
      ensures Did(old(S()), S(), true) && stable == sig.Stable?
      ensures phase == if stable then InAnswer(SettingRemote, inbound, Deferred) else InFlush(FlushRestore(inbound))
    {
      stable := sig == Stable;
      phase := if stable then InAnswer(SettingRemote, inbound, Deferred) else InFlush(FlushRestore(inbound));
    }

    method Restore(inbound: OfferId)
      requires phase == InFlush(FlushRestore(inbound)) && mu.Free?
      modifies this`pendingInboundOffer, this`phase
      ensures Did(old(S()), S(), true) && phase.Idle? && pendingInboundOffer == Some(inbound)
    {
      pendingInboundOffer := Some(inbound);
      phase := Idle;
    }

    method NeedPending() returns (go: bool)
      requires phase == InFlush(FlushPending) && mu.Free?
      modifies this`pendingNegotiation, this`phase
      ensures Did(old(S()), S(), true) && phase == if go then InFlush(FlushSignaling) else Idle
      ensures go == (old(pendingNegotiation) && conn != ClosedConn && conn != Failed) && pendingNegotiation == go
    {
      go := pendingNegotiation && conn.Usable();
      if pendingNegotiation && !conn.Usable() {
        pendingNegotiation := false;
      }
      phase := if go then InFlush(FlushSignaling) else Idle;
    }

    method StillStable() returns (go: bool)
      requires phase == InFlush(FlushSignaling)
      modifies this`phase
      ensures Did(old(S()), S(), true) && phase == if go then InFlush(FlushIdleCheck) else Idle
      ensures go == sig.Stable?
    {
      go := sig == Stable;
      phase := if go then InFlush(FlushIdleCheck) else Idle;
    }

    method NoOfferOut() returns (go: bool)
      requires phase == InFlush(FlushIdleCheck) && mu.Free?
      modifies this`phase
      ensures Did(old(S()), S(), true) && phase == if go then OfferEntry(false) else Idle
      ensures go == !isNegotiating
    {
      go := !isNegotiating;
      phase := if go then OfferEntry(false) else Idle;
    }

    // -------------------------------------------------------------- the gate's procedures

    /** Bookkeeping after one section of a gate call. */
    ghost method Stepped(s: State, ok: bool)
      requires Journal(start, trace, past, s)
      requires !s.phase.Idle? && (s.phase.NeedsMu() ==> s.mu.Free?) && Did(s, S(), ok)
      modifies this`trace, this`past, this`entered
      ensures Valid() && trace == old(trace) + [GateStep(ok)] && past == old(past) + [s] && entered == old(entered)
      ensures h.out == Emit(s.h.out, Emits(s, ok))
    {
      assert Look(0);
      SectionIsNext(s, ok);
      SectionEmits(s, ok);
      Note(s, GateStep(ok));
    }

    /**
     serverOfferLocked. `guard` is when its guard was evaluated: an error means that the guard met an unusable
     connection or that the failure closure ran; otherwise an offer was sent exactly when the guard asked for one.
     */
    method ServerOffer() returns (ok: bool, ghost guard: nat)
      requires Valid() && phase.OfferEntry?
      modifies this
      ensures Valid() && phase.Idle? && h.arrived == old(h.arrived) && NoEntrySince(old(trace), old(past), old(entered))
      ensures old(|trace|) <= guard < |trace| && past[guard].phase == old(phase)
      ensures h.out == Emit(old(h.out), Outcome(past[guard], ok))
      ensures ok ==> past[guard].conn.Usable()
      ensures past[guard].conn.Usable() && !MakesOffer(past[guard]) ==> ok
      ensures MakesOffer(past[guard]) ==> Offered(past[guard].negotiationGeneration, ok)
      ensures Alone() && old(mu.Free?) ==> past[guard] == old(S())
    {
      var generation;
      ok, generation, guard := PassGuard();
      if generation.Some? {
        ok := OfferOrFail(generation.value);
        assert Pin(guard);
      }
    }

    /** The guard, with its place in the journal. */
    method PassGuard() returns (ok: bool, generation: Option<nat>, ghost guard: nat)
      requires Valid() && phase.OfferEntry?
      modifies this
      ensures Valid() && Quietly(old(S())) && NoEntrySince(old(trace), old(past), old(entered))
      ensures old(|trace|) <= guard == |trace| - 1 && past[guard].phase == old(phase) && ok == past[guard].conn.Usable()
      ensures generation == if MakesOffer(past[guard]) then Some(past[guard].negotiationGeneration) else None
      ensures phase == if generation.None? then Idle else InOffer(Creating, generation.value)
      ensures Alone() && old(mu.Free?) ==> past[guard] == old(S())
    {
      Lock();
      ghost var s := S();
      guard := |trace|;
      ok, generation := OfferGuard();
      Stepped(s, true);
    }

    /** The offer of that generation is recorded, or the need is armed again and no offer is out. */
    ghost predicate Offered(generation: nat, ok: bool)
      reads this
    {
      if ok then lastOfferGeneration == generation else pendingNegotiation && !isNegotiating
    }

    /** Make the offer; on failure run the failure closure. */
    method OfferOrFail(generation: nat) returns (ok: bool)
      requires Valid() && phase == InOffer(Creating, generation)
      modifies this
      ensures Valid() && phase.Idle? && h.arrived == old(h.arrived) && NoEntrySince(old(trace), old(past), old(entered))
      ensures h.out == old(h.out) + [if ok then OfferSent(generation) else OfferFailed] && Offered(generation, ok)
    {
      ok := MakeOffer(generation);
      if !ok {
        Lock();
        ghost var s := S();
        FailOffer();
        Stepped(s, true);
      }
    }

    /** CreateOffer, SetLocalDescription, record, gather, send; on failure the caller runs the failure closure. */
    method MakeOffer(generation: nat) returns (ok: bool)
      requires Valid() && phase == InOffer(Creating, generation)
      modifies this
      ensures Valid() && h.arrived == old(h.arrived) && NoEntrySince(old(trace), old(past), old(entered))
      ensures phase == if ok then Idle else Failing
      ensures h.out == if ok then old(h.out) + [OfferSent(generation)] else old(h.out)
      ensures ok ==> lastOfferGeneration == generation
    {
      var verdict := Yield();
      ghost var s := S();
      ok := CreateOffer(verdict);
      Stepped(s, verdict);
      if ok {
        ok := GoLive(generation);
      }
    }

    method GoLive(generation: nat) returns (ok: bool)
      requires Valid() && phase == InOffer(SettingLocal, generation)
      modifies this
      ensures Valid() && h.arrived == old(h.arrived) && NoEntrySince(old(trace), old(past), old(entered))
      ensures phase == if ok then Idle else Failing
      ensures h.out == if ok then old(h.out) + [OfferSent(generation)] else old(h.out)
      ensures ok ==> lastOfferGeneration == generation
    {
      var verdict := Yield();
      ghost var s := S();
      ok := SetLocalOffer(verdict);
      Stepped(s, verdict);
      if ok {
        ok := RecordAndSend(generation);
      }
    }

    method RecordAndSend(generation: nat) returns (ok: bool)
      requires Valid() && phase == InOffer(Recording, generation)
      modifies this
      ensures Valid() && h.arrived == old(h.arrived) && NoEntrySince(old(trace), old(past), old(entered))
      ensures phase == if ok then Idle else Failing
      ensures h.out == if ok then old(h.out) + [OfferSent(generation)] else old(h.out)
      ensures ok ==> lastOfferGeneration == generation
    {
      Lock();
      ghost var s := S();
      RecordOffer(generation);
      Stepped(s, true);
      ok := GatherAndSend(generation);
    }

    method GatherAndSend(ghost generation: nat) returns (ok: bool)
      requires Valid() && phase == InOffer(Gathering, generation) && lastOfferGeneration == generation
      modifies this
      ensures Valid() && h.arrived == old(h.arrived) && NoEntrySince(old(trace), old(past), old(entered))
      ensures phase == if ok then Idle else Failing
      ensures h.out == if ok then old(h.out) + [OfferSent(generation)] else old(h.out)
      ensures ok ==> lastOfferGeneration == generation
    {
      var verdict := Yield();
      ghost var s := S();
      ok := GatherOffer(verdict);
      Stepped(s, verdict);
      if ok {
        EmitOffer(generation);
      }
    }

    method EmitOffer(ghost generation: nat)
      requires Valid() && phase == InOffer(Sending, generation)
      modifies this
      ensures Valid() && h.arrived == old(h.arrived) && NoEntrySince(old(trace), old(past), old(entered)) && phase.Idle?
      ensures h.out == old(h.out) + [OfferSent(generation)] && lastOfferGeneration == old(lastOfferGeneration)
    {
      var _ := Yield();
      ghost var s := S();
      SendOffer();
      Stepped(s, true);
    }

    /** No browser offer was numbered, and no outcome logged. */
    ghost predicate Quietly(s: State)
      reads this
    {
      h.arrived == s.h.arrived && h.out == s.h.out
    }

    /** At most one server offer was attempted. */
    ghost predicate AtMostOneOffer(s: State, offer: Option<Event>)
      reads this
    {
      h.arrived == s.h.arrived && h.out == Emit(s.h.out, offer) && OfferAtMost(offer)
    }

    /** answerExchangeLocked: each pion call may fail, and then the exchange is over. */
    method AnswerExchange(ghost offer: OfferId, mode: Mode) returns (ok: bool)
      requires Valid() && phase == InAnswer(SettingRemote, offer, mode)
      modifies this
      ensures Valid() && h.arrived == old(h.arrived) && NoEntrySince(old(trace), old(past), old(entered))
      ensures phase == if ok && mode.Deferred? then InAnswer(Delivering, offer, mode) else Idle
      ensures h.out == Emit(old(h.out), Exchanged(offer, mode, ok))
    {
      var verdict := Yield();
      ghost var s := S();
      ok := SetRemoteOffer(verdict);
      Stepped(s, verdict);
      if ok {
        ok := FinishAnswer(offer, mode);
      }
    }

    method FinishAnswer(ghost offer: OfferId, mode: Mode) returns (ok: bool)
      requires Valid() && phase == InAnswer(CreatingAnswer, offer, mode)
      modifies this
      ensures Valid() && h.arrived == old(h.arrived) && NoEntrySince(old(trace), old(past), old(entered))
      ensures phase == if ok && mode.Deferred? then InAnswer(Delivering, offer, mode) else Idle
      ensures h.out == Emit(old(h.out), Exchanged(offer, mode, ok))
    {
      var verdict := Yield();
      ghost var s := S();
      ok := CreateAnswer(verdict);
      Stepped(s, verdict);
      if ok {
        ok := InstallAnswer(offer, mode);
      }
    }

    method InstallAnswer(ghost offer: OfferId, mode: Mode) returns (ok: bool)
      requires Valid() && phase == InAnswer(SettingAnswer, offer, mode)
      modifies this
      ensures Valid() && h.arrived == old(h.arrived) && NoEntrySince(old(trace), old(past), old(entered))
      ensures phase == if ok && mode.Deferred? then InAnswer(Delivering, offer, mode) else Idle
      ensures h.out == Emit(old(h.out), Exchanged(offer, mode, ok))
    {
      var verdict := Yield();
      ghost var s := S();
      ok := SetLocalAnswer(verdict);
      Stepped(s, verdict);
      if ok {
        ok := AwaitGathering(offer, mode);
      }
    }

    method AwaitGathering(ghost offer: OfferId, mode: Mode) returns (ok: bool)
      requires Valid() && phase == InAnswer(GatheringAnswer, offer, mode)
      modifies this
      ensures Valid() && h.arrived == old(h.arrived) && NoEntrySince(old(trace), old(past), old(entered))
      ensures phase == if ok && mode.Deferred? then InAnswer(Delivering, offer, mode) else Idle
      ensures h.out == Emit(old(h.out), Exchanged(offer, mode, ok))
    {
      var verdict := Yield();
      ghost var s := S();
      ok := GatherAnswer(verdict, mode);
      Stepped(s, verdict);
    }

    /** flushPendingLocked: the stored browser offer first, then at most one server offer. */
    method FlushPendingWork() returns (ghost offer: Option<Event>)
      requires Valid() && phase == InFlush(FlushTake)
      modifies this
      ensures Valid() && phase.Idle? && AtMostOneOffer(old(S()), offer) && NoEntrySince(old(trace), old(past), old(entered))
    {
      Lock();
      ghost var s := S();
      var inbound := TakeStored();
      Stepped(s, true);
      var go := true;
      if inbound.Some? {
        go := AnswerStored(inbound.value);
      }
      offer := None;
      if go {
        offer := OfferIfNeeded();
      }
    }

    /** Answer the stored offer; false when it had to be put back or failed, which ends the flush. */
    method AnswerStored(inbound: OfferId) returns (go: bool)
      requires Valid() && phase == InFlush(FlushCheck(inbound))
      modifies this
      ensures Valid() && Quietly(old(S())) && NoEntrySince(old(trace), old(past), old(entered))
      ensures phase == if go then InFlush(FlushPending) else Idle
    {
      var _ := Yield();
      ghost var s := S();
      var stable := FlushStable(inbound);
      Stepped(s, true);
      if !stable {
        PutBack(inbound);
        return false;
      }
      go := AnswerExchange(inbound, Deferred);
      if go {
        DeliverDeferred();
      }
    }

    method PutBack(inbound: OfferId)
      requires Valid() && phase == InFlush(FlushRestore(inbound))
      modifies this
      ensures Valid() && phase.Idle? && Quietly(old(S())) && NoEntrySince(old(trace), old(past), old(entered))
    {
      Lock();
      ghost var s := S();
      Restore(inbound);
      Stepped(s, true);
    }

    method DeliverDeferred()
      requires Valid() && phase.InAnswer? && phase.ap.Delivering?
      modifies this
      ensures Valid() && Quietly(old(S())) && NoEntrySince(old(trace), old(past), old(entered)) && phase == InFlush(FlushPending)
    {
      Lock();
      ghost var s := S();
      var _ := DeliverAnswer();
      Stepped(s, true);
    }

    method OfferIfNeeded() returns (ghost offer: Option<Event>)
      requires Valid() && phase == InFlush(FlushPending)
      modifies this
      ensures Valid() && phase.Idle? && AtMostOneOffer(old(S()), offer) && NoEntrySince(old(trace), old(past), old(entered))
    {
      Lock();
      ghost var s := S();
      var go := NeedPending();
      Stepped(s, true);
      offer := None;
      if go {
        offer := OfferIfStable();
      }
    }

    method OfferIfStable() returns (ghost offer: Option<Event>)
      requires Valid() && phase == InFlush(FlushSignaling)
      modifies this
      ensures Valid() && phase.Idle? && AtMostOneOffer(old(S()), offer) && NoEntrySince(old(trace), old(past), old(entered))
    {
      var _ := Yield();
      ghost var s := S();
      var go := StillStable();
      Stepped(s, true);
      offer := None;
      if go {
        offer := OfferIfIdle();
      }
    }

    method OfferIfIdle() returns (ghost offer: Option<Event>)
      requires Valid() && phase == InFlush(FlushIdleCheck)
      modifies this
      ensures Valid() && phase.Idle? && AtMostOneOffer(old(S()), offer) && NoEntrySince(old(trace), old(past), old(entered))
    {
      Lock();
      ghost var s := S();
      var go := NoOfferOut();
      Stepped(s, true);
      offer := None;
      if go {
        var ok;
        ghost var guard;
        ok, guard := ServerOffer();
        offer := Outcome(past[guard], ok);
      }
    }

    // -------------------------------------------------------------- the gate's calls

    /** The call `a` was entered exactly once and is over. */
    ghost predicate Called(a: Action, t: seq<Action>, p: seq<State>, e: seq<Action>)
      reads this
    {
      Valid() && phase.Idle? && Grown(t, p) && entered == e + [a]
    }

    /**
     RequestSubscriberOffer (sync) and handleNegotiationNeeded. The call is let through when its first section, at
     `entry`, meets a usable connection with a sender and no offer outstanding, and its check, at `check`, meets
     stable; otherwise it reports false and offers nothing, and if an offer is outstanding or the check does not meet
     stable it leaves the need armed and counted. If it is let through, it reports true exactly when the
     guard, at `guard`, met a usable connection and the failure closure did not run, and then an offer was sent
     exactly when the guard asked for one.
     */
    method RequestOffer(sync: bool) returns (ok: bool, ghost entry: nat, ghost check: nat, ghost guard: nat)
      requires Valid() && phase.Idle?
      modifies this
      ensures Called(Trigger(sync), old(trace), old(past), old(entered)) && h.arrived == old(h.arrived)
      ensures old(|trace|) <= entry < |trace| && trace[entry] == Trigger(sync)
      ensures Admits(past[entry]) ==> entry < check < |trace| && trace[check] == GateStep(true)
      ensures !(Admits(past[entry]) && past[check].sig.Stable?) ==> !ok && h.out == old(h.out)
      ensures Behind(past[entry]) || (Admits(past[entry]) && !past[check].sig.Stable?) ==> Armed()
      ensures Admits(past[entry]) && past[check].sig.Stable? ==>
                && check < guard < |trace| && past[guard].phase == OfferEntry(true)
                && h.out == Emit(old(h.out), Outcome(past[guard], ok))
                && (ok ==> past[guard].conn.Usable())
                && (past[guard].conn.Usable() && !MakesOffer(past[guard]) ==> ok)
                && (MakesOffer(past[guard]) ==> Offered(past[guard].negotiationGeneration, ok))
      ensures Alone() && old(mu.Free?) && Admits(old(S())) && old(sig).Stable? ==>
                && past[entry] == old(S()) && past[check] == Next(past[entry], Trigger(sync))
                && past[guard] == Next(past[check], GateStep(true))
    {
      var e;
      e, entry := BeginRequest(sync);
      ok, check, guard := false, 0, 0;
      if e.Coalesce? {
        DeferOffer();
      } else if e.Proceed? {
        ok, check, guard := OfferOrDefer();
      }
      assert Pin(entry);
    }

    /** The last step armed the need. */
    ghost predicate Armed()
      reads this
    {
      past != [] && pendingNegotiation && negotiationsQueued == past[|past| - 1].negotiationsQueued + 1
    }

    /** The first section, with its place in the journal. */
    method BeginRequest(sync: bool) returns (e: Entry, ghost entry: nat)
      requires Valid() && phase.Idle?
      modifies this
      ensures Valid() && Grown(old(trace), old(past)) && entered == old(entered) + [Trigger(sync)] && Quietly(old(S()))
      ensures old(|trace|) <= entry == |trace| - 1 && trace[entry] == Trigger(sync)
      ensures phase == (match e case Refused => Idle case Coalesce => Deferring case Proceed => TriggerCheck)
      ensures e.Proceed? <==> Admits(past[entry])
      ensures e.Coalesce? <==> sync && Behind(past[entry])
      ensures !sync && Behind(past[entry]) ==> Armed()
      ensures Alone() && old(mu.Free?) ==> past[entry] == old(S()) && S() == Next(past[entry], Trigger(sync)) && mu.Free?
    {
      Lock();
      ghost var s := S();
      entry := |trace|;
      e := EnterTrigger(sync);
      Note(s, Trigger(sync));
    }

    method DeferOffer()
      requires Valid() && phase.Deferring?
      modifies this
      ensures Valid() && phase.Idle? && Quietly(old(S())) && NoEntrySince(old(trace), old(past), old(entered))
      ensures Armed()
    {
      Lock();
      ghost var s := S();
      Coalesced();
      Stepped(s, true);
    }

    method OfferOrDefer() returns (ok: bool, ghost check: nat, ghost guard: nat)
      requires Valid() && phase.TriggerCheck?
      modifies this
      ensures Valid() && phase.Idle? && h.arrived == old(h.arrived) && NoEntrySince(old(trace), old(past), old(entered))
      ensures old(|trace|) <= check < |trace| && trace[check] == GateStep(true)
      ensures !past[check].sig.Stable? ==> !ok && h.out == old(h.out) && Armed()
      ensures past[check].sig.Stable? ==>
                && check < guard < |trace| && past[guard].phase == OfferEntry(true)
                && h.out == Emit(old(h.out), Outcome(past[guard], ok))
                && (ok ==> past[guard].conn.Usable())
                && (past[guard].conn.Usable() && !MakesOffer(past[guard]) ==> ok)
                && (MakesOffer(past[guard]) ==> Offered(past[guard].negotiationGeneration, ok))
      ensures Alone() && old(mu.Free?) && old(sig).Stable? ==>
                past[check] == old(S()) && past[guard] == Next(past[check], GateStep(true))
    {
      var stable;
      stable, check := CheckStable();
      ok, guard := false, 0;
      if stable {
        ok, guard := ServerOffer();
      } else {
        DeferOffer();
      }
      assert Pin(check);
    }

    /** The check for stable, with its place in the journal. */
    method CheckStable() returns (stable: bool, ghost check: nat)
      requires Valid() && phase.TriggerCheck?
      modifies this
      ensures Valid() && Quietly(old(S())) && NoEntrySince(old(trace), old(past), old(entered))
      ensures old(|trace|) <= check == |trace| - 1 && trace[check] == GateStep(true)
      ensures phase == (if stable then OfferEntry(true) else Deferring) && stable == past[check].sig.Stable?
      ensures Alone() ==> past[check] == old(S()) && S() == Next(past[check], GateStep(true)) && mu == old(mu)
    {
      var _ := Yield();
      ghost var s := S();
      check := |trace|;
      stable := TriggerStable();
      SectionNextOf(s, S());
      Stepped(s, true);
    }

    /**
     An offer is answered inline, stored for later, or refused. It is refused, and not numbered, when the first
     section, at `entry`, meets an unusable connection, or the check, at `check`, neither stable nor have-local-offer.
     In have-local-offer it is stored. In stable it is answered, or its exchange fails; that and nothing else is logged.
     */
    method ProcessBrowserOffer(offer: OfferId) returns (answered: bool, deferred: bool, ghost entry: nat, ghost check: nat)
      requires Valid() && phase.Idle? && offer == h.arrived
      modifies this
      ensures Called(BrowserOffer, old(trace), old(past), old(entered))
      ensures old(|trace|) <= entry < |trace| && trace[entry] == BrowserOffer
      ensures !past[entry].conn.Usable() ==>
                !answered && !deferred && h.arrived == old(h.arrived) && h.out == old(h.out)
      ensures past[entry].conn.Usable() ==> entry < check < |trace| && Received(past[check].sig, offer, answered, deferred, old(h.out))
    {
      Lock();
      ghost var s := S();
      entry, check := |trace|, 0;
      var usable := Enter(BrowserOffer);
      Note(s, BrowserOffer);
      answered, deferred := false, false;
      if usable {
        answered, deferred, check := ReceiveOffer(offer);
      }
      assert Pin(entry);
    }

    /** What became of an inbound offer that met signaling state sig. */
    ghost predicate Received(sig: Signaling, offer: OfferId, answered: bool, deferred: bool, out: seq<Event>)
      reads this
    {
      match sig
      case Stable =>
        && !deferred && h.arrived == offer + 1
        && h.out == out + [Settled(offer, if answered then AnsweredInline else FailedInline)]
      case HaveLocalOffer =>
        && deferred && !answered && h.arrived == offer + 1 && h.out == out
        && pendingInboundOffer == Some(offer) && Stored(offer) in h.log
      case _ => !answered && !deferred && h.arrived == offer && h.out == out
    }

    method ReceiveOffer(offer: OfferId) returns (answered: bool, deferred: bool, ghost check: nat)
      requires Valid() && phase == InReceive(OfferCheck) && offer == h.arrived
      modifies this
      ensures Valid() && phase.Idle? && NoEntrySince(old(trace), old(past), old(entered))
      ensures old(|trace|) <= check < |trace| && Received(past[check].sig, offer, answered, deferred, old(h.out))
    {
      var before;
      before, check := CheckSignaling(offer);
      answered, deferred := false, false;
      if before == Stable {
        answered := AnswerExchange(offer, Inline);
      } else if before == HaveLocalOffer {
        DeferAnswer(offer);
        deferred := true;
      }
      assert Pin(check);
    }

    method CheckSignaling(offer: OfferId) returns (before: Signaling, ghost check: nat)
      requires Valid() && phase == InReceive(OfferCheck) && offer == h.arrived
      modifies this
      ensures Valid() && NoEntrySince(old(trace), old(past), old(entered)) && h.out == old(h.out)
      ensures old(|trace|) <= check == |trace| - 1 && before == past[check].sig
      ensures h.arrived == if before.Stable? || before.HaveLocalOffer? then offer + 1 else offer
      ensures phase == match before
                case Stable => InAnswer(SettingRemote, offer, Inline)
                case HaveLocalOffer => InReceive(Storing(offer))
                case _ => Idle
    {
      var _ := Yield();
      ghost var s := S();
      check := |trace|;
      before := Classify(offer);
      Stepped(s, true);
    }

    method DeferAnswer(offer: OfferId)
      requires Valid() && phase == InReceive(Storing(offer))
      modifies this
      ensures Valid() && phase.Idle? && NoEntrySince(old(trace), old(past), old(entered)) && Quietly(old(S()))
      ensures pendingInboundOffer == Some(offer) && Stored(offer) in h.log
    {
      Lock();
      ghost var s := S();
      StoreOffer(offer);
      Stepped(s, true);
    }

    /** True exactly when the answer was installed; deferred work is then flushed, as at most one server offer. */
    method ProcessBrowserAnswer() returns (ok: bool, ghost offer: Option<Event>)
      requires Valid() && phase.Idle?
      modifies this
      ensures Called(BrowserAnswer, old(trace), old(past), old(entered)) && h.arrived == old(h.arrived)
      ensures h.out == if ok then Emit(old(h.out) + [AnswerApplied], offer) else old(h.out)
      ensures OfferAtMost(offer)
    {
      Lock();
      ghost var s := S();
      ok := Enter(BrowserAnswer);
      Note(s, BrowserAnswer);
      offer := None;
      if ok {
        ok, offer := InstallBrowserAnswer();
      }
    }

    method InstallBrowserAnswer() returns (ok: bool, ghost offer: Option<Event>)
      requires Valid() && phase == InApply(AnswerCheck)
      modifies this
      ensures Valid() && phase.Idle? && h.arrived == old(h.arrived) && NoEntrySince(old(trace), old(past), old(entered))
      ensures h.out == if ok then Emit(old(h.out) + [AnswerApplied], offer) else old(h.out)
      ensures OfferAtMost(offer)
    {
      var _ := Yield();
      ghost var s := S();
      ok := AnswerExpected();
      Stepped(s, true);
      offer := None;
      if ok {
        ok, offer := SetRemoteAndFlush();
      }
    }

    method SetRemoteAndFlush() returns (ok: bool, ghost offer: Option<Event>)
      requires Valid() && phase == InApply(ApplyingAnswer)
      modifies this
      ensures Valid() && phase.Idle? && h.arrived == old(h.arrived) && NoEntrySince(old(trace), old(past), old(entered))
      ensures h.out == if ok then Emit(old(h.out) + [AnswerApplied], offer) else old(h.out)
      ensures OfferAtMost(offer)
    {
      var verdict := Yield();
      ghost var s := S();
      ok := ApplyAnswer(verdict);
      Stepped(s, verdict);
      offer := None;
      if ok {
        offer := AfterAnswer();
      }
    }

    method AfterAnswer() returns (ghost offer: Option<Event>)
      requires Valid() && phase == InApply(ClearNegotiating)
      modifies this
      ensures Valid() && phase.Idle? && AtMostOneOffer(old(S()), offer) && NoEntrySince(old(trace), old(past), old(entered))
    {
      Lock();
      ghost var s := S();
      ClearNegotiation();
      Stepped(s, true);
      offer := FlushPendingWork();
    }

    method FlushDeferredNegotiation() returns (ghost offer: Option<Event>)
      requires Valid() && phase.Idle?
      modifies this
      ensures Called(Flush, old(trace), old(past), old(entered)) && AtMostOneOffer(old(S()), offer)
    {
      Lock();
      ghost var s := S();
      var usable := Enter(Flush);
      Note(s, Flush);
      offer := None;
      if usable {
        offer := FlushPendingWork();
      }
    }

    /** Since step n the connection was up and had a sender. */
    ghost predicate UpSince(n: nat)
      reads this
    {
      && !Down(S()) && hasSender
      && forall m {:trigger Pin(m)} :: n < m < |past| && Pin(m) ==> !Down(past[m]) && past[m].hasSender
    }

    /** What is proved of the machine's runs holds of the object between any two calls. */
    lemma {:induction false} SafeBetweenCalls()
      requires Valid() && start == Init(start.hasSender) && phase.Idle?
      ensures sig != SignalingClosed && isNegotiating ==> sig == HaveLocalOffer
      ensures sig != SignalingClosed && pendingInboundOffer.Some? ==> sig == HaveLocalOffer
      ensures sig != SignalingClosed ==> forall i :: 0 <= i < |h.calls| ==> h.calls[i].1 == h.calls[i].0.From()
    {
      GlareFreedom(start.hasSender, trace);
      Arrived(start, trace, past, S());
    }

    /** Between any two calls: whatever generation a trigger met is offered or armed, if the connection was up since. */
    lemma {:induction false} NothingLostBetweenCalls(n: nat)
      requires Valid() && start == Init(start.hasSender) && phase.Idle?
      requires n < |trace| && |past| == |trace| && trace[n].Trigger? && Heard(past[n]) && UpSince(n)
      ensures past[n].negotiationGeneration <= lastOfferGeneration || pendingNegotiation
    {
      var u, after := Next(past[n], trace[n]), trace[n + 1..];
      assert Mark(n);
      StateAfter(start, trace, past, S(), n, |after|);
      assert after[..|after|] == after;
      if EverDown(u, after) {
        var k := DownAt(u, after);
        StateAfter(start, trace, past, S(), n, k);
        assert Pin(n + 1 + k);
      }
      if SenderGone(u, after) {
        var k := GoneAt(u, after);
        StateAfter(start, trace, past, S(), n, k);
        assert Pin(n + 1 + k);
      }
      NoRenegotiationLost(start.hasSender, trace[..n], trace[n].sync, after);
    }

    /** Of the browser's offers exactly the stored one is unsettled, fates are in order, and none waits behind a server offer. */
    lemma {:induction false} AccountedBetweenCalls()
      requires Valid() && start == Init(start.hasSender) && phase.Idle?
      ensures forall id: nat :: id < h.arrived ==>
                ((exists k :: 0 <= k < |h.log| && h.log[k].Settled? && h.log[k].id == id) <==> pendingInboundOffer != Some(id))
      ensures forall i, j :: 0 <= i < j < |h.log| && h.log[i].Settled? && h.log[j].Settled? ==> h.log[i].id < h.log[j].id
      ensures forall i, j :: 0 <= j < i < |h.log| && h.log[i].OfferSent? && h.log[j].Stored? ==>
                exists k :: j < k < i && h.log[k].Settled? && h.log[k].id == h.log[j].id
    {
      BrowserOfferAccounting(start.hasSender, trace);
      DeferredAnswerFirst(start.hasSender, trace);
      Arrived(start, trace, past, S());
    }
  }

  /** A request on a fresh connection reports true although the guard skips and no offer is sent. */
  method SkippedOfferReportsTrue() returns (ok: bool, ghost sent: seq<Event>)
    ensures ok && sent == []
  {
    var pc := new PeerConnection(true, _ => [], _ => true);
    ghost var s := pc.S();
    ghost var entry, check, guard;
    ok, entry, check, guard := pc.RequestOffer(true);
    assert Next(s, Trigger(true)) == s.(phase := TriggerCheck);
    assert Next(s.(phase := TriggerCheck), GateStep(true)) == s.(phase := OfferEntry(true));
    sent := pc.h.out;
  }

  /** A trigger's first section meets our own outstanding offer. */
  predicate Behind(s: State) { s.conn != ClosedConn && s.conn != Failed && s.hasSender && s.isNegotiating }

  /** A trigger's first section lets the call through. */
  predicate Admits(s: State) { s.conn.Usable() && s.hasSender && !s.isNegotiating }

  /** The guard of serverOfferLocked asks for an offer. */
  predicate MakesOffer(s: State) {
    s.conn.Usable() && s.hasSender && s.sig.Stable? && s.lastOfferGeneration != s.negotiationGeneration
  }

  /** What serverOfferLocked logs after a guard evaluated in state s. */
  function Outcome(s: State, ok: bool): Option<Event> {
    if !MakesOffer(s) then None else Some(if ok then OfferSent(s.negotiationGeneration) else OfferFailed)
  }

  function Emit(out: seq<Event>, e: Option<Event>): seq<Event> { if e.None? then out else out + [e.value] }

  predicate OfferAtMost(e: Option<Event>) { e.Some? ==> e.value.OfferSent? || e.value.OfferFailed? }

  /** What the answer exchange logs of that kind. */
  function Exchanged(offer: OfferId, mode: Mode, ok: bool): Option<Event> {
    if mode.Deferred? then None else Some(Settled(offer, if ok then AnsweredInline else FailedInline))
  }

  /** The answer exchange goes on after the pion call it is at. */
  predicate Continues(sig: Signaling, ap: AnswerPc, ok: bool) {
    match ap
    case SettingRemote => sig.Accepts(SetRemoteOffer, ok)
    case CreatingAnswer => ok && sig.HaveRemoteOffer?
    case SettingAnswer => sig.Accepts(SetLocalAnswer, ok)
    case _ => ok
  }

  /** What the section about to run logs of that kind. */
  function Emits(s: State, ok: bool): Option<Event> {
    match s.phase
    case Failing => Some(OfferFailed)
    case InOffer(op, g) => if op.Sending? then Some(OfferSent(g)) else None
    case InApply(pp) => if pp.ApplyingAnswer? && s.sig.Accepts(SetRemoteAnswer, ok) then Some(AnswerApplied) else None
    case InAnswer(ap, id, mode) =>
      if mode.Deferred? || ap.Delivering? then None
      else if ap.GatheringAnswer? then Some(Settled(id, if ok then AnsweredInline else FailedInline))
      else if Continues(s.sig, ap, ok) then None
      else Some(Settled(id, FailedInline))
    case _ => None
  }

  /** The section a gate call is about to run, procedure by procedure. */
  function Section(s: State, ok: bool): State
    requires !s.phase.Idle?
  {
    match s.phase
    case TriggerCheck | Deferring => TriggerStep(s)
    case OfferEntry(_) | Failing => EntryStep(s)
    case InOffer(_, _) => OfferStep(s, ok)
    case InReceive(_) => ReceiveStep(s)
    case InAnswer(_, _, _) => AnswerStep(s, ok)
    case InApply(_) => ApplyStep(s, ok)
    case InFlush(_) => FlushStep(s)
  }

  /** Says that one wants to look into a section. */
  predicate Look(n: nat) { true }

  /** The section begun in state s has led to state t. */
  ghost predicate Did(s: State, t: State, ok: bool) {
    !s.phase.Idle? && forall n {:trigger Look(n)} :: Look(n) ==> t == Section(s, ok)
  }

  lemma {:induction false} SectionNextOf(s: State, t: State)
    requires Did(s, t, true) && s.phase.TriggerCheck?
    ensures t == Next(s, GateStep(true)) && t.mu == s.mu
  {
    assert Look(0);
  }

  lemma SectionIsNext(s: State, ok: bool)
    requires !s.phase.Idle? && (s.phase.NeedsMu() ==> s.mu.Free?)
    ensures Section(s, ok) == Next(s, GateStep(ok))
  {
  }

  lemma {:induction false} SectionEmits(s: State, ok: bool)
    requires !s.phase.Idle?
    ensures Section(s, ok).h.out == Emit(s.h.out, Emits(s, ok))
  {
    match s.phase
    case TriggerCheck | Deferring => assert TriggerStep(s).h.out == s.h.out;
    case OfferEntry(_) => assert EntryStep(s).h.out == s.h.out;
    case Failing =>
    case InOffer(_, _) => OfferEmits(s, ok);
    case InReceive(_) => ReceiveEmits(s);
    case InAnswer(_, _, _) => AnswerEmits(s, ok);
    case InApply(_) => ApplyEmits(s, ok);
    case InFlush(_) => assert FlushStep(s).h.out == s.h.out;
  }

  lemma {:induction false} OfferEmits(s: State, ok: bool)
    requires s.phase.InOffer?
    ensures OfferStep(s, ok).h.out == Emit(s.h.out, Emits(s, ok))
  {
    match s.phase.op {
      case Creating =>
      case SettingLocal =>
      case Recording =>
      case Gathering =>
      case Sending =>
    }
  }

  lemma {:induction false} ReceiveEmits(s: State)
    requires s.phase.InReceive?
    ensures ReceiveStep(s).h.out == s.h.out
  {
    match s.phase.rp {
      case OfferCheck =>
      case Storing(_) =>
    }
  }

  lemma {:induction false} AnswerEmits(s: State, ok: bool)
    requires s.phase.InAnswer?
    ensures AnswerStep(s, ok).h.out == Emit(s.h.out, Emits(s, ok))
  {
    match s.phase.ap {
      case SettingRemote => AnswerEmitsEarly(s, ok);
      case CreatingAnswer => AnswerEmitsEarly(s, ok);
      case SettingAnswer => AnswerEmitsSet(s, ok);
      case GatheringAnswer => AnswerEmitsLate(s, ok);
      case Delivering => AnswerEmitsLate(s, ok);
    }
  }

  lemma AnswerEmitsEarly(s: State, ok: bool)
    requires s.phase.InAnswer? && (s.phase.ap.SettingRemote? || s.phase.ap.CreatingAnswer?)
    ensures AnswerStep(s, ok).h.out == Emit(s.h.out, Emits(s, ok))
  {
  }

  lemma AnswerEmitsSet(s: State, ok: bool)
    requires s.phase.InAnswer? && s.phase.ap.SettingAnswer?
    ensures AnswerStep(s, ok).h.out == Emit(s.h.out, Emits(s, ok))
  {
  }

  lemma AnswerEmitsLate(s: State, ok: bool)
    requires s.phase.InAnswer? && (s.phase.ap.GatheringAnswer? || s.phase.ap.Delivering?)
    ensures AnswerStep(s, ok).h.out == Emit(s.h.out, Emits(s, ok))
  {
  }

  lemma {:induction false} ApplyEmits(s: State, ok: bool)
    requires s.phase.InApply?
    ensures ApplyStep(s, ok).h.out == Emit(s.h.out, Emits(s, ok))
  {
    match s.phase.pp {
      case AnswerCheck =>
      case ApplyingAnswer =>
      case ClearNegotiating =>
    }
  }

  /** How a thread that holds pc.mu lets go of it. */
  function Finisher(m: MuHolder, ok: bool): (a: Action)
    ensures !a.IsGate()
  {
    match m
    case Closing => CloseEnd(ok)
    case Removing(_) => RemoveCommit
    case Adding(_) => if ok then AddCommit else AddAbort
    case _ => AddAbort
  }

  lemma FinisherFrees(s: State, ok: bool)
    ensures Next(s, Finisher(s.mu, ok)).mu.Free?
  {
  }

  /** Threads that take only pc.mu leave the gate call in progress where it is. */
  lemma {:induction false} OthersKeep(s: State, a: Action)
    requires !a.IsGate()
    ensures Next(s, a) == MuStep(s, a) && Next(s, a).phase == s.phase && Next(s, a).h.arrived == s.h.arrived
    ensures Next(s, a).h.out == s.h.out && Next(s, a).lastOfferGeneration == s.lastOfferGeneration
  {
    match a {
      case AddBegin(_) =>
      case AddDetach =>
      case AddReattach =>
      case AddCommit =>
      case AddAbort =>
      case RemoveBegin(_, _) =>
      case RemoveCommit =>
      case CloseBegin =>
      case CloseEnd(_) =>
      case ConnChange(_) =>
      case SetSender(_) =>
    }
  }

  // ---------------------------------------------------------------- traces

  /** Names a position of the journal one wants to look at. */
  predicate Mark(n: nat) { true }

  /** Names a position of the journal that later entries leave alone. */
  predicate Pin(n: nat) { true }

  /** `past` are the states before each step of `trace`, and `now` is the state after it. */
  ghost predicate Journal(start: State, trace: seq<Action>, past: seq<State>, now: State) {
    && |past| == |trace|
    && forall n {:trigger Mark(n)} :: 0 <= n <= |trace| && Mark(n) ==>
         (if n < |trace| then past[n] else now) == Run(start, trace[..n])
  }

  lemma {:induction false} Arrived(start: State, trace: seq<Action>, past: seq<State>, now: State)
    requires Journal(start, trace, past, now)
    ensures now == Run(start, trace)
  {
    assert Mark(|trace|);
    assert trace[..|trace|] == trace;
  }

  /** The state k steps after step n. */
  lemma {:induction false} StateAfter(start: State, trace: seq<Action>, past: seq<State>, now: State, n: nat, k: nat)
    requires Journal(start, trace, past, now) && n < |trace| && n + 1 + k <= |trace|
    ensures Run(Next(past[n], trace[n]), trace[n + 1..][..k]) == if n + 1 + k < |trace| then past[n + 1 + k] else now
  {
    var rest := trace[n + 1..][..k];
    Cut(trace, n, k);
    RunAppend(start, trace[..n], [trace[n]] + rest);
    assert ([trace[n]] + rest)[1..] == rest;
    assert Mark(n) && Mark(n + 1 + k);
  }

  lemma {:induction false} Cut<T>(s: seq<T>, n: nat, k: nat)
    requires n < |s| && n + 1 + k <= |s|
    ensures s[..n + 1 + k] == s[..n] + ([s[n]] + s[n + 1..][..k])
  {
    var a, b := s[..n + 1 + k], s[..n] + ([s[n]] + s[n + 1..][..k]);
    forall i | 0 <= i < |a|
      ensures a[i] == b[i]
    {
    }
  }

  lemma {:induction false} JournalMore(start: State, trace: seq<Action>, past: seq<State>, now: State, a: Action)
    requires Journal(start, trace, past, now)
    ensures Journal(start, trace + [a], past + [now], Next(now, a))
  {
    Arrived(start, trace, past, now);
    RunMore(start, trace, a);
    forall n | 0 <= n <= |trace| + 1
      ensures (if n <= |trace| then (past + [now])[n] else Next(now, a)) == Run(start, (trace + [a])[..n])
    {
      assert Mark(n);
      if n <= |trace| {
        assert (trace + [a])[..n] == trace[..n];
      } else {
        assert (trace + [a])[..n] == trace + [a];
      }
    }
  }

  lemma {:induction false} RunMore(s: State, acts: seq<Action>, a: Action)
    ensures Run(s, acts + [a]) == Next(Run(s, acts), a)
  {
    RunAppend(s, acts, [a]);
    var t := Run(s, acts);
    assert Run(t, [a]) == Run(Next(t, a), []);
  }
}
