/** AddTrack and RemoveTrack: what is in the map, what pion holds, and what is counted, with the gate running in between. */
module GateTracks {
  import opened Prelude
  import opened Gate
  import opened GateInvariant
  import opened GateTheorems

  // ---------------------------------------------------------------- gate steps do not matter

  /** As far as the tracks are concerned, t is s. */
  predicate SameTracks(s: State, t: State) {
    && t.conn == s.conn && t.mu == s.mu && t.localTracks == s.localTracks && t.senders == s.senders
    && t.negotiationGeneration == s.negotiationGeneration
  }

  /** The steps under pc.mu of threads other than the gate's. */
  function MuActions(acts: seq<Action>): seq<Action> {
    if acts == [] then []
    else (if acts[0].IsGate() then [] else [acts[0]]) + MuActions(acts[1..])
  }

  lemma {:induction false} GateLeavesTracks(s: State, a: Action)
    requires a.IsGate()
    ensures SameTracks(s, Next(s, a))
  {
    if a.GateStep? { StepLeavesTracks(s, a.ok); } else { EnterLeavesTracks(s, a); }
  }

  lemma {:induction false} StepLeavesTracks(s: State, ok: bool)
    ensures SameTracks(s, GateProgress(s, ok))
  {
    match s.phase {
      case Idle =>
      case TriggerCheck | Deferring => EntryLeavesTracks(s);
      case OfferEntry(_) | Failing => EntryLeavesTracks(s);
      case InOffer(_, _) => OfferLeavesTracks(s, ok);
      case InReceive(_) => ReceiveLeavesTracks(s, ok);
      case InAnswer(_, _, _) => AnswerLeavesTracks(s, ok);
      case InApply(_) => ReceiveLeavesTracks(s, ok);
      case InFlush(_) => FlushLeavesTracks(s);
    }
  }

  lemma EnterLeavesTracks(s: State, a: Action)
    requires a.IsGate() && !a.GateStep?
    ensures SameTracks(s, EnterStep(s, a))
  {
  }

  lemma EntryLeavesTracks(s: State)
    ensures s.phase.TriggerCheck? || s.phase.Deferring? ==> SameTracks(s, TriggerStep(s))
    ensures s.phase.OfferEntry? || s.phase.Failing? ==> SameTracks(s, EntryStep(s))
  {
  }

  lemma ReceiveLeavesTracks(s: State, ok: bool)
    ensures s.phase.InReceive? ==> SameTracks(s, ReceiveStep(s))
    ensures s.phase.InApply? ==> SameTracks(s, ApplyStep(s, ok))
  {
  }

  lemma {:induction false} FlushLeavesTracks(s: State)
    requires s.phase.InFlush?
    ensures SameTracks(s, FlushStep(s))
  {
    match s.phase.fp {
      case FlushTake =>
      case FlushCheck(_) =>
      case FlushRestore(_) =>
      case FlushPending =>
      case FlushSignaling =>
      case FlushIdleCheck =>
    }
  }

  lemma {:induction false} OfferLeavesTracks(s: State, ok: bool)
    requires s.phase.InOffer?
    ensures SameTracks(s, OfferStep(s, ok))
  {
    match s.phase.op {
      case Creating =>
      case SettingLocal =>
      case Recording =>
      case Gathering =>
      case Sending =>
    }
  }

  lemma {:induction false} AnswerLeavesTracks(s: State, ok: bool)
    requires s.phase.InAnswer?
    ensures SameTracks(s, AnswerStep(s, ok))
  {
    match s.phase.ap {
      case SettingRemote =>
      case CreatingAnswer =>
      case SettingAnswer =>
      case GatheringAnswer =>
      case Delivering =>
    }
  }

  lemma {:induction false} MuTracks(s: State, t: State, a: Action)
    requires !a.IsGate() && SameTracks(s, t)
    ensures SameTracks(MuStep(s, a), MuStep(t, a))
  {
    match a {
      case AddBegin(_) => AddTracks(s, t, a);
      case AddDetach => AddTracks(s, t, a);
      case AddReattach => AddTracks(s, t, a);
      case AddCommit => CommitTracks(s, t);
      case AddAbort => EndTracks(s, t, a);
      case RemoveBegin(_, _) => RemoveTracks(s, t, a);
      case RemoveCommit => EndTracks(s, t, a);
      case CloseBegin => CloseTracks(s, t, a);
      case CloseEnd(_) => CloseTracks(s, t, a);
      case ConnChange(_) => OtherTracks(s, t, a);
      case SetSender(_) => OtherTracks(s, t, a);
    }
  }

  lemma AddTracks(s: State, t: State, a: Action)
    requires SameTracks(s, t) && (a.AddBegin? || a.AddDetach? || a.AddReattach?)
    ensures SameTracks(MuStep(s, a), MuStep(t, a))
  {
  }

  /** The end of a call lets go of the lock. */
  lemma EndLeaves(s: State, a: Action)
    requires a.AddAbort? || a.RemoveCommit?
    ensures var v, ends := MuStep(s, a), if a.AddAbort? then s.mu.Adding? || s.mu.Rehoming? else s.mu.Removing?;
            && v.conn == s.conn && v.senders == s.senders && v.mu == (if ends then Free else s.mu)
            && v.localTracks == (if a.RemoveCommit? && ends then s.localTracks - {s.mu.id} else s.localTracks)
            && v.negotiationGeneration == if a.RemoveCommit? && ends then s.negotiationGeneration + 1 else s.negotiationGeneration
  {
  }

  lemma {:induction false} EndTracks(s: State, t: State, a: Action)
    requires SameTracks(s, t) && (a.AddAbort? || a.RemoveCommit?)
    ensures SameTracks(MuStep(s, a), MuStep(t, a))
  {
    EndLeaves(s, a);
    EndLeaves(t, a);
  }

  lemma {:induction false} RemoveTracks(s: State, t: State, a: Action)
    requires SameTracks(s, t) && a.RemoveBegin?
    ensures SameTracks(MuStep(s, a), MuStep(t, a))
  {
    if s.mu.Free? && s.conn.Usable() && a.id in s.localTracks {
      if a.id in s.senders {
        assert MuStep(t, a) == if a.pionOk then t.(senders := t.senders - multiset{a.id}, mu := Removing(a.id)) else t;
      } else {
        assert MuStep(t, a) == t.(localTracks := t.localTracks - {a.id});
      }
    } else {
      assert MuStep(t, a) == t;
    }
  }

  lemma CommitTracks(s: State, t: State)
    requires SameTracks(s, t)
    ensures SameTracks(MuStep(s, AddCommit), MuStep(t, AddCommit))
  {
  }

  lemma CloseLeaves(s: State, a: Action)
    requires a.CloseBegin? || a.CloseEnd?
    ensures var v := MuStep(s, a);
            && v.senders == s.senders && v.localTracks == s.localTracks && v.negotiationGeneration == s.negotiationGeneration
            && v.conn == (if a == CloseEnd(true) && s.mu.Closing? then ClosedConn else s.conn)
            && v.mu == if a.CloseEnd? && s.mu.Closing? then Free
                       else if a.CloseBegin? && s.mu.Free? && !s.conn.ClosedConn? then Closing else s.mu
  {
  }

  lemma {:induction false} CloseTracks(s: State, t: State, a: Action)
    requires SameTracks(s, t) && (a.CloseBegin? || a.CloseEnd?)
    ensures SameTracks(MuStep(s, a), MuStep(t, a))
  {
    CloseLeaves(s, a);
    CloseLeaves(t, a);
  }

  lemma OtherTracks(s: State, t: State, a: Action)
    requires SameTracks(s, t) && (a.ConnChange? || a.SetSender?)
    ensures SameTracks(MuStep(s, a), MuStep(t, a))
  {
  }

  /** The tracks after a run are those after its steps under pc.mu alone. */
  lemma {:induction false} OnlyMuMatters(s: State, t: State, acts: seq<Action>)
    requires SameTracks(s, t)
    ensures SameTracks(Run(s, acts), Run(t, MuActions(acts)))
    decreases |acts|
  {
    if acts != [] {
      var rest := MuActions(acts[1..]);
      if acts[0].IsGate() {
        GateLeavesTracks(s, acts[0]);
        assert MuActions(acts) == rest;
        OnlyMuMatters(Next(s, acts[0]), t, acts[1..]);
      } else {
        MuTracks(s, t, acts[0]);
        assert MuActions(acts)[1..] == rest;
        OnlyMuMatters(Next(s, acts[0]), Next(t, acts[0]), acts[1..]);
      }
    }
  }

  // ---------------------------------------------------------------- one call undoes the other

  /**
   AddTrack, also through a publish transceiver's detour, ends with its sender attached, the track in the map and one
   change counted, whatever the gate does meanwhile.
   */
  lemma {:induction false} AddTrackAdds(s: State, acts: seq<Action>, id: TrackId)
    requires s.mu.Free? && s.conn != ClosedConn && s.conn != Failed
    requires MuActions(acts) == [AddBegin(id), AddCommit] || MuActions(acts) == [AddBegin(id), AddDetach, AddReattach, AddCommit]
    ensures Added(s, Run(s, acts), id)
  {
    OnlyMuMatters(s, s, acts);
    if MuActions(acts) == [AddBegin(id), AddCommit] { AddsStraight(s, id); } else { AddsMoved(s, id); }
  }

  predicate Added(s: State, t: State, id: TrackId) {
    && t.mu.Free? && t.senders == s.senders + multiset{id} && t.localTracks == s.localTracks + {id}
    && t.negotiationGeneration == s.negotiationGeneration + 1 && t.conn == s.conn
  }

  lemma {:induction false} AddsStraight(s: State, id: TrackId)
    requires s.mu.Free? && s.conn != ClosedConn && s.conn != Failed
    ensures Added(s, Run(s, [AddBegin(id), AddCommit]), id)
  {
    RunTwo(s, AddBegin(id), AddCommit);
    assert Next(s, AddBegin(id)).mu == Adding(id) && Next(s, AddBegin(id)).senders == s.senders + multiset{id};
  }

  lemma {:induction false} AddsMoved(s: State, id: TrackId)
    requires s.mu.Free? && s.conn != ClosedConn && s.conn != Failed
    ensures Added(s, Run(s, [AddBegin(id), AddDetach, AddReattach, AddCommit]), id)
  {
    var a := Next(s, AddBegin(id));
    var b := Next(a, AddDetach);
    assert a.mu == Adding(id) && a.senders == s.senders + multiset{id} && a.localTracks == s.localTracks;
    assert b.mu == Rehoming(id) && b.senders == s.senders && b.localTracks == s.localTracks;
    Reattaches(b, id);
    RunTwo(s, AddBegin(id), AddDetach);
    RunAppend(s, [AddBegin(id), AddDetach], [AddReattach, AddCommit]);
    assert [AddBegin(id), AddDetach] + [AddReattach, AddCommit] == [AddBegin(id), AddDetach, AddReattach, AddCommit];
  }

  lemma {:induction false} Reattaches(s: State, id: TrackId)
    requires s.mu == Rehoming(id)
    ensures Added(s, Run(s, [AddReattach, AddCommit]), id)
  {
    RunTwo(s, AddReattach, AddCommit);
    assert Next(s, AddReattach).mu == Adding(id);
  }

  /** RemoveTrack of a track pion holds takes its sender and its entry away and counts one change. */
  lemma {:induction false} RemoveTrackRemoves(s: State, acts: seq<Action>, id: TrackId)
    requires s.mu.Free? && s.conn != ClosedConn && s.conn != Failed && id in s.localTracks && id in s.senders
    requires MuActions(acts) == [RemoveBegin(id, true), RemoveCommit]
    ensures var t := Run(s, acts);
            && t.mu.Free? && t.senders == s.senders - multiset{id} && t.localTracks == s.localTracks - {id}
            && t.negotiationGeneration == s.negotiationGeneration + 1 && t.conn == s.conn
  {
    OnlyMuMatters(s, s, acts);
    RunTwo(s, RemoveBegin(id, true), RemoveCommit);
    assert Next(s, RemoveBegin(id, true)).mu == Removing(id);
  }

  /** Adding a track and removing it leaves the senders and the map as they were, and counts two changes. */
  lemma {:induction false} RemoveUndoesAdd(s: State, add: seq<Action>, remove: seq<Action>, id: TrackId)
    requires s.mu.Free? && s.conn != ClosedConn && s.conn != Failed && id !in s.localTracks
    requires MuActions(add) == [AddBegin(id), AddCommit] || MuActions(add) == [AddBegin(id), AddDetach, AddReattach, AddCommit]
    requires MuActions(remove) == [RemoveBegin(id, true), RemoveCommit]
    ensures var t := Run(Run(s, add), remove);
            && t.mu.Free? && t.senders == s.senders && t.localTracks == s.localTracks
            && t.negotiationGeneration == s.negotiationGeneration + 2
  {
    AddTrackAdds(s, add, id);
    RemoveTrackRemoves(Run(s, add), remove, id);
    assert s.senders + multiset{id} - multiset{id} == s.senders;
    assert s.localTracks + {id} - {id} == s.localTracks;
  }

  // ---------------------------------------------------------------- over runs

  /** The step stores track id. */
  predicate Stores(s: State, a: Action, id: TrackId) { a.AddCommit? && s.mu == Adding(id) }

  /** The step drops it from the map: pion's sender is gone, or there was none. */
  predicate Drops(s: State, a: Action, id: TrackId) {
    || (a.RemoveCommit? && s.mu == Removing(id))
    || (a.RemoveBegin? && a.id == id && s.mu.Free? && s.conn != ClosedConn && s.conn != Failed && id !in s.senders)
  }

  /** The map holds id: stored in the run, or there before it, and not dropped since. */
  ghost predicate Stored(s: State, acts: seq<Action>, id: TrackId, before: bool)
    decreases |acts|
  {
    if acts == [] then before
    else Stored(Next(s, acts[0]), acts[1..], id, Stores(s, acts[0], id) || (before && !Drops(s, acts[0], id)))
  }

  lemma {:induction false} MapStep(s: State, a: Action, id: TrackId)
    ensures id in Next(s, a).localTracks <==> Stores(s, a, id) || (id in s.localTracks && !Drops(s, a, id))
  {
    if a.IsGate() {
      GateLeavesTracks(s, a);
    } else {
      match a {
        case AddBegin(_) =>
        case AddDetach =>
        case AddReattach =>
        case AddCommit =>
        case AddAbort =>
        case RemoveBegin(_, _) =>
        case RemoveCommit =>
        case CloseBegin =>
        case CloseEnd(_) =>
        case ConnChange(_) =>
        case SetSender(_) =>
      }
    }
  }

  /** Over every run the map holds exactly the tracks stored by an AddTrack and not dropped since by a RemoveTrack. */
  lemma {:induction false} MapIsStored(s: State, acts: seq<Action>, id: TrackId)
    ensures id in Run(s, acts).localTracks <==> Stored(s, acts, id, id in s.localTracks)
    decreases |acts|
  {
    if acts != [] {
      MapStep(s, acts[0], id);
      MapIsStored(Next(s, acts[0]), acts[1..], id);
    }
  }

  /** Sender changes that went through. */
  ghost function Changes(s: State, acts: seq<Action>): nat
    decreases |acts|
  {
    if acts == [] then 0
    else
      (if (acts[0].AddCommit? && s.mu.Adding?) || (acts[0].RemoveCommit? && s.mu.Removing?) then 1 else 0)
      + Changes(Next(s, acts[0]), acts[1..])
  }

  lemma {:induction false} CountStep(s: State, a: Action)
    ensures Next(s, a).negotiationGeneration == s.negotiationGeneration + Changes(s, [a])
  {
    assert Changes(Next(s, a), [a][1..]) == 0;
    if a.IsGate() {
      GateLeavesTracks(s, a);
    } else {
      match a {
        case AddBegin(_) =>
        case AddDetach =>
        case AddReattach =>
        case AddCommit =>
        case AddAbort =>
        case RemoveBegin(_, _) =>
        case RemoveCommit =>
        case CloseBegin =>
        case CloseEnd(_) =>
        case ConnChange(_) =>
        case SetSender(_) =>
      }
    }
  }

  /** Every sender change that goes through is counted, and nothing else. */
  lemma {:induction false} EveryChangeCounted(s: State, acts: seq<Action>)
    ensures Run(s, acts).negotiationGeneration == s.negotiationGeneration + Changes(s, acts)
    decreases |acts|
  {
    if acts != [] {
      var v := Next(s, acts[0]);
      CountStep(s, acts[0]);
      assert Changes(v, [acts[0]][1..]) == 0;
      EveryChangeCounted(v, acts[1..]);
    }
  }

  // ---------------------------------------------------------------- the map and pion agree

  /** The step is an AddTrack of a track the connection already has, or one that gives up. */
  predicate Muddles(s: State, a: Action) { a.AddAbort? || (a.AddBegin? && a.id in s.localTracks) }

  ghost predicate NeverMuddles(s: State, acts: seq<Action>)
    decreases |acts|
  {
    acts != [] ==> !Muddles(s, acts[0]) && NeverMuddles(Next(s, acts[0]), acts[1..])
  }

  /** pion has one sender for each track in the map; a call under way is one ahead or one behind. */
  predicate InStep(s: State) {
    match s.mu
    case Free | Closing => s.senders == multiset(s.localTracks)
    case Adding(id) => id !in s.localTracks && s.senders == multiset(s.localTracks + {id})
    case Rehoming(id) => id !in s.localTracks && s.senders == multiset(s.localTracks)
    case Removing(id) => id in s.localTracks && s.senders == multiset(s.localTracks - {id})
  }

  lemma {:induction false} InStepNext(s: State, a: Action)
    requires InStep(s) && !Muddles(s, a)
    ensures InStep(Next(s, a))
  {
    if a.IsGate() {
      GateLeavesTracks(s, a);
    } else if a.AddBegin? || a.AddDetach? || a.AddReattach? {
      InStepAdd(s, a);
    } else {
      InStepMu(s, a);
    }
  }

  lemma {:induction false} InStepAdd(s: State, a: Action)
    requires InStep(s) && !Muddles(s, a) && (a.AddBegin? || a.AddDetach? || a.AddReattach?)
    ensures InStep(MuStep(s, a))
  {
    match a {
      case AddBegin(id) => assert multiset(s.localTracks) + multiset{id} == multiset(s.localTracks + {id});
      case AddDetach => if s.mu.Adding? { assert multiset(s.localTracks + {s.mu.id}) - multiset{s.mu.id} == multiset(s.localTracks); }
      case AddReattach => if s.mu.Rehoming? { assert multiset(s.localTracks) + multiset{s.mu.id} == multiset(s.localTracks + {s.mu.id}); }
    }
  }

  lemma {:induction false} InStepMu(s: State, a: Action)
    requires InStep(s) && !Muddles(s, a) && !a.IsGate() && !(a.AddBegin? || a.AddDetach? || a.AddReattach?)
    ensures InStep(MuStep(s, a))
  {
    match a {
      case AddCommit =>
      case AddAbort =>
      case RemoveBegin(id, _) => assert multiset(s.localTracks) - multiset{id} == multiset(s.localTracks - {id});
      case RemoveCommit =>
      case CloseBegin =>
      case CloseEnd(_) =>
      case ConnChange(_) =>
      case SetSender(_) =>
    }
  }

  lemma {:induction false} InStepRun(s: State, acts: seq<Action>)
    requires InStep(s) && NeverMuddles(s, acts)
    ensures InStep(Run(s, acts))
    decreases |acts|
  {
    if acts != [] {
      InStepNext(s, acts[0]);
      InStepRun(Next(s, acts[0]), acts[1..]);
    }
  }

  /** Over every run in which no AddTrack gives up or repeats a track, pion holds exactly the tracks in the map, once each. */
  lemma {:induction false} SendersAreTracks(hasSender: bool, acts: seq<Action>)
    requires NeverMuddles(Init(hasSender), acts)
    ensures var s := Reached(hasSender, acts);
            s.mu.Free? ==> s.senders == multiset(s.localTracks)
  {
    InStepRun(Init(hasSender), acts);
  }

  // ---------------------------------------------------------------- which connection states refuse

  /** Between gate calls with pc.mu free, the calls that need an open connection are refused exactly when it is closed or failed. */
  lemma {:induction false} RefusedIff(s: State, id: TrackId)
    requires s.phase.Idle? && s.mu.Free?
    ensures (s.conn == ClosedConn || s.conn == Failed) <==> Next(s, BrowserOffer) == s
    ensures (s.conn == ClosedConn || s.conn == Failed) <==> Next(s, BrowserAnswer) == s
    ensures (s.conn == ClosedConn || s.conn == Failed) <==> Next(s, Flush) == s
    ensures (s.conn == ClosedConn || s.conn == Failed || !s.hasSender) <==> Next(s, Trigger(true)) == s
    ensures (s.conn == ClosedConn || s.conn == Failed) <==> Next(s, AddBegin(id)) == s
    ensures id in s.localTracks && id in s.senders ==>
              ((s.conn == ClosedConn || s.conn == Failed) <==> Next(s, RemoveBegin(id, true)) == s)
  {
    assert Next(s, AddBegin(id)).mu.Adding? || Next(s, AddBegin(id)) == s;
  }

  /** What the state callback and UpdateSignalingSender say holds for the next call. */
  lemma {:induction false} CallbacksTakeEffect(s: State, conn: ConnState, sender: bool, id: TrackId)
    requires s.phase.Idle? && s.mu.Free?
    ensures var t := Next(Next(s, ConnChange(conn)), SetSender(sender));
            && ((conn == ClosedConn || conn == Failed) <==> Next(t, BrowserOffer) == t)
            && ((conn == ClosedConn || conn == Failed || !sender) <==> Next(t, Trigger(true)) == t)
            && t == s.(conn := conn, hasSender := sender)
  {
    RefusedIff(Next(Next(s, ConnChange(conn)), SetSender(sender)), id);
  }

  /**
   Close of an open connection: the context is cancelled and pion is closed. When pion closes cleanly nothing of a
   negotiation is left, and otherwise the connection is as it was. A second Close does nothing.
   */
  lemma {:induction false} CloseEnds(s: State, ok: bool)
    requires s.mu.Free? && s.conn != ClosedConn
    ensures var t := Next(Next(s, CloseBegin), CloseEnd(ok));
            && t.ctxDone && t.mu.Free? && t.sig == SignalingClosed
            && (if ok then NothingLeft(t) && Next(t, CloseBegin) == t else t == s.(ctxDone := true, sig := SignalingClosed))
  {
    CloseClears(Next(s, CloseBegin));
    assert Next(s, CloseBegin) == s.(ctxDone := true, mu := Closing);
  }

  predicate NothingLeft(s: State) {
    s.conn == ClosedConn && !s.isNegotiating && !s.pendingNegotiation && s.negotiationsQueued == 0 && s.pendingInboundOffer.None?
  }

  /** Whatever the gate has done since Close began. */
  lemma CloseClears(s: State)
    requires s.mu.Closing?
    ensures var t := Next(s, CloseEnd(true));
            NothingLeft(t) && t.mu.Free? && t.sig == SignalingClosed && t.ctxDone == s.ctxDone && SameCounts(s, t)
  {
  }

  predicate SameCounts(s: State, t: State) {
    && t.localTracks == s.localTracks && t.senders == s.senders && t.negotiationGeneration == s.negotiationGeneration
    && t.lastOfferGeneration == s.lastOfferGeneration && t.phase == s.phase
  }
}
