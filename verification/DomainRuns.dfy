/** Whole runs over the domain: any legal sequence of operations, and the exact effect of leaving. */
module DomainRuns {
  import opened Prelude
  import opened Domain
  import opened DomainInvariant

  datatype Op =
    | NewParticipant(p: PRef) | NewTrack(t: TRef) | Create | Activate(p: PRef)
    | Join(p: PRef) | Leave(id: string) | Close
    | LeaveParticipant(p: PRef)
    | PublishBy(p: PRef, t: TRef) | UnpublishBy(p: PRef, k: string)
    | Register(t: TRef) | Unregister(k: string)
    | SubscribeTo(p: PRef, t: TRef) | UnsubscribeFrom(p: PRef, k: string)

  /** Room.SubscribeToTrack: the registry entry, or a publication of some participant when there is none. */
  predicate Resolves(w: World, t: TRef)
  {
    if t.id in w.tracks then w.tracks[t.id] == t
    else exists k :: k in w.participants && w.participants[k] in w.people &&
                     t.id in w.people[w.participants[k]].pub && w.people[w.participants[k]].pub[t.id] == t
  }

  predicate Member(w: World, p: PRef) { p.id in w.participants && w.participants[p.id] == p }

  /** The objects exist, subscribes come from current participants, and no leaver's ID is in somebody else's hands. */
  ghost predicate Legal(w: World, op: Op) {
    match op
    case NewParticipant(p) => p !in w.people
    case NewTrack(t) => t !in w.media
    case Create | Close | Leave(_) | Unregister(_) => true
    case Activate(p) => p in w.people
    case Join(p) => p in w.people
    case LeaveParticipant(p) => p in w.people && (p.id in w.participants ==> Member(w, p))
    case PublishBy(p, t) => p in w.people && t in w.media
    case UnpublishBy(p, _) => p in w.people
    case Register(t) => t in w.media
    case SubscribeTo(p, t) => p in w.people && t in w.media && Member(w, p)
    case UnsubscribeFrom(p, _) => p in w.people
  }

  function Members(w: World): set<PRef> { set k | k in w.participants :: w.participants[k] }

  function CloseWorld(w: World): World
    requires Linked(w)
  {
    LeaveAll(w, Members(w)).(state := RoomClosed, participants := map[], tracks := map[])
  }

  ghost function Apply(w: World, op: Op): World
    requires Linked(w) && Legal(w, op)
  {
    match op
    case NewParticipant(p) => w.(people := w.people[p := Person(Joined, false, map[], map[])])
    case NewTrack(t) => w.(media := w.media[t := Media(Created, None, map[])])
    case Create => if w.state == RoomCreated then w.(state := RoomActive) else w
    case Activate(p) => w.(people := w.people[p := w.people[p].(state := Active)])
    case Join(p) =>
      if w.state == RoomClosed || p.id in w.participants then w
      else w.(participants := w.participants[p.id := p])
    case Leave(id) => if w.state == RoomClosed || id !in w.participants then w else LeaveWorld(w, id)
    case Close => if w.state == RoomClosed then w else CloseWorld(w)
    case LeaveParticipant(p) => ParticipantLeave(w, p)
    case PublishBy(p, t) => Publish(w, p, t).0
    case UnpublishBy(p, k) => Unpublish(w, p, k).0
    case Register(t) =>
      if w.state == RoomClosed || t.id in w.tracks then w else w.(tracks := w.tracks[t.id := t])
    case Unregister(k) => if w.state == RoomClosed then w else w.(tracks := w.tracks - {k})
    case SubscribeTo(p, t) => if w.state == RoomClosed then w else Subscribe(w, p, t).0
    case UnsubscribeFrom(p, k) => LinkedUnsubscribe(w, p, k); Unsubscribe(w, p, k).0
  }

  lemma {:induction false} LinkedClose(w: World)
    requires Linked(w)
    ensures Linked(CloseWorld(w))
  {
    LinkedLeaveAll(w, Members(w));
    var v := LeaveAll(w, Members(w));
    assert forall k :: k in w.participants ==> w.participants[k] in Members(w);
    assert forall t :: t in v.media ==> v.media[t].subscribers == map[];
    assert forall q, k :: q in v.people && k in v.people[q].sub ==> Watching(v, q, k);
  }

  lemma {:induction false} LinkedGrow(w: World, op: Op)
    requires Linked(w) && Legal(w, op) && (op.NewParticipant? || op.NewTrack? || op.Activate?)
    ensures Linked(Apply(w, op))
  {
    match op
    case NewTrack(t) => LinkedNewTrack(w, t);
    case NewParticipant(p) => LinkedNewPerson(w, p, Person(Joined, false, map[], map[]));
    case Activate(p) => LinkedActivate(w, p);
  }

  lemma {:induction false} LinkedActivate(w: World, p: PRef)
    requires Linked(w) && p in w.people
    ensures Linked(w.(people := w.people[p := w.people[p].(state := Active)]))
  {
    var v := w.(people := w.people[p := w.people[p].(state := Active)]);
    forall q | q in v.people
      ensures q in w.people && v.people[q].sub == w.people[q].sub && v.people[q].pub == w.people[q].pub
    {
      if q != p { assert v.people[q] == w.people[q]; }
    }
    assert v.people.Keys == w.people.Keys;
    KeepsLinks(w, v);
  }

  lemma {:induction false} LinkedNewPerson(w: World, p: PRef, person: Person)
    requires Linked(w) && p !in w.people && person.sub == map[] && person.pub == map[]
    ensures Linked(w.(people := w.people[p := person]))
  {
    var v := w.(people := w.people[p := person]);
    forall u, k | u in v.media && k in v.media[u].subscribers
      ensures WatchedBy(v, u, k)
    {
      assert WatchedBy(w, u, k);
    }
    forall q, k | q in v.people && k in v.people[q].sub
      ensures Watching(v, q, k)
    {
      assert Watching(w, q, k);
    }
  }

  lemma {:induction false} LinkedNewTrack(w: World, t: TRef)
    requires Linked(w) && t !in w.media
    ensures Linked(w.(media := w.media[t := Media(Created, None, map[])]))
  {
    var v := w.(media := w.media[t := Media(Created, None, map[])]);
    forall u, k | u in v.media && k in v.media[u].subscribers
      ensures WatchedBy(v, u, k)
    {
      assert WatchedBy(w, u, k);
    }
    forall q, k | q in v.people && k in v.people[q].sub
      ensures Watching(v, q, k)
    {
      assert Watching(w, q, k);
    }
  }

  lemma {:induction false} LinkedJoin(w: World, p: PRef)
    requires Linked(w) && p in w.people && p.id !in w.participants
    ensures Linked(w.(participants := w.participants[p.id := p]))
  {
    var v := w.(participants := w.participants[p.id := p]);
    forall u, k | u in v.media && k in v.media[u].subscribers
      ensures WatchedBy(v, u, k)
    {
      assert WatchedBy(w, u, k);
    }
    forall q, k | q in v.people && k in v.people[q].sub
      ensures Watching(v, q, k)
    {
      assert Watching(w, q, k);
    }
  }

  /** Operations on the room's own state and registry. */
  lemma {:induction false} LinkedRegistry(w: World, op: Op)
    requires Linked(w) && Legal(w, op) && (op.Create? || op.Register? || op.Unregister?)
    ensures Linked(Apply(w, op))
  {
    var v := Apply(w, op);
    assert v.people == w.people && v.media == w.media && Keyed(v.tracks, w.media.Keys);
    KeepsLinks(w, v);
  }

  lemma {:induction false} ApplyLinked(w: World, op: Op)
    requires Linked(w) && Legal(w, op)
    ensures Linked(Apply(w, op))
  {
    match op
    case NewParticipant(_) => LinkedGrow(w, op);
    case NewTrack(_) => LinkedGrow(w, op);
    case Activate(_) => LinkedGrow(w, op);
    case Create => LinkedRegistry(w, op);
    case Join(p) => if p.id !in w.participants { LinkedJoin(w, p); }
    case Leave(id) => if id in w.participants { LinkedLeave(w, id); }
    case Close => LinkedClose(w);
    case LeaveParticipant(p) => LinkedParticipantLeave(w, p);
    case PublishBy(p, t) => LinkedPublish(w, p, t);
    case UnpublishBy(p, k) => LinkedUnpublish(w, p, k);
    case Register(t) => LinkedRegistry(w, op);
    case Unregister(k) => LinkedRegistry(w, op);
    case SubscribeTo(p, t) => LinkedSubscribe(w, p, t);
    case UnsubscribeFrom(p, k) => LinkedUnsubscribe(w, p, k);
  }

  ghost predicate LegalRun(w: World, ops: seq<Op>)
    requires Linked(w)
    decreases |ops|
  {
    ops != [] ==>
      Legal(w, ops[0]) && (ApplyLinked(w, ops[0]); LegalRun(Apply(w, ops[0]), ops[1..]))
  }

  ghost function RunOps(w: World, ops: seq<Op>): World
    requires Linked(w) && LegalRun(w, ops)
    decreases |ops|
  {
    if ops == [] then w else ApplyLinked(w, ops[0]); RunOps(Apply(w, ops[0]), ops[1..])
  }

  const EmptyWorld := World(RoomCreated, map[], map[], map[], map[])

  lemma {:induction false} RunLinked(w: World, ops: seq<Op>)
    requires Linked(w) && LegalRun(w, ops)
    ensures Linked(RunOps(w, ops))
    decreases |ops|
  {
    if ops != [] {
      ApplyLinked(w, ops[0]);
      RunLinked(Apply(w, ops[0]), ops[1..]);
    }
  }

  /** Over every legal run, a participant lists a track exactly when the track lists the participant. */
  lemma {:induction false} TwoSidedAlways(ops: seq<Op>, p: PRef, t: TRef)
    requires LegalRun(EmptyWorld, ops)
    requires p in RunOps(EmptyWorld, ops).people && t in RunOps(EmptyWorld, ops).media
    ensures var w := RunOps(EmptyWorld, ops);
            (t.id in w.people[p].sub && w.people[p].sub[t.id] == t)
            <==> (p.id in w.media[t].subscribers && w.media[t].subscribers[p.id] == p)
  {
    RunLinked(EmptyWorld, ops);
    TwoSided(RunOps(EmptyWorld, ops), p, t);
  }

  // ---------------------------------------------------------------- the exact effect of leaving

  /** The tracks a departure destroys: the leaver's publications and the orphans in the registry. */
  ghost function Destroyed(w: World, id: string): set<TRef>
    requires Linked(w) && id in w.participants
  {
    var gone := Values(w.people[w.participants[id]].pub);
    DestroyAllKeyed(w, gone, id);
    gone + Orphans(DestroyAll(w, gone, id))
  }

  lemma {:induction false} DestroyTwice(w: World, a: set<TRef>, b: set<TRef>, id: string)
    ensures DestroyAll(DestroyAll(w, a, id), b, id) == DestroyAll(w, a + b, id)
  {
    var x, y := DestroyAll(DestroyAll(w, a, id), b, id), DestroyAll(w, a + b, id);
    assert forall m: map<string, TRef> :: Without(Without(m, a), b) == Without(m, a + b);
    assert forall m: map<string, PRef> :: OnlyKey(OnlyKey(m, id), id) == OnlyKey(m, id);
    assert x.tracks == y.tracks;
    assert x.people == y.people;
    assert x.media == y.media;
  }

  /** What each participant has left. */
  lemma {:induction false} LeavePeople(w: World, id: string, q: PRef)
    requires Linked(w) && id in w.participants && q in w.people
    ensures var p := w.participants[id];
            q in LeaveWorld(w, id).people &&
            LeaveWorld(w, id).people[q] ==
              if q == p then w.people[q].(sub := map[])
              else w.people[q].(sub := Without(w.people[q].sub, Destroyed(w, id)))
  {
    var p := w.participants[id];
    var gone := Values(w.people[p].pub);
    var w1 := DestroyAll(w, gone, id);
    DestroyAllKeyed(w, gone, id);
    DestroyTwice(w, gone, Orphans(w1), id);
    OnlyMembersWatch(w);
    if q != p && q.id == id {
      assert w.people[q].sub == map[];
      assert Without(w.people[q].sub, Destroyed(w, id)) == map[];
    }
  }

  /** Dropping the subscriptions of a current participant takes it off every track and changes nothing else. */
  lemma {:induction false} DropExactly(w: World, p: PRef, t: TRef)
    requires Linked(w) && p in w.people && Member(w, p) && t in w.media
    ensures t in DropSubscriptions(w, p).media
    ensures DropSubscriptions(w, p).media[t] == w.media[t].(subscribers := w.media[t].subscribers - {p.id})
  {
    LinkedDrop(w, p);
    var v := DropSubscriptions(w, p);
    if t !in Values(w.people[p].sub) {
      assert p.id !in v.media[t].subscribers;
      assert w.media[t].subscribers - {p.id} == w.media[t].subscribers;
    }
  }

  /** What each track has left. */
  lemma {:induction false} LeaveMedia(w: World, id: string, t: TRef)
    requires Linked(w) && id in w.participants && t in w.media
    ensures t in LeaveWorld(w, id).media &&
            LeaveWorld(w, id).media[t] ==
              if t in Destroyed(w, id) then Media(Unpublished, None, map[])
              else w.media[t].(subscribers := w.media[t].subscribers - {id})
  {
    var p := w.participants[id];
    var gone := Values(w.people[p].pub);
    var w1 := DestroyAll(w, gone, id);
    LinkedDestroyAll(w, gone, id);
    var w2 := DestroyAll(w1, Orphans(w1), id);
    LinkedDestroyAll(w1, Orphans(w1), id);
    DropExactly(w2, p, t);
    assert LeaveWorld(w, id).media == DropSubscriptions(w2, p).media;
    DestroyTwice(w, gone, Orphans(w1), id);
    assert OnlyKey(w.media[t].subscribers, id) - {id} == map[];
  }

  /**
   After Room.Leave: each of the leaver's publications is unpublished, unowned, unregistered and unwatched; no
   registry entry is both unpublished and ownerless; surviving tracks keep their subscribers except the leaver;
   everybody else loses exactly the destroyed tracks; and the registry loses exactly those and the entries the leaver
   followed that are left with neither a publisher nor a subscriber.
   */
  lemma {:induction false} LeaveExactly(w: World, id: string)
    requires Linked(w) && id in w.participants
    ensures var v, p := LeaveWorld(w, id), w.participants[id];
            && v.participants == w.participants - {id}
            && (forall t :: t in Values(w.people[p].pub) ==>
                  t in v.media && v.media[t] == Media(Unpublished, None, map[]) && t.id !in v.tracks)
            && (forall k :: k in v.tracks ==>
                  k in w.tracks && v.tracks[k] == w.tracks[k] && v.tracks[k] in v.media &&
                  !(v.media[v.tracks[k]].state == Unpublished && v.media[v.tracks[k]].publisher == None))
            && (forall t :: t in w.media && t !in Destroyed(w, id) ==>
                  t in v.media && v.media[t] == w.media[t].(subscribers := w.media[t].subscribers - {id}))
            && (forall q :: q in w.people && q != p ==>
                  q in v.people && v.people[q] == w.people[q].(sub := Without(w.people[q].sub, Destroyed(w, id))))
            && v.people[p] == w.people[p].(sub := map[]) && v.state == w.state
            && (forall k :: k in v.tracks <==>
                  k in w.tracks && (forall t :: t in Destroyed(w, id) ==> t.id != k) && !LeftAlone(w, v, p, k))
  {
    var v, p := LeaveWorld(w, id), w.participants[id];
    forall k
      ensures k in v.tracks <==> k in w.tracks && (forall t :: t in Destroyed(w, id) ==> t.id != k) && !LeftAlone(w, v, p, k)
    {
      LeaveKeepsEntry(w, id, k);
    }
    forall t | t in w.media
      ensures t in v.media &&
              v.media[t] == if t in Destroyed(w, id) then Media(Unpublished, None, map[])
                            else w.media[t].(subscribers := w.media[t].subscribers - {id})
    {
      LeaveMedia(w, id, t);
    }
    forall q | q in w.people
      ensures q in v.people && v.people[q] == if q == p then w.people[q].(sub := map[])
                else w.people[q].(sub := Without(w.people[q].sub, Destroyed(w, id)))
    {
      LeavePeople(w, id, q);
    }
    LeaveRegistry(w, id);
  }

  /** Registry entry k of w, which p followed, has neither a publisher nor a subscriber left in v. */
  predicate LeftAlone(w: World, v: World, p: PRef, k: string) {
    && p in w.people && k in w.people[p].sub && k in w.tracks && w.tracks[k] in v.media
    && v.media[w.tracks[k]].publisher == None && v.media[w.tracks[k]].subscribers == map[]
  }

  /** Exactly which registry entries stay. */
  lemma {:induction false} LeaveKeepsEntry(w: World, id: string, k: string)
    requires Linked(w) && id in w.participants
    ensures var v, p := LeaveWorld(w, id), w.participants[id];
            k in v.tracks <==> k in w.tracks && (forall t :: t in Destroyed(w, id) ==> t.id != k) && !LeftAlone(w, v, p, k)
  {
    var v, p := LeaveWorld(w, id), w.participants[id];
    var gone := Values(w.people[p].pub);
    var w1 := DestroyAll(w, gone, id);
    DestroyAllKeyed(w, gone, id);
    DestroyTwice(w, gone, Orphans(w1), id);
    var w2 := DestroyAll(w1, Orphans(w1), id);
    DestroyAllKeyed(w1, Orphans(w1), id);
    DropKeyed(w2, p);
    assert w2.people[p].sub == w.people[p].sub;
    assert v.media == DropSubscriptions(w2, p).media;
  }

  lemma {:induction false} LeaveRegistry(w: World, id: string)
    requires Linked(w) && id in w.participants
    ensures var v := LeaveWorld(w, id);
            && (forall t :: t in Destroyed(w, id) ==> t in w.media && t.id !in v.tracks)
            && (forall k :: k in v.tracks ==>
                  k in w.tracks && v.tracks[k] == w.tracks[k] && v.tracks[k] in v.media &&
                  !(v.media[v.tracks[k]].state == Unpublished && v.media[v.tracks[k]].publisher == None))
  {
    var v, p := LeaveWorld(w, id), w.participants[id];
    var gone := Values(w.people[p].pub);
    var w1 := DestroyAll(w, gone, id);
    DestroyAllKeyed(w, gone, id);
    var w2 := DestroyAll(w1, Orphans(w1), id);
    forall k | k in v.tracks
      ensures k in w.tracks && v.tracks[k] == w.tracks[k] && v.tracks[k] in v.media
      ensures !(v.media[v.tracks[k]].state == Unpublished && v.media[v.tracks[k]].publisher == None)
    {
      assert k in w2.tracks && k in w1.tracks;
      assert w1.tracks[k] !in Orphans(w1);
      LeaveMedia(w, id, w.tracks[k]);
    }
  }

  // ---------------------------------------------------------------- the exact effect of the other departures

  /** p publishes t. */
  predicate Publishes(w: World, p: PRef, t: TRef)
    requires p in w.people
  {
    exists k :: k in w.people[p].pub && w.people[p].pub[k] == t
  }

  /**
   After Participant.Leave: the participant has left, is in no room and holds nothing; no track lists it; its
   publications are unpublished and unowned; everything else is as it was.
   */
  lemma {:induction false} ParticipantLeaveExactly(w: World, p: PRef)
    requires Linked(w) && p in w.people && (p.id in w.participants ==> Member(w, p))
    ensures var v := ParticipantLeave(w, p);
            && v.state == w.state && v.participants == w.participants && v.tracks == w.tracks
            && v.people == w.people[p := Person(Left, false, map[], map[])] && v.media.Keys == w.media.Keys
            && forall t :: t in w.media ==>
                 && v.media[t].subscribers == w.media[t].subscribers - {p.id}
                 && v.media[t].state == (if Publishes(w, p, t) then Unpublished else w.media[t].state)
                 && v.media[t].publisher == if Publishes(w, p, t) then None else w.media[t].publisher
  {
    var v := ParticipantLeave(w, p);
    forall t | t in w.media
      ensures v.media[t].subscribers == w.media[t].subscribers - {p.id} && (t in Values(w.people[p].pub) <==> Publishes(w, p, t))
    {
      ForgottenBy(w, p, t);
    }
  }

  /** A track the leaver neither publishes nor follows does not list it. */
  lemma {:induction false} ForgottenBy(w: World, p: PRef, t: TRef)
    requires Linked(w) && p in w.people && (p.id in w.participants ==> Member(w, p)) && t in w.media
    ensures t !in Values(w.people[p].sub) ==> w.media[t].subscribers - {p.id} == w.media[t].subscribers
  {
    if p.id in w.media[t].subscribers {
      assert WatchedBy(w, t, p.id);
      assert w.people[p].sub[t.id] in Values(w.people[p].sub);
    }
  }

  /**
   After Room.Close: closed and empty; every member has left and holds nothing, everybody else is as they were; no track
   has a subscriber, and exactly the members' publications are unpublished and unowned.
   */
  lemma {:induction false} CloseExactly(w: World)
    requires Linked(w)
    ensures var v := CloseWorld(w);
            && v.state == RoomClosed && v.participants == map[] && v.tracks == map[]
            && v.people.Keys == w.people.Keys && v.media.Keys == w.media.Keys
            && (forall p :: p in w.people ==> v.people[p] == if Member(w, p) then Person(Left, false, map[], map[]) else w.people[p])
            && forall t :: t in w.media ==>
                 var unowned := exists p :: p in w.people && Member(w, p) && Publishes(w, p, t);
                 v.media[t] == if unowned then Media(Unpublished, None, map[]) else w.media[t].(subscribers := map[])
  {
    var v := CloseWorld(w);
    forall p | p in w.people
      ensures p in Members(w) <==> Member(w, p)
    {
      if Member(w, p) { assert w.participants[p.id] in Members(w); }
    }
    forall t | t in w.media
      ensures v.media[t].subscribers == map[]
      ensures (exists p :: p in Members(w) && t in Values(w.people[p].pub)) <==> exists p :: p in w.people && Member(w, p) && Publishes(w, p, t)
    {
      NobodyWatches(w, t);
      ClosedOwners(w, t);
    }
  }

  lemma {:induction false} NobodyWatches(w: World, t: TRef)
    requires Linked(w) && t in w.media
    ensures CloseWorld(w).media[t].subscribers == map[]
  {
    LinkedClose(w);
    var v := CloseWorld(w);
    assert forall k :: k in v.media[t].subscribers ==> WatchedBy(v, t, k);
  }

  lemma {:induction false} ClosedOwners(w: World, t: TRef)
    requires Linked(w) && t in w.media
    ensures (exists p :: p in Members(w) && t in Values(w.people[p].pub)) <==> exists p :: p in w.people && Member(w, p) && Publishes(w, p, t)
  {
    if p :| p in Members(w) && t in Values(w.people[p].pub) {
      assert Member(w, p) && Publishes(w, p, t);
    }
    if p :| p in w.people && Member(w, p) && Publishes(w, p, t) {
      assert w.participants[p.id] in Members(w) && t in Values(w.people[p].pub);
    }
  }
}
