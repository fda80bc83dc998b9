/**
 The SDK client: composite calls over rooms, each an atomic step. Rooms never share objects, so the client's state
 is one world per open room. The registry of every room agrees with what its participants publish.
 */
module ClientRuns {
  import opened Prelude
  import opened Domain
  import opened DomainInvariant
  import opened DomainRuns

  datatype State = State(rooms: map<string, World>, closedRooms: set<string>, next: nat)

  datatype Status = Ok | InvalidArgument | RoomNotFound | Refused(error: Error) | InvalidTrack

  // ---------------------------------------------------------------- registry agreement

  /** Registry entry k is published by a current participant that lists it. */
  predicate OwnedEntry(w: World, k: string)
    requires k in w.tracks
  {
    var t := w.tracks[k];
    && t in w.media && w.media[t].state == Published && w.media[t].publisher.Some?
    && var m := w.media[t].publisher.value;
       Member(w, m) && m in w.people && k in w.people[m].pub && w.people[m].pub[k] == t
  }

  /** Publication k of participant m is the registry entry, owned by m. */
  predicate Registered(w: World, m: PRef, k: string)
    requires m in w.people && k in w.people[m].pub
  {
    var t := w.people[m].pub[k];
    k in w.tracks && w.tracks[k] == t && t in w.media && w.media[t].publisher == Some(m)
  }

  /** References made so far carry numbers below `next`. */
  predicate Below(w: World, next: nat) {
    && (forall p :: p in w.people ==> p.obj < next)
    && (forall t :: t in w.media ==> t.obj < next)
  }

  ghost predicate Agrees(w: World) {
    && w.state != RoomClosed
    && (forall k :: k in w.tracks ==> OwnedEntry(w, k))
    && (forall m, k :: m in w.people && Member(w, m) && k in w.people[m].pub ==> Registered(w, m, k))
    && (forall m :: m in w.people && Member(w, m) ==> w.people[m].state != Left)
  }

  /** Subscription k of participant p is to what the registry holds under that ID. */
  predicate Following(w: World, p: PRef, k: string)
    requires p in w.people && k in w.people[p].sub
  {
    k in w.tracks && w.tracks[k] == w.people[p].sub[k]
  }

  ghost predicate Followed(w: World) { forall p, k :: p in w.people && k in w.people[p].sub ==> Following(w, p, k) }

  ghost predicate RoomInv(w: World, next: nat) { Linked(w) && Agrees(w) && Below(w, next) && Followed(w) }

  ghost predicate Inv(c: State) { forall r :: r in c.rooms ==> RoomInv(c.rooms[r], c.next) }

  /** A room's registry holds a track exactly when exactly one current participant publishes it, and owns it. */
  lemma {:induction false} RegistryAgreement(w: World, k: string, t: TRef)
    requires Linked(w) && Agrees(w)
    ensures (k in w.tracks && w.tracks[k] == t)
            <==> (exists m :: m in w.people && Member(w, m) && k in w.people[m].pub && w.people[m].pub[k] == t)
    ensures k in w.tracks && w.tracks[k] == t ==>
              t in w.media && w.media[t].state == Published && w.media[t].publisher.Some? &&
              Member(w, w.media[t].publisher.value)
    ensures forall m :: m in w.people && Member(w, m) && k in w.people[m].pub && w.people[m].pub[k] == t ==>
              t in w.media && w.media[t].publisher == Some(m)
  {
    if k in w.tracks && w.tracks[k] == t { assert OwnedEntry(w, k); }
    forall m | m in w.people && Member(w, m) && k in w.people[m].pub && w.people[m].pub[k] == t
      ensures k in w.tracks && w.tracks[k] == t && t in w.media && w.media[t].publisher == Some(m)
    {
      assert Registered(w, m, k);
    }
  }

  // ---------------------------------------------------------------- what each call does to its room

  const OpenWorld := World(RoomActive, map[], map[], map[], map[])

  function JoinWorld(w: World, id: string, next: nat): World {
    if id in w.participants then w
    else
      var p := PRef(next, id);
      w.(people := w.people[p := Person(Joined, true, map[], map[])], participants := w.participants[id := p])
  }

  /** Publish: refused by the participant, refused by the registry and rolled back, or done. */
  function PublishWorld(w: World, id: string, k: string, next: nat): (World, Option<Error>)
    requires id in w.participants && w.participants[id] in w.people
  {
    var p, t := w.participants[id], TRef(next, k);
    if w.people[p].state == Left then (w.(media := w.media[t := Media(Created, None, map[])]), Some(ParticipantLeft))
    else if k in w.people[p].pub then
      (w.(media := w.media[t := Media(Created, None, map[])]), Some(TrackAlreadyPublished))
    else if w.state == RoomClosed then
      (w.(media := w.media[t := Media(Unpublished, Some(p), map[])]), Some(RoomClosedError))
    else if k in w.tracks then
      (w.(media := w.media[t := Media(Unpublished, Some(p), map[])]), Some(TrackAlreadyPublished))
    else
      (w.(media := w.media[t := Media(Published, Some(p), map[])], tracks := w.tracks[k := t],
          people := w.people[p := w.people[p].(pub := w.people[p].pub[k := t])]), None)
  }

  // ---------------------------------------------------------------- each call keeps the agreement

  /** Subscriptions do not matter to the registry. */
  lemma {:induction false} AgreesKept(w: World, v: World)
    requires Agrees(w) && v.state == w.state && v.participants == w.participants && v.tracks == w.tracks
    requires v.people.Keys == w.people.Keys && v.media.Keys == w.media.Keys
    requires forall p :: p in w.people ==> v.people[p].pub == w.people[p].pub && v.people[p].state == w.people[p].state
    requires forall t :: t in w.media ==> v.media[t].state == w.media[t].state && v.media[t].publisher == w.media[t].publisher
    ensures Agrees(v)
  {
    forall k | k in v.tracks
      ensures OwnedEntry(v, k)
    {
      assert OwnedEntry(w, k);
    }
    forall m, k | m in v.people && Member(v, m) && k in v.people[m].pub
      ensures Registered(v, m, k)
    {
      assert Registered(w, m, k);
    }
  }

  lemma {:induction false} JoinKeeps(w: World, id: string, next: nat)
    requires RoomInv(w, next)
    ensures RoomInv(JoinWorld(w, id, next), next + 1)
  {
    if id !in w.participants {
      var p := PRef(next, id);
      var u := w.(people := w.people[p := Person(Joined, true, map[], map[])]);
      LinkedNewPerson(w, p, Person(Joined, true, map[], map[]));
      LinkedJoin(u, p);
      JoinAgrees(w, p);
      FollowedGrowth(w, JoinWorld(w, id, next));
    }
  }

  lemma {:induction false} JoinAgrees(w: World, p: PRef)
    requires Agrees(w) && p !in w.people && p.id !in w.participants
    ensures Agrees(w.(people := w.people[p := Person(Joined, true, map[], map[])], participants := w.participants[p.id := p]))
  {
    var v := w.(people := w.people[p := Person(Joined, true, map[], map[])], participants := w.participants[p.id := p]);
    forall k | k in v.tracks
      ensures OwnedEntry(v, k)
    {
      assert OwnedEntry(w, k);
    }
    forall m, k | m in v.people && Member(v, m) && k in v.people[m].pub
      ensures Registered(v, m, k)
    {
      assert m != p && Member(w, m);
      assert Registered(w, m, k);
    }
  }

  /** A fresh track object nobody subscribes to. */
  lemma {:induction false} NewMediaLinked(w: World, t: TRef, m: Media)
    requires Linked(w) && t !in w.media && m.subscribers == map[]
    ensures Linked(w.(media := w.media[t := m]))
  {
    var v := w.(media := w.media[t := m]);
    forall u, k | u in v.media && k in v.media[u].subscribers
      ensures WatchedBy(v, u, k)
    {
      assert WatchedBy(w, u, k);
    }
    forall q, k | q in v.people && k in v.people[q].sub
      ensures Watching(v, q, k)
    {
      assert Watching(w, q, k);
    }
  }

  lemma {:induction false} GrowthAgrees(w: World, v: World)
    requires Agrees(w) && v.state == w.state && v.tracks == w.tracks
    requires v.people == w.people && v.participants == w.participants
    requires forall t :: t in w.media ==> t in v.media && v.media[t] == w.media[t]
    ensures Agrees(v)
  {
    forall k | k in w.tracks
      ensures OwnedEntry(v, k)
    {
      OwnedUnderGrowth(w, v, k);
    }
    forall q, k | q in w.people && Member(w, q) && k in w.people[q].pub
      ensures Registered(v, q, k)
    {
      assert Registered(w, q, k);
    }
  }

  lemma {:induction false} NewMediaAgrees(w: World, t: TRef, m: Media)
    requires Agrees(w) && t !in w.media
    ensures Agrees(w.(media := w.media[t := m]))
  {
    var v := w.(media := w.media[t := m]);
    GrowthAgrees(w, v);
  }

  lemma OwnedUnderGrowth(w: World, v: World, k: string)
    requires k in w.tracks && OwnedEntry(w, k)
    requires v.tracks == w.tracks && v.people == w.people && v.participants == w.participants
    requires w.tracks[k] in v.media && v.media[w.tracks[k]] == w.media[w.tracks[k]]
    ensures OwnedEntry(v, k)
  {
  }

  lemma {:induction false} PublishKeeps(w: World, id: string, k: string, next: nat)
    requires RoomInv(w, next) && id in w.participants
    ensures RoomInv(PublishWorld(w, id, k, next).0, next + 1)
  {
    var p, t := w.participants[id], TRef(next, k);
    var v := PublishWorld(w, id, k, next).0;
    if PublishWorld(w, id, k, next).1.None? {
      PublishListed(w, p, t, next);
    } else {
      NewMediaKeeps(w, t, v.media[t], next);
    }
  }

  /** A track object that is published nowhere. */
  lemma {:induction false} NewMediaKeeps(w: World, t: TRef, m: Media, next: nat)
    requires RoomInv(w, next) && t.obj == next && m.subscribers == map[]
    ensures RoomInv(w.(media := w.media[t := m]), next + 1)
  {
    NewMediaLinked(w, t, m);
    NewMediaAgrees(w, t, m);
    FollowedGrowth(w, w.(media := w.media[t := m]));
  }

  lemma {:induction false} PublishListed(w: World, p: PRef, t: TRef, next: nat)
    requires RoomInv(w, next) && t.obj == next && p in w.people && Member(w, p)
    requires t.id !in w.tracks && t.id !in w.people[p].pub
    ensures RoomInv(Listed(w.(media := w.media[t := Media(Published, Some(p), map[])]), p, t), next + 1)
  {
    var u := w.(media := w.media[t := Media(Published, Some(p), map[])]);
    NewMediaKeeps(w, t, Media(Published, Some(p), map[]), next);
    ListedLinked(u, p, t);
    ListedAgrees(u, p, t);
    ListedFollowed(u, p, t);
  }

  /** Track t enters the registry and p's publications. */
  function Listed(w: World, p: PRef, t: TRef): World
    requires p in w.people
  {
    w.(tracks := w.tracks[t.id := t], people := w.people[p := w.people[p].(pub := w.people[p].pub[t.id := t])])
  }

  lemma {:induction false} ListedLinked(w: World, p: PRef, t: TRef)
    requires Linked(w) && t in w.media && p in w.people && w.people[p].state != Left
    ensures Linked(Listed(w, p, t))
  {
    var v := Listed(w, p, t);
    forall q | q in v.people
      ensures v.people[q].sub == w.people[q].sub && Keyed(v.people[q].pub, v.media.Keys)
    {
      if q != p { assert v.people[q] == w.people[q]; }
    }
    KeepsLinks(w, v);
  }

  /** A track known to nobody enters the registry and its publisher's list. */
  lemma {:induction false} ListedAgrees(w: World, p: PRef, t: TRef)
    requires Agrees(w) && t in w.media && w.media[t].state == Published && w.media[t].publisher == Some(p)
    requires p in w.people && Member(w, p) && t.id !in w.tracks && t.id !in w.people[p].pub
    ensures Agrees(Listed(w, p, t))
  {
    var v := Listed(w, p, t);
    forall k | k in v.tracks
      ensures OwnedEntry(v, k)
    {
      if k != t.id { assert OwnedEntry(w, k); }
    }
    forall q, k | q in v.people && Member(v, q) && k in v.people[q].pub
      ensures Registered(v, q, k)
    {
      if q != p || k != t.id { assert Registered(w, q, k); }
    }
  }

  /** With an agreeing registry a departure purges nothing beyond the leaver's own publications. */
  lemma {:induction false} NoOrphans(w: World, id: string)
    requires Linked(w) && Agrees(w) && id in w.participants
    ensures Destroyed(w, id) == Values(w.people[w.participants[id]].pub)
  {
    var gone := Values(w.people[w.participants[id]].pub);
    var w1 := DestroyAll(w, gone, id);
    DestroyAllKeyed(w, gone, id);
    forall k | k in w1.tracks
      ensures w1.media[w1.tracks[k]].state == Published
    {
      assert OwnedEntry(w, k);
      assert w.tracks[k] !in gone;
    }
    assert Orphans(w1) == {};
  }

  /** The registry loses exactly the leaver's publications. */
  lemma {:induction false} LeaveTracks(w: World, id: string)
    requires Linked(w) && Agrees(w) && id in w.participants
    ensures var pub := w.people[w.participants[id]].pub;
            LeaveWorld(w, id).tracks == w.tracks - pub.Keys
  {
    var pub := w.people[w.participants[id]].pub;
    LeaveRegistry(w, id);
    forall k | k in w.tracks && k !in pub
      ensures k in LeaveWorld(w, id).tracks
    {
      KeptEntry(w, id, k);
    }
    forall k | k in pub
      ensures k !in LeaveWorld(w, id).tracks
    {
      LostEntry(w, id, k);
    }
    SameRegistry(w.tracks, LeaveWorld(w, id).tracks, pub.Keys);
  }

  lemma SameRegistry(a: map<string, TRef>, b: map<string, TRef>, gone: set<string>)
    requires forall k :: k in b ==> k in a && b[k] == a[k]
    requires forall k :: k in a && k !in gone ==> k in b
    requires forall k :: k in gone ==> k !in b
    ensures b == a - gone
  {
  }

  /** A publication of the leaver is out of the registry. */
  lemma {:induction false} LostEntry(w: World, id: string, k: string)
    requires Linked(w) && id in w.participants && k in w.people[w.participants[id]].pub
    ensures k !in LeaveWorld(w, id).tracks
  {
    LeaveRegistry(w, id);
    assert w.people[w.participants[id]].pub[k] in Destroyed(w, id);
  }

  /** A registry entry somebody else owns survives. */
  lemma {:induction false} KeptEntry(w: World, id: string, k: string)
    requires Linked(w) && Agrees(w) && id in w.participants && k in w.tracks
    requires k !in w.people[w.participants[id]].pub
    ensures k in LeaveWorld(w, id).tracks
  {
    var p := w.participants[id];
    var gone := Values(w.people[p].pub);
    assert OwnedEntry(w, k);
    var w1 := DestroyAll(w, gone, id);
    DestroyAllKeyed(w, gone, id);
    var w2 := DestroyAll(w1, Orphans(w1), id);
    DestroyAllKeyed(w1, Orphans(w1), id);
    KeptByDestroy(w, id, k);
    LeaveMedia(w, id, w.tracks[k]);
    DropKeyed(w2, p);
    assert LeaveWorld(w, id).media == DropSubscriptions(w2, p).media;
  }

  lemma {:induction false} KeptByDestroy(w: World, id: string, k: string)
    requires Linked(w) && Agrees(w) && id in w.participants && k in w.tracks && k !in w.people[w.participants[id]].pub
    ensures var w1 := DestroyAll(w, Values(w.people[w.participants[id]].pub), id);
            Keyed(w1.tracks, w1.media.Keys) && k in DestroyAll(w1, Orphans(w1), id).tracks
  {
    var p := w.participants[id];
    var gone := Values(w.people[p].pub);
    DestroyAllKeyed(w, gone, id);
    KeyedValues(w.people[p].pub, w.media.Keys, k);
    NoOrphans(w, id);
    DestroyTwice(w, gone, Orphans(DestroyAll(w, gone, id)), id);
  }

  lemma KeyedValues(m: map<string, TRef>, known: set<TRef>, k: string)
    requires Keyed(m, known) && k !in m
    ensures forall t :: t in Values(m) ==> t.id != k
  {
  }

  /** v is w without participant p and exactly p's publications, as far as the registry is concerned. */
  predicate WithoutPublisher(w: World, v: World, p: PRef)
    requires p in w.people
  {
    && v.state == w.state && v.participants == w.participants - {p.id}
    && v.tracks == w.tracks - w.people[p].pub.Keys
    && v.people.Keys == w.people.Keys && v.media.Keys == w.media.Keys
    && (forall m :: m in w.people && m != p ==>
          v.people[m].pub == w.people[m].pub && v.people[m].state == w.people[m].state)
    && (forall t :: t in w.media && t.id !in w.people[p].pub ==>
          v.media[t].state == w.media[t].state && v.media[t].publisher == w.media[t].publisher)
  }

  lemma OwnedAfterLeave(w: World, v: World, p: PRef, k: string)
    requires p in w.people && Member(w, p) && WithoutPublisher(w, v, p) && k in v.tracks
    requires w.tracks[k].id == k && OwnedEntry(w, k)
    ensures OwnedEntry(v, k)
  {
  }

  lemma RegisteredAfterLeave(w: World, v: World, p: PRef, m: PRef, k: string)
    requires p in w.people && Member(w, p) && WithoutPublisher(w, v, p) && m in v.people && Member(v, m)
    requires k in v.people[m].pub && v.people[m].pub[k].id == k && k in w.people[m].pub && Registered(w, m, k)
    requires k in w.people[p].pub ==> Registered(w, p, k)
    ensures Registered(v, m, k)
  {
  }

  /** Removing a participant together with exactly its publications keeps the agreement. */
  lemma {:induction false} AgreesAfterLeave(w: World, v: World, p: PRef)
    requires Keyed(w.tracks, w.media.Keys) && (forall m :: m in w.people ==> Keyed(w.people[m].pub, w.media.Keys))
    requires Agrees(w) && p in w.people && Member(w, p) && WithoutPublisher(w, v, p)
    ensures Agrees(v)
  {
    forall k | k in v.tracks
      ensures OwnedEntry(v, k)
    {
      OwnedAfterLeave(w, v, p, k);
    }
    forall m, k | m in v.people && Member(v, m) && k in v.people[m].pub
      ensures Registered(v, m, k)
    {
      assert m != p && v.people[m].pub == w.people[m].pub;
      RegisteredAfterLeave(w, v, p, m, k);
    }
  }

  lemma {:induction false} LeaveKeeps(w: World, id: string, next: nat)
    requires RoomInv(w, next) && id in w.participants
    ensures RoomInv(LeaveWorld(w, id), next)
  {
    LinkedLeave(w, id);
    LeaveBelow(w, id);
    LeaveDropsPublisher(w, id);
    AgreesAfterLeave(w, LeaveWorld(w, id), w.participants[id]);
    LeaveFollowed(w, id);
  }

  /** Nobody stays subscribed to what the leaver published. */
  lemma {:induction false} LeaveFollowed(w: World, id: string)
    requires Linked(w) && Agrees(w) && Followed(w) && id in w.participants
    ensures Followed(LeaveWorld(w, id))
  {
    var v := LeaveWorld(w, id);
    LeaveTracks(w, id);
    LeaveBelow(w, id);
    NoOrphans(w, id);
    forall q, k | q in v.people && k in v.people[q].sub
      ensures Following(v, q, k)
    {
      LeavePeople(w, id, q);
      StillFollowing(w, v, w.participants[id], q, k);
    }
  }

  lemma {:induction false} StillFollowing(w: World, v: World, p: PRef, q: PRef, k: string)
    requires Agrees(w) && Followed(w) && p in w.people && Member(w, p) && q in w.people && q in v.people && k in v.people[q].sub
    requires v.people[q].sub == (if q == p then map[] else Without(w.people[q].sub, Values(w.people[p].pub)))
    requires v.tracks == w.tracks - w.people[p].pub.Keys
    ensures Following(v, q, k)
  {
    assert Following(w, q, k);
    assert k !in w.people[p].pub;
  }

  /** One more or one fewer subscription, or none. */
  lemma {:induction false} FollowedWith(w: World, v: World, p: PRef)
    requires Followed(w) && v.tracks == w.tracks && p in w.people && v.people.Keys == w.people.Keys
    requires forall q :: q in w.people && q != p ==> v.people[q] == w.people[q]
    requires forall k :: k in v.people[p].sub ==>
               (k in w.people[p].sub && v.people[p].sub[k] == w.people[p].sub[k]) || (k in w.tracks && v.people[p].sub[k] == w.tracks[k])
    ensures Followed(v)
  {
    forall q, k | q in v.people && k in v.people[q].sub
      ensures Following(v, q, k)
    {
      if k in w.people[q].sub { assert Following(w, q, k); }
    }
  }

  lemma {:induction false} SubscribeFollowed(w: World, p: PRef, t: TRef)
    requires Followed(w) && p in w.people && t in w.media && t.id in w.tracks && w.tracks[t.id] == t
    ensures Followed(Subscribe(w, p, t).0)
  {
    FollowedWith(w, Subscribe(w, p, t).0, p);
  }

  lemma {:induction false} UnsubscribeFollowed(w: World, p: PRef, k: string)
    requires Followed(w) && p in w.people && (k in w.people[p].sub ==> w.people[p].sub[k] in w.media)
    ensures Followed(Unsubscribe(w, p, k).0)
  {
    FollowedWith(w, Unsubscribe(w, p, k).0, p);
  }

  lemma {:induction false} ListedFollowed(w: World, p: PRef, t: TRef)
    requires Followed(w) && p in w.people && t.id !in w.tracks
    ensures Followed(Listed(w, p, t))
  {
    FollowedGrowth(w, Listed(w, p, t));
  }

  /** The registry grows, subscriptions stay. */
  lemma {:induction false} FollowedGrowth(w: World, v: World)
    requires Followed(w) && (forall k :: k in w.tracks ==> k in v.tracks && v.tracks[k] == w.tracks[k])
    requires forall q :: q in v.people ==> if q in w.people then v.people[q].sub == w.people[q].sub else v.people[q].sub == map[]
    ensures Followed(v)
  {
    forall q, k | q in v.people && k in v.people[q].sub
      ensures Following(v, q, k)
    {
      assert Following(w, q, k);
    }
  }

  lemma {:induction false} LeaveDropsPublisher(w: World, id: string)
    requires Linked(w) && Agrees(w) && id in w.participants
    ensures WithoutPublisher(w, LeaveWorld(w, id), w.participants[id])
  {
    LeaveTracks(w, id);
    LeaveBelow(w, id);
    LeaveKeepsOthers(w, id);
    LeaveKeepsMedia(w, id);
  }

  lemma {:induction false} LeaveKeepsOthers(w: World, id: string)
    requires Linked(w) && id in w.participants
    ensures var v := LeaveWorld(w, id);
            forall m :: m in w.people && m != w.participants[id] ==>
              m in v.people && v.people[m].pub == w.people[m].pub && v.people[m].state == w.people[m].state
  {
    forall m | m in w.people && m != w.participants[id]
      ensures var v := LeaveWorld(w, id); m in v.people && v.people[m].pub == w.people[m].pub && v.people[m].state == w.people[m].state
    {
      LeavePeople(w, id, m);
    }
  }

  lemma {:induction false} LeaveKeepsMedia(w: World, id: string)
    requires Linked(w) && Agrees(w) && id in w.participants
    ensures var v := LeaveWorld(w, id);
            forall t :: t in w.media && t.id !in w.people[w.participants[id]].pub ==>
              t in v.media && v.media[t].state == w.media[t].state && v.media[t].publisher == w.media[t].publisher
  {
    forall t | t in w.media && t.id !in w.people[w.participants[id]].pub
      ensures var v := LeaveWorld(w, id);
              t in v.media && v.media[t].state == w.media[t].state && v.media[t].publisher == w.media[t].publisher
    {
      LeaveKeepsTrack(w, id, t);
    }
  }

  lemma {:induction false} LeaveKeepsTrack(w: World, id: string, t: TRef)
    requires Linked(w) && Agrees(w) && id in w.participants && t in w.media && t.id !in w.people[w.participants[id]].pub
    ensures var v := LeaveWorld(w, id);
            t in v.media && v.media[t].state == w.media[t].state && v.media[t].publisher == w.media[t].publisher
  {
    LeaveMedia(w, id, t);
    NoOrphans(w, id);
    KeyedValues(w.people[w.participants[id]].pub, w.media.Keys, t.id);
    assert t !in Values(w.people[w.participants[id]].pub);
  }

  lemma LeaveBelow(w: World, id: string)
    requires Linked(w) && id in w.participants
    ensures LeaveWorld(w, id).people.Keys == w.people.Keys && LeaveWorld(w, id).media.Keys == w.media.Keys
  {
  }

  lemma {:induction false} AgreesWith(w: World, p: PRef, person: Person, t: TRef, track: Media)
    requires Agrees(w) && p in w.people && t in w.media
    requires person.pub == w.people[p].pub && person.state == w.people[p].state
    requires track.state == w.media[t].state && track.publisher == w.media[t].publisher
    ensures Agrees(With(w, p, person, t, track))
  {
    AgreesKept(w, With(w, p, person, t, track));
  }

  lemma {:induction false} SubscribeKeeps(w: World, p: PRef, t: TRef, next: nat)
    requires RoomInv(w, next) && p in w.people && Member(w, p) && t in w.media && t.id in w.tracks && w.tracks[t.id] == t
    ensures RoomInv(Subscribe(w, p, t).0, next)
  {
    LinkedSubscribe(w, p, t);
    var v := Subscribe(w, p, t).0;
    SubscribeFollowed(w, p, t);
    if v != w { AgreesWith(w, p, v.people[p], t, v.media[t]); }
  }

  lemma {:induction false} SubscriptionKnown(w: World, p: PRef, k: string)
    requires Linked(w) && p in w.people
    ensures k in w.people[p].sub ==> w.people[p].sub[k] in w.media
  {
    if k in w.people[p].sub { assert Watching(w, p, k); }
  }

  lemma {:induction false} UnsubscribeKeeps(w: World, p: PRef, k: string, next: nat)
    requires RoomInv(w, next) && p in w.people
    ensures k in w.people[p].sub ==> w.people[p].sub[k] in w.media
    ensures RoomInv(Unsubscribe(w, p, k).0, next)
  {
    LinkedUnsubscribe(w, p, k);
    var v := Unsubscribe(w, p, k).0;
    UnsubscribeFollowed(w, p, k);
    if v != w { AgreesWith(w, p, v.people[p], w.people[p].sub[k], v.media[w.people[p].sub[k]]); }
  }

  // ---------------------------------------------------------------- runs of the client

  lemma OpenIfThere(c: State, room: string)
    requires Inv(c)
    ensures room in c.rooms ==> c.rooms[room].state != RoomClosed
  {
  }

  datatype Call =
    | JoinRoom(room: string, id: string)
    | LeaveRoom(room: string, id: string)
    | PublishTrack(room: string, id: string, k: string, valid: bool)
    | SubscribeTrack(room: string, id: string, k: string)
    | UnsubscribeTrack(room: string, id: string, k: string)
    | CloseRoom(room: string)

  function WithRoom(c: State, room: string, w: World): State { c.(rooms := c.rooms[room := w]) }

  /** One object number is used up. */
  function Taken(c: State): State { c.(next := c.next + 1) }

  function Report(err: Option<Error>): Status { if err.None? then Ok else Refused(err.value) }

  /** What one call leaves behind, and what it reports. */
  function Step(c: State, call: Call): (State, Status)
    requires Inv(c)
  {
    match call
    case JoinRoom(room, id) =>
      if room == "" || id == "" then (c, InvalidArgument)
      else
        var w := if room in c.rooms then c.rooms[room] else OpenWorld;
        (WithRoom(Taken(c), room, JoinWorld(w, id, c.next)).(closedRooms := c.closedRooms - {room}), Ok)
    case CloseRoom(room) =>
      if room == "" then (c, InvalidArgument)
      else if room in c.rooms then (c.(rooms := c.rooms - {room}, closedRooms := c.closedRooms + {room}), Ok)
      else (c, if room in c.closedRooms then Ok else RoomNotFound)
    case LeaveRoom(room, id) =>
      if room !in c.rooms then (c, RoomNotFound)
      else if id !in c.rooms[room].participants then (c, Refused(ParticipantNotFound))
      else (WithRoom(c, room, LeaveWorld(c.rooms[room], id)), Ok)
    case PublishTrack(room, id, k, valid) =>
      if room !in c.rooms then (c, RoomNotFound)
      else if id !in c.rooms[room].participants then (c, Refused(ParticipantNotFound))
      else if !valid then (c, InvalidTrack)
      else
        var r := PublishWorld(c.rooms[room], id, k, c.next);
        (WithRoom(Taken(c), room, r.0), Report(r.1))
    case SubscribeTrack(room, id, k) =>
      if room !in c.rooms then (c, RoomNotFound)
      else
        var w := c.rooms[room];
        if id !in w.participants then (c, Refused(ParticipantNotFound))
        else if k !in w.tracks then (c, Refused(TrackNotFound))
        else
          var r := Subscribe(w, w.participants[id], w.tracks[k]);
          (WithRoom(c, room, r.0), Report(r.1))
    case UnsubscribeTrack(room, id, k) =>
      if room !in c.rooms then (c, RoomNotFound)
      else
        var w := c.rooms[room];
        if id !in w.participants then (c, Refused(ParticipantNotFound))
        else if k !in w.tracks then (c, Refused(TrackNotFound))
        else
          SubscriptionKnown(w, w.participants[id], k);
          var r := Unsubscribe(w, w.participants[id], k);
          (WithRoom(c, room, r.0), Report(r.1))
  }

  lemma TakenInv(c: State)
    requires Inv(c)
    ensures Inv(Taken(c))
  {
  }

  lemma WithRoomInv(c: State, room: string, w: World)
    requires Inv(c) && RoomInv(w, c.next)
    ensures Inv(WithRoom(c, room, w))
  {
  }

  lemma OpenWorldInv(next: nat)
    ensures RoomInv(OpenWorld, next)
  {
  }

  lemma {:induction false} StepInv(c: State, call: Call)
    requires Inv(c)
    ensures Inv(Step(c, call).0)
  {
    if call.JoinRoom? {
      JoinStepInv(c, call.room, call.id);
    } else if !call.CloseRoom? && call.room in c.rooms && call.id in c.rooms[call.room].participants {
      MemberStepInv(c, call);
    }
  }

  lemma {:induction false} JoinStepInv(c: State, room: string, id: string)
    requires Inv(c)
    ensures Inv(Step(c, JoinRoom(room, id)).0)
  {
    var w := if room in c.rooms then c.rooms[room] else OpenWorld;
    OpenWorldInv(c.next);
    JoinKeeps(w, id, c.next);
    TakenInv(c);
    WithRoomInv(Taken(c), room, JoinWorld(w, id, c.next));
  }

  /** Calls made for a participant that is there. */
  lemma {:induction false} MemberStepInv(c: State, call: Call)
    requires Inv(c) && !call.JoinRoom? && !call.CloseRoom?
    requires call.room in c.rooms && call.id in c.rooms[call.room].participants
    ensures Inv(Step(c, call).0)
  {
    var w := c.rooms[call.room];
    var p := w.participants[call.id];
    match call
    case LeaveRoom(room, id) =>
      LeaveKeeps(w, id, c.next);
      WithRoomInv(c, room, LeaveWorld(w, id));
    case PublishTrack(room, id, k, valid) =>
      PublishKeeps(w, id, k, c.next);
      TakenInv(c);
      WithRoomInv(Taken(c), room, PublishWorld(w, id, k, c.next).0);
    case SubscribeTrack(room, id, k) =>
      if k in w.tracks {
        SubscribeKeeps(w, p, w.tracks[k], c.next);
        WithRoomInv(c, room, Subscribe(w, p, w.tracks[k]).0);
      }
    case UnsubscribeTrack(room, id, k) =>
      UnsubscribeKeeps(w, p, k, c.next);
      WithRoomInv(c, room, Unsubscribe(w, p, k).0);
  }

  const NewClient := State(map[], {}, 0)

  ghost function RunCalls(c: State, calls: seq<Call>): State
    requires Inv(c)
    decreases |calls|
  {
    if calls == [] then c else StepInv(c, calls[0]); RunCalls(Step(c, calls[0]).0, calls[1..])
  }

  lemma {:induction false} RunInv(c: State, calls: seq<Call>)
    requires Inv(c)
    ensures Inv(RunCalls(c, calls))
    decreases |calls|
  {
    if calls != [] {
      StepInv(c, calls[0]);
      RunInv(Step(c, calls[0]).0, calls[1..]);
    }
  }

  /**
   After any run of client calls, in every open room the registry holds track t under k exactly when one current
   participant, and only one, publishes it; t is then published and owned by that participant.
   */
  lemma {:induction false} RegistryAlwaysAgrees(calls: seq<Call>, room: string, k: string, t: TRef)
    requires room in RunCalls(NewClient, calls).rooms
    ensures var w := RunCalls(NewClient, calls).rooms[room];
            && ((k in w.tracks && w.tracks[k] == t)
                <==> exists m :: m in w.people && Member(w, m) && k in w.people[m].pub && w.people[m].pub[k] == t)
            && (forall m :: m in w.people && Member(w, m) && k in w.people[m].pub && w.people[m].pub[k] == t ==>
                  t in w.media && w.media[t].state == Published && w.media[t].publisher == Some(m))
  {
    RunInv(NewClient, calls);
    RegistryAgreement(RunCalls(NewClient, calls).rooms[room], k, t);
  }

  /** The scan of participants' publications never finds a track the registry does not have. */
  lemma {:induction false} NoHiddenPublications(w: World, k: string)
    requires Linked(w) && Agrees(w)
    ensures (exists id :: id in w.participants && k in w.people[w.participants[id]].pub) ==> k in w.tracks
  {
    forall id | id in w.participants && k in w.people[w.participants[id]].pub
      ensures k in w.tracks
    {
      assert Registered(w, w.participants[id], k);
    }
  }
}
