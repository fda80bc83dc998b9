/**
 The domain operations as the program runs them: fields changed step by step, with the cleanup loops of
 Participant.Leave, destroyTrackLocked, Room.Leave and Room.Close in arbitrary map order. Each method is proved
 equal to the closed form of the Domain module.
 */
module RoomOps {
  import opened Prelude
  import opened Domain
  import opened DomainInvariant
  import opened DomainRuns
  import opened RoomTeardown

  class Room {
    var state: RoomState
    var participants: map<string, PRef>
    var tracks: map<string, TRef>
    var people: map<PRef, Person>   // the fields of every Participant object
    var media: map<TRef, Media>     // the fields of every Track object

    ghost function W(): World
      reads this
    {
      World(state, participants, tracks, people, media)
    }

    constructor ()
      ensures W() == EmptyWorld
    {
      state, participants, tracks, people, media := RoomCreated, map[], map[], map[], map[];
    }

    method Create() returns (err: Option<Error>)
      modifies this`state
      ensures err == if old(state) == RoomClosed then Some(RoomClosedError) else None
      ensures state == if old(state) == RoomCreated then RoomActive else old(state)
    {
      if state == RoomClosed {
        return Some(RoomClosedError);
      }
      if state == RoomCreated {
        state := RoomActive;
      }
      return None;
    }

    // -------------------------------------------------------------- tracks

    method AddSubscriber(t: TRef, p: PRef) returns (err: Option<Error>)
      requires t in media
      modifies this`media
      ensures err == if old(media[t].state) != Published then Some(TrackNotPublished) else None
      ensures media == if err.Some? || p.id in old(media[t].subscribers) then old(media)
                       else old(media)[t := old(media[t]).(subscribers := old(media[t].subscribers)[p.id := p])]
    {
      if media[t].state != Published {
        return Some(TrackNotPublished);
      }
      if p.id !in media[t].subscribers {
        media := media[t := media[t].(subscribers := media[t].subscribers[p.id := p])];
      }
      return None;
    }

    method RemoveSubscriber(t: TRef, id: string)
      requires t in media
      modifies this`media
      ensures media == old(media)[t := old(media[t]).(subscribers := old(media[t].subscribers) - {id})]
    {
      media := media[t := media[t].(subscribers := media[t].subscribers - {id})];
    }

    // -------------------------------------------------------------- participants

    method PublishTrack(p: PRef, t: TRef) returns (err: Option<Error>)
      requires p in people && t in media
      modifies this`people, this`media
      ensures (W(), err) == Publish(old(W()), p, t)
      ensures err == if old(people[p]).state == Left then Some(ParticipantLeft)
                     else if t.id in old(people[p]).pub then Some(TrackAlreadyPublished) else None
      ensures err.Some? ==> people == old(people) && media == old(media)
      ensures err.None? ==>
                && people == old(people)[p := old(people[p]).(pub := old(people[p]).pub[t.id := t])]
                && media == old(media)[t := Media(Published, Some(p), old(media[t]).subscribers)]
    {
      if people[p].state == Left {
        return Some(ParticipantLeft);
      }
      if t.id in people[p].pub {
        return Some(TrackAlreadyPublished);
      }
      people := people[p := people[p].(pub := people[p].pub[t.id := t])];
      media := media[t := media[t].(publisher := Some(p))];
      media := media[t := media[t].(state := Published)];
      assert media == old(media)[t := old(media[t]).(state := Published, publisher := Some(p))];
      return None;
    }

    method UnpublishTrack(p: PRef, k: string) returns (err: Option<Error>)
      requires p in people && Keyed(people[p].pub, media.Keys)
      modifies this`people, this`media
      ensures (W(), err) == Unpublish(old(W()), p, k)
      ensures err == if old(people[p]).state == Left then Some(ParticipantLeft)
                     else if k !in old(people[p]).pub then Some(TrackNotFound) else None
      ensures err.Some? ==> people == old(people) && media == old(media)
      ensures err.None? ==>
                && var t := old(people[p]).pub[k];
                && people == old(people)[p := old(people[p]).(pub := old(people[p]).pub - {k})]
                && media == old(media)[t := Media(Unpublished, old(media)[t].publisher, old(media)[t].subscribers)]
    {
      if people[p].state == Left {
        return Some(ParticipantLeft);
      }
      if k !in people[p].pub {
        return Some(TrackNotFound);
      }
      var t := people[p].pub[k];
      media := media[t := media[t].(state := Unpublished)];
      people := people[p := people[p].(pub := people[p].pub - {k})];
      return None;
    }

    /** Both sides are linked, or, when the track refuses, the participant's side is rolled back. */
    method SubscribeTrack(p: PRef, t: TRef) returns (err: Option<Error>)
      requires p in people && t in media
      modifies this`people, this`media
      ensures (W(), err) == Subscribe(old(W()), p, t)
      ensures err == if old(people[p]).state == Left then Some(ParticipantLeft)
                     else if t.id in old(people[p]).sub then Some(TrackAlreadySubscribed)
                     else if old(media[t]).state != Published then Some(TrackNotPublished) else None
      ensures err.Some? ==> people == old(people) && media == old(media)
      ensures err.None? ==>
                && people == old(people)[p := old(people[p]).(sub := old(people[p]).sub[t.id := t])]
                && media == old(media)[t := media[t]] && media[t] == old(media[t]).(subscribers := media[t].subscribers)
                && media[t].subscribers == if p.id in old(media[t]).subscribers then old(media[t]).subscribers
                                           else old(media[t]).subscribers[p.id := p]
    {
      if people[p].state == Left {
        return Some(ParticipantLeft);
      }
      if t.id in people[p].sub {
        return Some(TrackAlreadySubscribed);
      }
      ghost var before := people[p].sub;
      people := people[p := people[p].(sub := people[p].sub[t.id := t])];
      err := AddSubscriber(t, p);
      if err.Some? {
        people := people[p := people[p].(sub := people[p].sub - {t.id})];
        assert people[p].sub == before;
        assert people == old(people);
        return;
      }
      assert media[t].subscribers == if p.id in old(media[t].subscribers) then old(media[t].subscribers)
                                     else old(media[t].subscribers)[p.id := p];
      assert media == old(media)[t := old(media[t]).(subscribers := media[t].subscribers)];
    }

    method UnsubscribeTrack(p: PRef, k: string) returns (err: Option<Error>)
      requires p in people && (k in people[p].sub ==> people[p].sub[k] in media)
      modifies this`people, this`media
      ensures (W(), err) == Unsubscribe(old(W()), p, k)
      ensures err == if old(people[p]).state == Left then Some(ParticipantLeft)
                     else if k !in old(people[p]).sub then Some(TrackNotFound) else None
      ensures err.Some? ==> people == old(people) && media == old(media)
      ensures err.None? ==>
                && var t := old(people[p]).sub[k];
                && people == old(people)[p := old(people[p]).(sub := old(people[p]).sub - {k})]
                && media == old(media)[t := old(media)[t].(subscribers := old(media)[t].subscribers - {p.id})]
    {
      if people[p].state == Left {
        return Some(ParticipantLeft);
      }
      if k !in people[p].sub {
        return Some(TrackNotFound);
      }
      RemoveSubscriber(people[p].sub[k], p.id);
      people := people[p := people[p].(sub := people[p].sub - {k})];
      return None;
    }

    /** Participant.Leave: unpublish and disown every publication, leave every subscription, forget the room. */
    method LeaveParticipant(p: PRef)
      requires Linked(W()) && p in people
      modifies this`people, this`media
      ensures W() == ParticipantLeave(old(W()), p)
    {
      ghost var w := W();
      var pub, sub := people[p].pub, people[p].sub;
      assert forall k :: k in sub ==> Watching(w, p, k);
      people := people[p := people[p].(state := Left)];
      LeaveSomeNone(w, p);
      CleanPublications(p, pub, w);
      CleanSubscriptions(p, sub, w, Values(pub));
      people := people[p := Person(Left, false, map[], map[])];
      assert people == w.people[p := Person(Left, false, map[], map[])];
    }

    method CleanPublications(p: PRef, pub: map<string, TRef>, ghost w: World)
      requires media == LeaveSome(w, p, {}, {}) && Keyed(pub, w.media.Keys)
      modifies this`media
      ensures media == LeaveSome(w, p, Values(pub), {})
    {
      var todo := pub.Keys;
      ValuesOutsideAll(pub);
      while todo != {}
        invariant todo <= pub.Keys
        invariant media == LeaveSome(w, p, ValuesOutside(pub, todo), {})
        decreases |todo|
      {
        var k :| k in todo;
        LeaveSomePub(w, p, ValuesOutside(pub, todo), pub[k]);
        ValuesOutsideMore(pub, todo, k);
        media := media[pub[k] := Media(Unpublished, None, media[pub[k]].subscribers - {p.id})];
        todo := todo - {k};
      }
    }

    method CleanSubscriptions(p: PRef, sub: map<string, TRef>, ghost w: World, ghost pubs: set<TRef>)
      requires media == LeaveSome(w, p, pubs, {}) && Keyed(sub, w.media.Keys)
      modifies this`media
      ensures media == LeaveSome(w, p, pubs, Values(sub))
    {
      var todo := sub.Keys;
      ValuesOutsideAll(sub);
      while todo != {}
        invariant todo <= sub.Keys
        invariant media == LeaveSome(w, p, pubs, ValuesOutside(sub, todo))
        decreases |todo|
      {
        var k :| k in todo;
        LeaveSomeSub(w, p, pubs, ValuesOutside(sub, todo), sub[k]);
        ValuesOutsideMore(sub, todo, k);
        RemoveSubscriber(sub[k], p.id);
        todo := todo - {k};
      }
    }

    // -------------------------------------------------------------- the room

    method Join(p: PRef) returns (err: Option<Error>)
      requires p in people
      modifies this`participants
      ensures err == if state == RoomClosed then Some(RoomClosedError)
                     else if p.id in old(participants) then Some(ParticipantAlreadyExists) else None
      ensures participants == if err.None? then old(participants)[p.id := p] else old(participants)
    {
      if state == RoomClosed {
        return Some(RoomClosedError);
      }
      if p.id in participants {
        return Some(ParticipantAlreadyExists);
      }
      participants := participants[p.id := p];
      return None;
    }

    method RegisterTrack(t: TRef) returns (err: Option<Error>)
      modifies this`tracks
      ensures err == if state == RoomClosed then Some(RoomClosedError)
                     else if t.id in old(tracks) then Some(TrackAlreadyPublished) else None
      ensures tracks == if err.None? then old(tracks)[t.id := t] else old(tracks)
    {
      if state == RoomClosed {
        return Some(RoomClosedError);
      }
      if t.id in tracks {
        return Some(TrackAlreadyPublished);
      }
      tracks := tracks[t.id := t];
      return None;
    }

    /** resolvePublishedTrackLocked: scan the participants' publications in any order. */
    method ResolvePublished(k: string) returns (t: Option<TRef>)
      requires Linked(W())
      ensures t.Some? ==> exists id :: id in participants && k in people[participants[id]].pub &&
                                        people[participants[id]].pub[k] == t.value
      ensures t.None? ==> forall id :: id in participants ==> k !in people[participants[id]].pub
    {
      var todo := participants.Keys;
      while todo != {}
        invariant todo <= participants.Keys
        invariant forall id :: id in participants && id !in todo ==> k !in people[participants[id]].pub
        decreases |todo|
      {
        var id :| id in todo;
        if k in people[participants[id]].pub {
          return Some(people[participants[id]].pub[k]);
        }
        todo := todo - {id};
      }
      return None;
    }

    method SubscribeToTrack(p: PRef, k: string) returns (err: Option<Error>, ghost t: Option<TRef>)
      requires Linked(W()) && p in people
      modifies this`people, this`media
      ensures state == RoomClosed ==> err == Some(RoomClosedError) && W() == old(W())
      ensures t.Some? ==> t.value in old(media) && t.value.id == k && Resolves(old(W()), t.value) &&
                          (W(), err) == Subscribe(old(W()), p, t.value)
      ensures err.None? ==> t.Some? && k !in old(people[p]).sub && k in people[p].sub && people[p].sub[k] == t.value &&
                            t.value in media && p.id in media[t.value].subscribers
      ensures t.None? ==> err.Some? && W() == old(W())
      ensures t.None? && state != RoomClosed ==>
                err == Some(TrackNotFound) && k !in tracks && forall id :: id in participants ==> k !in old(people)[participants[id]].pub
    {
      t := None;
      if state == RoomClosed {
        return Some(RoomClosedError), None;
      }
      var found := None;
      if k in tracks {
        found := Some(tracks[k]);
      } else {
        found := ResolvePublished(k);
      }
      if found.None? {
        return Some(TrackNotFound), None;
      }
      t := found;
      err := SubscribeTrack(p, found.value);
    }

    method UnsubscribeFromTrack(p: PRef, k: string) returns (err: Option<Error>)
      requires Linked(W()) && p in people && (k in people[p].sub ==> people[p].sub[k] in media)
      modifies this`people, this`media
      ensures state == RoomClosed ==> err == Some(RoomClosedError) && W() == old(W())
      ensures var known := k in tracks || exists id :: id in participants && k in old(people)[participants[id]].pub;
              state != RoomClosed ==>
                (W(), err) == if known then Unsubscribe(old(W()), p, k) else (old(W()), Some(TrackNotFound))
    {
      if state == RoomClosed {
        return Some(RoomClosedError);
      }
      if k !in tracks {
        var found := ResolvePublished(k);
        if found.None? {
          return Some(TrackNotFound);
        }
      }
      err := UnsubscribeTrack(p, k);
    }

    method UnregisterTrack(k: string) returns (err: Option<Error>)
      modifies this`tracks
      ensures err == if state == RoomClosed then Some(RoomClosedError)
                     else if k !in old(tracks) then Some(TrackNotFound) else None
      ensures tracks == if err.None? then old(tracks) - {k} else old(tracks)
    {
      if state == RoomClosed {
        return Some(RoomClosedError);
      }
      if k !in tracks {
        return Some(TrackNotFound);
      }
      tracks := tracks - {k};
      return None;
    }

    method DestroyTrackLocked(t: TRef, exclude: string)
      requires Linked(W()) && t in media
      modifies this`tracks, this`people, this`media
      ensures W() == DestroyAll(old(W()), {t}, exclude)
    {
      ghost var w := W();
      media := media[t := media[t].(state := Unpublished, publisher := None)];
      tracks := tracks - {t.id};
      LinkedRetired(w, t);
      DetachSubscribers(t, exclude);
      DetachIsDestroy(w, t, exclude);
    }

    method DetachSubscribers(t: TRef, exclude: string)
      requires Linked(W()) && t in media
      modifies this`people, this`media
      ensures W() == Detach(old(W()), t, old(media[t].subscribers.Keys) - {exclude})
    {
      ghost var retired := W();
      var ids := media[t].subscribers.Keys;
      var todo := ids;
      DetachNone(retired, t);
      HandledEnds(ids, exclude);
      while todo != {}
        invariant todo <= ids
        invariant W() == Detach(retired, t, Handled(ids, todo, exclude))
        decreases |todo|
      {
        var k :| k in todo;
        HandledMore(ids, todo, exclude, k);
        if k != exclude {
          DetachStep(k, t, retired, Handled(ids, todo, exclude));
        }
        todo := todo - {k};
      }
    }

    /** Unsubscribe, whatever it reports. */
    method LetGo(p: PRef, k: string)
      requires p in people && (k in people[p].sub ==> people[p].sub[k] in media)
      modifies this`people, this`media
      ensures W() == Unsubscribe(old(W()), p, k).0
    {
      var _ := UnsubscribeTrack(p, k);
    }

    /** One iteration of the detach loop. */
    method DetachStep(k: string, t: TRef, ghost retired: World, ghost done: set<string>)
      requires Linked(retired) && t in retired.media && k in retired.media[t].subscribers && k !in done
      requires W() == Detach(retired, t, done)
      modifies this`people, this`media
      ensures W() == Detach(retired, t, done + {k})
    {
      DetachNext(retired, t, done, k);
      if k in participants {
        LetGo(participants[k], t.id);
      }
      ghost var after := media;
      assert W() == Detach(retired, t, done + {k});
      assert media[t].subscribers - {k} == media[t].subscribers;
      RemoveSubscriber(t, k);
      assert media == after;
    }

    method Leave(id: string) returns (err: Option<Error>)
      requires Linked(W())
      modifies this`participants, this`tracks, this`people, this`media
      ensures err == if state == RoomClosed then Some(RoomClosedError)
                     else if id !in old(participants) then Some(ParticipantNotFound) else None
      ensures W() == if err.None? then LeaveWorld(old(W()), id) else old(W())
    {
      if state == RoomClosed {
        return Some(RoomClosedError);
      }
      if id !in participants {
        return Some(ParticipantNotFound);
      }
      ghost var w := W();
      var p := participants[id];
      DestroyPublications(p, id);
      ghost var w1 := W();
      LinkedDestroyAll(w, Values(w.people[p].pub), id);
      PurgeOrphans(id);
      ghost var w2 := W();
      LinkedDestroyAll(w1, Orphans(w1), id);
      DropLeaverSubscriptions(p);
      participants := participants - {id};
      LeaveByParts(w, id, w1, w2, W());
      return None;
    }

    /** First loop of Room.Leave: destroy what the leaver published. */
    method DestroyPublications(p: PRef, id: string)
      requires Linked(W()) && p in people && id in participants && participants[id] == p
      modifies this`tracks, this`people, this`media
      ensures W() == DestroyAll(old(W()), Values(old(people[p].pub)), id)
    {
      ghost var w := W();
      var pub := people[p].pub;
      var todo := pub.Keys;
      ValuesOutsideAll(pub);
      DestroyNone(w, id);
      while todo != {}
        invariant todo <= pub.Keys
        invariant W() == DestroyAll(w, ValuesOutside(pub, todo), id)
        decreases |todo|
      {
        var k :| k in todo;
        DestroyStep(pub[k], id, w, ValuesOutside(pub, todo));
        ValuesOutsideMore(pub, todo, k);
        todo := todo - {k};
      }
    }

    method DestroyStep(t: TRef, id: string, ghost w: World, ghost done: set<TRef>)
      requires Linked(w) && (forall u :: u in done ==> u in w.media) && t in w.media && id in w.participants
      requires W() == DestroyAll(w, done, id)
      modifies this`tracks, this`people, this`media
      ensures W() == DestroyAll(w, done + {t}, id)
    {
      LinkedDestroyAll(w, done, id);
      DestroyTwice(w, done, {t}, id);
      DestroyTrackLocked(t, id);
    }

    /** Second loop of Room.Leave: registry entries that are unpublished and ownerless go too. */
    method PurgeOrphans(id: string)
      requires Linked(W()) && id in participants
      modifies this`tracks, this`people, this`media
      ensures W() == DestroyAll(old(W()), Orphans(old(W())), id)
    {
      ghost var w := W();
      var todo := tracks.Keys;
      ghost var done: set<TRef> := {};
      DestroyNone(w, id);
      while todo != {}
        invariant todo <= w.tracks.Keys
        invariant done == OrphansOutside(w, todo)
        invariant W() == DestroyAll(w, done, id)
        decreases |todo|
      {
        var k :| k in todo;
        LinkedDestroyAll(w, done, id);
        OrphansMore(w, todo, k, id);
        if k in tracks && media[tracks[k]].state == Unpublished && media[tracks[k]].publisher == None {
          DestroyTwice(w, done, {tracks[k]}, id);
          done := done + {tracks[k]};
          DestroyTrackLocked(tracks[k], id);
        }
        todo := todo - {k};
      }
      assert OrphansOutside(w, {}) == Orphans(w);
    }

    /** Third loop of Room.Leave: drop the leaver's subscriptions and the entries they leave abandoned. */
    method DropLeaverSubscriptions(p: PRef)
      requires Linked(W()) && p in people
      modifies this`tracks, this`people, this`media
      ensures (people, media) == (DropSubscriptions(old(W()), p).people, DropSubscriptions(old(W()), p).media)
      ensures old(Keyed(tracks, media.Keys)) && media.Keys == old(media.Keys)
      ensures tracks == RegistryAfter(old(tracks), media, old(people[p].sub.Keys))
    {
      ghost var w := W();
      var sub := people[p].sub;
      DropNone(w, p);
      DropEverything(w, p);
      var todo := sub.Keys;
      assert sub.Keys - todo == {};
      while todo != {}
        invariant todo <= sub.Keys
        invariant W() == DropSome(w, p, sub.Keys - todo).(
                           tracks := RegistryAfter(w.tracks, DropSubscriptions(w, p).media, sub.Keys - todo))
        decreases |todo|
      {
        var k :| k in todo;
        DropStep(p, k, w, sub.Keys - todo);
        assert sub.Keys - todo + {k} == sub.Keys - (todo - {k});
        todo := todo - {k};
      }
      assert sub.Keys - todo == sub.Keys;
    }

    /** One iteration of the subscription loop. */
    method DropStep(p: PRef, k: string, ghost w: World, ghost done: set<string>)
      requires Linked(w) && p in w.people && k in w.people[p].sub && done <= w.people[p].sub.Keys && k !in done
      requires DropSubscriptions(w, p).media.Keys == w.media.Keys
      requires W() == DropSome(w, p, done).(tracks := RegistryAfter(w.tracks, DropSubscriptions(w, p).media, done))
      modifies this`tracks, this`people, this`media
      ensures W() == DropSome(w, p, done + {k}).(tracks := RegistryAfter(w.tracks, DropSubscriptions(w, p).media, done + {k}))
    {
      ghost var final := DropSubscriptions(w, p).media;
      DropMore(w, p, done, k);
      LetGo(p, k);
      assert (people, media) == (DropSome(w, p, done + {k}).people, DropSome(w, p, done + {k}).media);
      RegistryMore(w.tracks, final, done, k);
      DropEverything(w, p);
      if k in w.tracks { AbandonedSettled(w, p, done + {k}, k); }
      if k in tracks && media[tracks[k]].subscribers == map[] && media[tracks[k]].publisher == None {
        tracks := tracks - {k};
      }
    }

    method Close()
      requires Linked(W())
      modifies this
      ensures W() == if old(state) == RoomClosed then old(W()) else CloseWorld(old(W()))
    {
      if state == RoomClosed {
        return;
      }
      ghost var w := W();
      state := RoomClosed;
      var todo := participants.Keys;
      LeaveNone(w);
      assert MembersOutside(participants, todo) == {};
      while todo != {}
        invariant todo <= participants.Keys && participants == w.participants
        invariant W() == LeaveAll(w, MembersOutside(w.participants, todo)).(state := RoomClosed)
        decreases |todo|
      {
        var k :| k in todo;
        CloseStep(participants[k], w, MembersOutside(participants, todo));
        MembersOutsideMore(participants, todo, k);
        todo := todo - {k};
      }
      assert MembersOutside(w.participants, todo) == Members(w);
      participants, tracks := map[], map[];
    }

    method CloseStep(p: PRef, ghost w: World, ghost done: set<PRef>)
      requires Linked(w) && (forall q :: q in done ==> q in w.people && Member(w, q)) && p in w.people && p !in done
      requires Member(w, p) && W() == LeaveAll(w, done).(state := RoomClosed)
      modifies this`people, this`media
      ensures W() == LeaveAll(w, done + {p}).(state := RoomClosed)
    {
      LinkedLeaveAll(w, done);
      KeepsLinks(LeaveAll(w, done), W());
      LeaveAllMore(w, done, p);
      LeaveParticipant(p);
    }
  }
}
