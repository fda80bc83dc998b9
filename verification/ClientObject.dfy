/**
 The SDK client as a mutable object over Room objects. Every method is proved to do exactly what Step says, so the
 agreement proved over runs of calls holds of the object.
 */
module ClientOps {
  import opened Prelude
  import opened Domain
  import opened DomainInvariant
  import opened DomainRuns
  import opened RoomOps
  import opened ClientRuns
  import opened ClientReference

  class Client {
    var rooms: map<string, Room>
    var closedRooms: set<string>
    var next: nat   // objects created so far

    ghost function S(): State
      reads this, rooms.Values
    {
      State(map r | r in rooms :: rooms[r].W(), closedRooms, next)
    }

    /** No two names lead to the same room object. */
    ghost predicate Separate()
      reads this
    {
      forall a, b :: a in rooms && b in rooms && rooms[a] == rooms[b] ==> a == b
    }

    ghost predicate Valid()
      reads this, rooms.Values
    {
      Separate() && Inv(S())
    }

    constructor ()
      ensures Valid() && S() == NewClient
    {
      rooms, closedRooms, next := map[], {}, 0;
    }

    /** Working on one room leaves the others alone. */
    twostate lemma OneRoom(room: string)
      requires room in rooms && Separate() && rooms == old(rooms)
      requires forall r :: r in rooms && rooms[r] != rooms[room] ==> rooms[r].W() == old(rooms[r].W())
      ensures S().rooms == old(S()).rooms[room := rooms[room].W()]
    {
    }

    method LeaveRoom(room: string, id: string) returns (st: Status)
      requires Valid()
      modifies rooms.Values
      ensures Valid() && (S(), st) == Step(old(S()), ClientRuns.LeaveRoom(room, id))
      ensures Answered(SeenAll(old(S())), ClientRuns.LeaveRoom(room, id), SeenAll(S()), st)
    {
      ghost var call := ClientRuns.LeaveRoom(room, id);
      StepInv(S(), call);
      StepAnswered(S(), call);
      if room !in rooms {
        return RoomNotFound;
      }
      assert S().rooms[room] == rooms[room].W();
      var err := rooms[room].Leave(id);
      OneRoom(room);
      if err.Some? { assert S().rooms == old(S()).rooms; }
      return Report(err);
    }

    method NewActiveRoom() returns (r: Room)
      ensures fresh(r) && r.W() == OpenWorld
    {
      r := new Room();
      var _ := r.Create();
    }

    method JoinIn(r: Room, id: string)
      requires r.state != RoomClosed
      modifies this`next, r
      ensures next == old(next) + 1 && r.W() == JoinWorld(old(r.W()), id, old(next))
    {
      ghost var w := r.W();
      next := next + 1;
      if id !in r.participants {
        var p := PRef(next - 1, id);
        r.people := r.people[p := Person(Joined, false, map[], map[])];
        var _ := r.Join(p);
        r.people := r.people[p := r.people[p].(inRoom := true)];
        assert r.people == w.people[p := Person(Joined, true, map[], map[])];
      }
    }

    /** Room first looked up or created, then the participant, who is told about the room last. */
    method JoinRoom(room: string, id: string) returns (st: Status)
      requires Valid()
      modifies this, rooms.Values
      ensures Valid() && (S(), st) == Step(old(S()), ClientRuns.JoinRoom(room, id))
      ensures Answered(SeenAll(old(S())), ClientRuns.JoinRoom(room, id), SeenAll(S()), st)
    {
      StepInv(S(), ClientRuns.JoinRoom(room, id));
      StepAnswered(S(), ClientRuns.JoinRoom(room, id));
      if room == "" || id == "" {
        return InvalidArgument;
      }
      OpenIfThere(S(), room);
      if room in rooms {
        JoinExisting(room, id);
      } else {
        JoinNew(room, id);
      }
      return Ok;
    }

    method JoinExisting(room: string, id: string)
      requires Separate() && room in rooms && rooms[room].state != RoomClosed
      modifies this`next, this`closedRooms, rooms[room]
      ensures rooms == old(rooms)
      ensures S() == WithRoom(Taken(old(S())), room, JoinWorld(old(rooms[room].W()), id, old(next))).(
                       closedRooms := old(closedRooms) - {room})
    {
      closedRooms := closedRooms - {room};
      JoinIn(rooms[room], id);
      OneRoom(room);
    }

    method JoinNew(room: string, id: string)
      requires Separate() && room !in rooms
      modifies this
      ensures Separate()
      ensures S() == WithRoom(Taken(old(S())), room, JoinWorld(OpenWorld, id, old(next))).(
                       closedRooms := old(closedRooms) - {room})
    {
      var r := NewActiveRoom();
      rooms := rooms[room := r];
      closedRooms := closedRooms - {room};
      JoinIn(r, id);
      assert S().rooms == old(S()).rooms[room := r.W()];
    }

    /** Participant first, registry second, participant rolled back when the registry refuses. */
    method PublishTrack(room: string, id: string, k: string, valid: bool) returns (st: Status)
      requires Valid()
      modifies this`next, rooms.Values
      ensures Valid() && (S(), st) == Step(old(S()), ClientRuns.PublishTrack(room, id, k, valid))
      ensures Answered(SeenAll(old(S())), ClientRuns.PublishTrack(room, id, k, valid), SeenAll(S()), st)
    {
      StepInv(S(), ClientRuns.PublishTrack(room, id, k, valid));
      StepAnswered(S(), ClientRuns.PublishTrack(room, id, k, valid));
      if room !in rooms {
        return RoomNotFound;
      }
      assert S().rooms[room] == rooms[room].W();
      if id !in rooms[room].participants {
        return Refused(ParticipantNotFound);
      }
      if !valid {
        return InvalidTrack;
      }
      var err := PublishNamed(room, rooms[room].participants[id], k);
      return Report(err);
    }

    method PublishNamed(room: string, p: PRef, k: string) returns (err: Option<Error>)
      requires Separate() && room in rooms && Member(rooms[room].W(), p)
      requires p in rooms[room].people && Keyed(rooms[room].people[p].pub, rooms[room].media.Keys)
      requires TRef(next, k) !in rooms[room].media
      modifies this`next, rooms.Values
      ensures Separate()
      ensures var r := PublishWorld(old(rooms[room].W()), p.id, k, old(next));
              S() == WithRoom(Taken(old(S())), room, r.0) && err == r.1
    {
      err := PublishIn(rooms[room], p, k);
      OneRoom(room);
    }

    method PublishIn(r: Room, p: PRef, k: string) returns (err: Option<Error>)
      requires p in r.people && Member(r.W(), p) && Keyed(r.people[p].pub, r.media.Keys) && TRef(next, k) !in r.media
      modifies this`next, r
      ensures (r.W(), err) == PublishWorld(old(r.W()), p.id, k, old(next)) && next == old(next) + 1
    {
      ghost var w := r.W();
      var t := TRef(next, k);
      next := next + 1;
      r.media := r.media[t := Media(Created, None, map[])];
      err := r.PublishTrack(p, t);
      if err.Some? {
        return;
      }
      PublishSucceeds(w, p, t);
      err := r.RegisterTrack(t);
      if err.Some? {
        PublishRollsBack(w, p, t);
        var _ := r.UnpublishTrack(p, k);
      }
    }

    method SubscribeTrack(room: string, id: string, k: string) returns (st: Status)
      requires Valid()
      modifies rooms.Values
      ensures Valid() && (S(), st) == Step(old(S()), ClientRuns.SubscribeTrack(room, id, k))
      ensures Answered(SeenAll(old(S())), ClientRuns.SubscribeTrack(room, id, k), SeenAll(S()), st)
    {
      StepInv(S(), ClientRuns.SubscribeTrack(room, id, k));
      StepAnswered(S(), ClientRuns.SubscribeTrack(room, id, k));
      if room !in rooms {
        return RoomNotFound;
      }
      assert S().rooms[room] == rooms[room].W();
      if id !in rooms[room].participants {
        return Refused(ParticipantNotFound);
      }
      var err := SubscribeIn(rooms[room], rooms[room].participants[id], k);
      OneRoom(room);
      if k !in rooms[room].tracks { assert S().rooms == old(S()).rooms; }
      return Report(err);
    }

    /** Room.SubscribeToTrack where the registry agrees: the scan behind the registry finds nothing more. */
    method SubscribeIn(r: Room, p: PRef, k: string) returns (err: Option<Error>)
      requires Linked(r.W()) && Agrees(r.W()) && p in r.people
      modifies r
      ensures (r.W(), err) == if k in old(r.tracks) then Subscribe(old(r.W()), p, old(r.tracks[k]))
                              else (old(r.W()), Some(TrackNotFound))
    {
      NoHiddenPublications(r.W(), k);
      ghost var t;
      err, t := r.SubscribeToTrack(p, k);
    }

    method UnsubscribeTrack(room: string, id: string, k: string) returns (st: Status)
      requires Valid()
      modifies rooms.Values
      ensures Valid() && (S(), st) == Step(old(S()), ClientRuns.UnsubscribeTrack(room, id, k))
      ensures Answered(SeenAll(old(S())), ClientRuns.UnsubscribeTrack(room, id, k), SeenAll(S()), st)
    {
      StepInv(S(), ClientRuns.UnsubscribeTrack(room, id, k));
      StepAnswered(S(), ClientRuns.UnsubscribeTrack(room, id, k));
      if room !in rooms {
        return RoomNotFound;
      }
      st := UnsubscribeMember(room, id, k);
    }

    method UnsubscribeMember(room: string, id: string, k: string) returns (st: Status)
      requires Valid() && room in rooms
      modifies rooms[room]
      ensures Separate() && (S(), st) == Step(old(S()), ClientRuns.UnsubscribeTrack(room, id, k))
    {
      assert S().rooms[room] == rooms[room].W();
      if id !in rooms[room].participants {
        return Refused(ParticipantNotFound);
      }
      var err := UnsubscribeNamed(room, rooms[room].participants[id], k);
      return Report(err);
    }

    method UnsubscribeNamed(room: string, p: PRef, k: string) returns (err: Option<Error>)
      requires Separate() && room in rooms && Linked(rooms[room].W()) && Agrees(rooms[room].W()) && p in rooms[room].people
      modifies rooms[room]
      ensures Separate()
      ensures old(k in rooms[room].people[p].sub) ==> old(rooms[room].people[p].sub[k] in rooms[room].media)
      ensures var r := if k in old(rooms[room].tracks) then Unsubscribe(old(rooms[room].W()), p, k)
                       else (old(rooms[room].W()), Some(TrackNotFound));
              err == r.1 && S() == if k in old(rooms[room].tracks) then WithRoom(old(S()), room, r.0) else old(S())
    {
      SubscriptionKnown(rooms[room].W(), p, k);
      err := UnsubscribeIn(rooms[room], p, k);
      OneRoom(room);
      if k !in rooms[room].tracks { assert S().rooms == old(S()).rooms; }
    }

    method UnsubscribeIn(r: Room, p: PRef, k: string) returns (err: Option<Error>)
      requires Linked(r.W()) && Agrees(r.W()) && p in r.people && (k in r.people[p].sub ==> r.people[p].sub[k] in r.media)
      modifies r
      ensures (r.W(), err) == if k in old(r.tracks) then Unsubscribe(old(r.W()), p, k)
                              else (old(r.W()), Some(TrackNotFound))
    {
      NoHiddenPublications(r.W(), k);
      err := r.UnsubscribeFromTrack(p, k);
    }

    method CloseRoom(room: string) returns (st: Status)
      requires Valid()
      modifies this, rooms.Values
      ensures Valid() && (S(), st) == Step(old(S()), ClientRuns.CloseRoom(room))
      ensures Answered(SeenAll(old(S())), ClientRuns.CloseRoom(room), SeenAll(S()), st)
    {
      StepInv(S(), ClientRuns.CloseRoom(room));
      StepAnswered(S(), ClientRuns.CloseRoom(room));
      if room == "" {
        return InvalidArgument;
      }
      if room !in rooms {
        return if room in closedRooms then Ok else RoomNotFound;
      }
      assert S().rooms[room] == rooms[room].W();
      CloseNamed(room);
      return Ok;
    }

    /** The room object is torn down, whatever the caller still does with it, and its name forgotten. */
    method CloseNamed(room: string)
      requires Separate() && room in rooms && Linked(rooms[room].W()) && rooms[room].state != RoomClosed
      modifies this`rooms, this`closedRooms, rooms[room]
      ensures Separate() && S() == old(S()).(rooms := old(S()).rooms - {room}, closedRooms := old(closedRooms) + {room})
      ensures old(rooms[room]).W() == CloseWorld(old(rooms[room].W()))
    {
      Forgotten(S().rooms, room);
      TearDown(room);
      ForgetRoom(room);
    }

    method TearDown(room: string)
      requires Separate() && room in rooms && Linked(rooms[room].W()) && rooms[room].state != RoomClosed
      modifies this`closedRooms, rooms[room]
      ensures rooms[room].W() == CloseWorld(old(rooms[room].W()))
      ensures S() == old(S()).(rooms := old(S()).rooms[room := rooms[room].W()], closedRooms := old(closedRooms) - {room})
    {
      closedRooms := closedRooms - {room};
      rooms[room].Close();
      OneRoom(room);
    }

    method ForgetRoom(room: string)
      requires Separate()
      modifies this`rooms, this`closedRooms
      ensures Separate() && S() == old(S()).(rooms := old(S()).rooms - {room}, closedRooms := old(closedRooms) + {room})
    {
      rooms, closedRooms := rooms - {room}, closedRooms + {room};
      assert S().rooms == old(S()).rooms - {room};
    }
  }

  lemma Forgotten(m: map<string, World>, room: string)
    ensures forall w {:trigger m[room := w]} :: m[room := w] - {room} == m - {room}
  {
  }

  /** Publishing a fresh track touches its publisher's list and the track. */
  lemma PublishSucceeds(w: World, p: PRef, t: TRef)
    requires p in w.people && t !in w.media && w.people[p].state != Left && t.id !in w.people[p].pub
    ensures Publish(w.(media := w.media[t := Media(Created, None, map[])]), p, t).0 ==
            w.(media := w.media[t := Media(Published, Some(p), map[])],
               people := w.people[p := w.people[p].(pub := w.people[p].pub[t.id := t])])
  {
  }

  /** Publishing a fresh track and unpublishing it leaves everything but that track as it was. */
  lemma {:induction false} PublishRollsBack(w: World, p: PRef, t: TRef)
    requires p in w.people && t !in w.media && w.people[p].state != Left && t.id !in w.people[p].pub
    requires Keyed(w.people[p].pub, w.media.Keys)
    ensures var v := Publish(w.(media := w.media[t := Media(Created, None, map[])]), p, t).0;
            && Keyed(v.people[p].pub, v.media.Keys)
            && Unpublish(v, p, t.id) == (w.(media := w.media[t := Media(Unpublished, Some(p), map[])]), None)
  {
    var v := Publish(w.(media := w.media[t := Media(Created, None, map[])]), p, t).0;
    assert v.people[p].pub - {t.id} == w.people[p].pub;
    assert v.people[p := w.people[p]] == w.people;
    assert v.media[t := v.media[t].(state := Unpublished)] == w.media[t := Media(Unpublished, Some(p), map[])];
  }
}
