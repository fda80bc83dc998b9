/**
 The registry part of the signaling handler as it runs: the trackForwarders map created, swapped and deleted in
 place, with the scan loop of adoptOrphanForwarder. Each event is proved to be its steps of the Registry machine.
 */
module HandlerOps {
  import opened Prelude
  import opened Registry
  import opened RegistryTheorems

  class Handler {
    var trackForwarders: map<Id, Forwarder>
    var room: map<Id, Slot>   // the room's registered tracks, with their publisher and kind

    constructor ()
      ensures trackForwarders == map[] && room == map[]
    {
      trackForwarders, room := map[], map[];
    }

    /** The object holds what the machine's state says. */
    ghost predicate Matches(c: Config, st: State)
      reads this
    {
      && trackForwarders == st.forwarders
      && (forall id :: id in room <==> InRoom(c, st, id))
      && (forall id :: id in room ==> room[id] in c.slots && c.sig(room[id]) == id && !PublishingOf(st, room[id]).Unpublished?)
    }

    /** Look up, then create, swap or keep. */
    method GetOrCreateForwarder(id: Id, publisher: Forwarder)
      modifies this`trackForwarders
      ensures trackForwarders == GetOrCreate(old(trackForwarders), id, publisher)
      ensures trackForwarders == if id in old(trackForwarders) && (old(trackForwarders)[id].remote || !publisher.remote)
                                 then old(trackForwarders) else old(trackForwarders)[id := publisher]
    {
      if id in trackForwarders {
        if publisher.remote && !trackForwarders[id].remote {
          trackForwarders := trackForwarders[id := publisher];
        }
        return;
      }
      trackForwarders := trackForwarders[id := publisher];
    }

    method RemoveForwarder(id: Id)
      modifies this`trackForwarders
      ensures trackForwarders == old(trackForwarders) - {id}
    {
      trackForwarders := trackForwarders - {id};
    }

    /** The scan for an orphan, in any order of the map. */
    method FindOrphan(s: Slot, sigId: Id) returns (orphan: Option<Id>)
      ensures orphan.Some? ==> orphan.value in trackForwarders && orphan.value != sigId && orphan.value !in room &&
                               trackForwarders[orphan.value] == Forwarder(s, true)
      ensures orphan.None? ==> forall id :: id in trackForwarders && id != sigId && id !in room ==>
                                              trackForwarders[id] != Forwarder(s, true)
    {
      var todo := trackForwarders.Keys;
      while todo != {}
        invariant todo <= trackForwarders.Keys
        invariant forall id :: id in trackForwarders && id !in todo && id != sigId && id !in room ==>
                                 trackForwarders[id] != Forwarder(s, true)
        decreases |todo|
      {
        var id :| id in todo;
        todo := todo - {id};
        if id == sigId {
          continue;
        }
        if !trackForwarders[id].remote {
          continue;
        }
        if trackForwarders[id].owner.kind != s.kind {
          continue;
        }
        if trackForwarders[id].owner.participant != s.participant {
          continue;
        }
        if id in room {
          continue;
        }
        return Some(id);
      }
      return None;
    }

    method AdoptOrphanForwarder(s: Slot, sigId: Id) returns (adopted: bool, ghost orphan: Option<Id>)
      modifies this`trackForwarders
      ensures adopted == orphan.Some?
      ensures orphan.Some? ==> orphan.value in old(trackForwarders) && orphan.value != sigId && orphan.value !in room &&
                               old(trackForwarders)[orphan.value] == Forwarder(s, true) &&
                               trackForwarders == GetOrCreate(old(trackForwarders) - {orphan.value}, sigId, Forwarder(s, true))
      ensures orphan.None? ==> trackForwarders == old(trackForwarders) &&
                               forall id :: id in trackForwarders && id != sigId && id !in room ==>
                                              trackForwarders[id] != Forwarder(s, true)
    {
      var found := FindOrphan(s, sigId);
      orphan := found;
      if found.None? {
        return false, found;
      }
      RemoveForwarder(found.value);
      GetOrCreateForwarder(sigId, Forwarder(s, true));
      return true, found;
    }

    method HandlePublishTrack(s: Slot, sigId: Id, ghost c: Config, ghost st: State)
      requires Inv(c, st) && Distinct(c) && s in c.slots && sigId == c.sig(s)
      requires PublishingOf(st, s).Unpublished? && !ArrivingOf(st, s).Named? && Matches(c, st)
      modifies this
      ensures Matches(c, Run(c, st, Steps(c, PublishTrack(s))))
      ensures room == old(room)[sigId := s]
      ensures trackForwarders == AfterPublish(old(trackForwarders), s, sigId, c.wire(s))
    {
      PublishForwarders(c, st, s);
      PublishRooms(c, st, s);
      OrphansFound(c, st, s);
      room := room[sigId := s];
      if sigId !in trackForwarders {
        var adopted, orphan := AdoptOrphanForwarder(s, sigId);
        if !adopted {
          GetOrCreateForwarder(sigId, Forwarder(s, false));
        }
      }
    }

    /** The ID the arriving track is wrapped under: its own if registered, else the published track of its kind. */
    method ChoosePublishedId(s: Slot, wireId: Id) returns (id: Id)
      ensures wireId in room ==> id == wireId
      ensures wireId !in room && id != wireId ==> id in room && room[id] == s
      ensures wireId !in room && id == wireId ==> forall k :: k in room ==> room[k] != s
    {
      if wireId in room {
        return wireId;
      }
      var todo := room.Keys;
      while todo != {}
        invariant todo <= room.Keys
        invariant forall k :: k in room && k !in todo ==> room[k] != s
        decreases |todo|
      {
        var k :| k in todo;
        todo := todo - {k};
        if room[k].participant == s.participant && room[k].kind == s.kind {
          return k;
        }
      }
      return wireId;
    }

    method HandleTrack(s: Slot, wireId: Id, ghost c: Config, ghost st: State)
      requires Inv(c, st) && Distinct(c) && s in c.slots && wireId == c.wire(s)
      requires ArrivingOf(st, s).Absent? && Matches(c, st)
      modifies this`trackForwarders
      ensures Matches(c, Run(c, st, Steps(c, OnTrack(s))))
      ensures var id := ChooseId(c, st, s);
              trackForwarders == if id in old(trackForwarders) && old(trackForwarders)[id].remote then old(trackForwarders)
                                 else old(trackForwarders)[id := Forwarder(s, true)]
    {
      ArriveForwarders(c, st, s);
      ArriveRooms(c, st, s);
      if !PublishingOf(st, s).Unpublished? { assert InRoom(c, st, c.sig(s)); }
      var id := ChoosePublishedId(s, wireId);
      assert id == ChooseId(c, st, s);
      GetOrCreateForwarder(id, Forwarder(s, true));
    }
  }

  // ---------------------------------------------------------------- whole events on the registry

  /** What a whole publish_track event does to the registry. */
  function AfterPublish(fs: map<Id, Forwarder>, s: Slot, g: Id, w: Id): map<Id, Forwarder> {
    if g in fs then fs
    else if w != g && w in fs then GetOrCreate(fs - {w}, g, Forwarder(s, true))
    else GetOrCreate(fs, g, Forwarder(s, false))
  }

  lemma {:induction false} PublishForwarders(c: Config, st: State, s: Slot)
    requires Inv(c, st) && Distinct(c) && s in c.slots
    requires PublishingOf(st, s).Unpublished? && !ArrivingOf(st, s).Named?
    ensures Run(c, st, Steps(c, PublishTrack(s))).forwarders == AfterPublish(st.forwarders, s, c.sig(s), c.wire(s))
  {
    var a := Publish(s, c.wire(s));
    var s1 := Next(c, st, a);
    PublishQuiet(c, st, s);
    var s2 := Next(c, s1, a);
    PublishQuiet(c, s1, s);
    assert s2.forwarders == st.forwarders;
    RunRepeat(c, st, a, 5);
    RunRepeat(c, s1, a, 4);
    ScanOnwards(c, s2, s);
  }

  lemma {:induction false} ScanOnwards(c: Config, st: State, s: Slot)
    requires Inv(c, st) && Distinct(c) && s in c.slots && !ArrivingOf(st, s).Named?
    requires PublishingOf(st, s) == if c.sig(s) in st.forwarders then Published else Scanning
    ensures Run(c, st, Repeat(Publish(s, c.wire(s)), 3)).forwarders == AfterPublish(st.forwarders, s, c.sig(s), c.wire(s))
  {
    var a := Publish(s, c.wire(s));
    var s1 := Next(c, st, a);
    RunRepeat(c, st, a, 3);
    ScanResult(c, st, s);
    ScannedOnwards(c, s1, s);
  }

  /** Where the scan leads, for each way the registry may look. */
  lemma {:induction false} ScanResult(c: Config, st: State, s: Slot)
    requires Inv(c, st) && Distinct(c) && s in c.slots && !ArrivingOf(st, s).Named?
    requires PublishingOf(st, s) == if c.sig(s) in st.forwarders then Published else Scanning
    ensures var v := Next(c, st, Publish(s, c.wire(s)));
            && v.forwarders == st.forwarders
            && PublishingOf(v, s) == if c.sig(s) in st.forwarders then Published
                                     else if c.wire(s) != c.sig(s) && c.wire(s) in st.forwarders then Removing(c.wire(s))
                                     else Placing
  {
    if PublishingOf(st, s).Scanning? { ScanEffect(c, st, s, c.wire(s)); }
  }

  lemma {:induction false} ScannedOnwards(c: Config, st: State, s: Slot)
    requires s in c.slots
    requires PublishingOf(st, s) == if c.sig(s) in st.forwarders then Published
                                    else if c.wire(s) != c.sig(s) && c.wire(s) in st.forwarders then Removing(c.wire(s))
                                    else Placing
    ensures Run(c, st, Repeat(Publish(s, c.wire(s)), 2)).forwarders == AfterPublish(st.forwarders, s, c.sig(s), c.wire(s))
  {
    var a := Publish(s, c.wire(s));
    RunRepeat(c, st, a, 2);
    RunRepeat(c, Next(c, st, a), a, 1);
  }

  lemma {:induction false} PublishRooms(c: Config, st: State, s: Slot)
    requires Inv(c, st) && Distinct(c) && s in c.slots
    requires PublishingOf(st, s).Unpublished? && !ArrivingOf(st, s).Named?
    ensures var v := Run(c, st, Steps(c, PublishTrack(s)));
            && (forall t :: t != s ==> PublishingOf(v, t) == PublishingOf(st, t))
            && PublishingOf(v, s).Published?
            && (forall id :: InRoom(c, v, id) <==> InRoom(c, st, id) || id == c.sig(s))
  {
    var v := Run(c, st, Steps(c, PublishTrack(s)));
    PublishMany(c, st, s, 5);
    PublishEnds(s, c.sig(s), c.wire(s), See(c, st, s));
    assert See(c, v, s).p == PublishingOf(v, s);
  }

  /** An orphan the scan may stop at is the wire-ID forwarder, and if that stands the scan does not miss it. */
  lemma {:induction false} OrphansFound(c: Config, st: State, s: Slot)
    requires Inv(c, st) && Distinct(c) && s in c.slots
    ensures forall id :: id in st.forwarders && id != c.sig(s) && !InRoom(c, st, id) && st.forwarders[id] == Forwarder(s, true) ==>
              id == c.wire(s)
    ensures c.wire(s) != c.sig(s) && c.wire(s) in st.forwarders ==>
              !InRoom(c, st, c.wire(s)) && st.forwarders[c.wire(s)] == Forwarder(s, true)
  {
    forall id | id in st.forwarders && IsOrphan(c, st, s, id)
      ensures id == c.wire(s)
    {
      OrphanIsWire(c, st, s, id);
    }
    OrphanIsWire(c, st, s, c.wire(s));
  }

  lemma {:induction false} ArriveForwarders(c: Config, st: State, s: Slot)
    requires Inv(c, st) && Distinct(c) && s in c.slots && ArrivingOf(st, s).Absent?
    ensures Run(c, st, Steps(c, OnTrack(s))).forwarders
            == GetOrCreate(st.forwarders, ChooseId(c, st, s), Forwarder(s, true))
  {
    var a := Arrive(s);
    var s1 := Next(c, st, a);
    var s2 := Next(c, s1, a);
    RunRepeat(c, st, a, 3);
    RunRepeat(c, s1, a, 2);
    RunRepeat(c, s2, a, 1);
  }

  lemma {:induction false} ArriveRooms(c: Config, st: State, s: Slot)
    requires Inv(c, st) && Distinct(c) && s in c.slots && ArrivingOf(st, s).Absent?
    ensures var v := Run(c, st, Steps(c, OnTrack(s)));
            && (forall t :: PublishingOf(v, t) == PublishingOf(st, t))
            && (forall id :: InRoom(c, v, id) <==> InRoom(c, st, id))
  {
    var v := Run(c, st, Steps(c, OnTrack(s)));
    ArriveMany(c, st, s, 3);
    ArriveEnds(s, c.sig(s), c.wire(s), See(c, st, s));
    assert See(c, v, s).p == PublishingOf(v, s) && See(c, st, s).p == PublishingOf(st, s);
  }
}
