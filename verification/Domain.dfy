/**
 Rooms, participants and tracks as one explicit world. References carry the object's number and its immutable ID,
 so two objects may share an ID and aliasing is visible: `people` and `media` hold the fields of every object ever
 created, `participants` and `tracks` are the room's two maps.
 */
module Domain {
  import opened Prelude

  datatype PRef = PRef(obj: nat, id: string)
  datatype TRef = TRef(obj: nat, id: string)

  datatype ParticipantState = Joined | Active | Left
  datatype TrackState = Created | Published | Unpublished
  datatype RoomState = RoomCreated | RoomActive | RoomClosed

  datatype Error = RoomClosedError | ParticipantAlreadyExists | ParticipantNotFound | ParticipantLeft
                 | TrackAlreadyPublished | TrackAlreadySubscribed | TrackNotFound | TrackNotPublished

  datatype Person = Person(state: ParticipantState, inRoom: bool, pub: map<string, TRef>, sub: map<string, TRef>)
  datatype Media = Media(state: TrackState, publisher: Option<PRef>, subscribers: map<string, PRef>)

  datatype World = World(
    state: RoomState,
    participants: map<string, PRef>,
    tracks: map<string, TRef>,
    people: map<PRef, Person>,
    media: map<TRef, Media>)

  /** A map of references under their own IDs, all of them known objects. */
  predicate Keyed(m: map<string, TRef>, known: set<TRef>) {
    forall k :: k in m ==> m[k] in known && m[k].id == k
  }

  /** Track t lists subscriber k, who is the room's participant k and lists t. */
  predicate WatchedBy(w: World, t: TRef, k: string)
    requires t in w.media && k in w.media[t].subscribers
  {
    && k in w.participants && w.participants[k] == w.media[t].subscribers[k]
    && w.participants[k].id == k && w.participants[k] in w.people
    && t.id in w.people[w.participants[k]].sub && w.people[w.participants[k]].sub[t.id] == t
  }

  /** Participant p lists track k, which is a known track with that ID that lists p. */
  predicate Watching(w: World, p: PRef, k: string)
    requires p in w.people && k in w.people[p].sub
  {
    var t := w.people[p].sub[k];
    t in w.media && t.id == k && p.id in w.media[t].subscribers && w.media[t].subscribers[p.id] == p
  }

  /**
   The two-sided subscription invariant, with the facts it rests on: subscribers are current participants,
   every map is keyed by its objects' own IDs, and a participant that left holds nothing.
   */
  ghost predicate Linked(w: World) {
    && (forall k :: k in w.participants ==> w.participants[k] in w.people && w.participants[k].id == k)
    && Keyed(w.tracks, w.media.Keys)
    && (forall p :: p in w.people ==> Keyed(w.people[p].pub, w.media.Keys))
    && (forall t, k :: t in w.media && k in w.media[t].subscribers ==> WatchedBy(w, t, k))
    && (forall p, k :: p in w.people && k in w.people[p].sub ==> Watching(w, p, k))
    && (forall p :: p in w.people && w.people[p].state == Left ==> w.people[p].sub == map[] && w.people[p].pub == map[])
  }

  /** What Linked says about one participant and one track. */
  lemma {:induction false} TwoSided(w: World, p: PRef, t: TRef)
    requires Linked(w) && p in w.people && t in w.media
    ensures (t.id in w.people[p].sub && w.people[p].sub[t.id] == t)
            <==> (p.id in w.media[t].subscribers && w.media[t].subscribers[p.id] == p)
  {
    if t.id in w.people[p].sub && w.people[p].sub[t.id] == t { assert Watching(w, p, t.id); }
    if p.id in w.media[t].subscribers && w.media[t].subscribers[p.id] == p { assert WatchedBy(w, t, p.id); }
  }

  // ---------------------------------------------------------------- participant operations

  /** One participant and one track change. */
  function With(w: World, p: PRef, person: Person, t: TRef, track: Media): (v: World)
    requires p in w.people && t in w.media
    ensures v.people.Keys == w.people.Keys && v.media.Keys == w.media.Keys
  {
    assert w.people[p := person].Keys == w.people.Keys && w.media[t := track].Keys == w.media.Keys;
    w.(people := w.people[p := person], media := w.media[t := track])
  }

  /** Participant.PublishTrack. */
  function Publish(w: World, p: PRef, t: TRef): (r: (World, Option<Error>))
    requires p in w.people && t in w.media
  {
    if w.people[p].state == Left then (w, Some(ParticipantLeft))
    else if t.id in w.people[p].pub then (w, Some(TrackAlreadyPublished))
    else
      (With(w, p, w.people[p].(pub := w.people[p].pub[t.id := t]),
            t, w.media[t].(state := Published, publisher := Some(p))), None)
  }

  /** Participant.UnpublishTrack: the publisher reference stays. */
  function Unpublish(w: World, p: PRef, k: string): (r: (World, Option<Error>))
    requires p in w.people && Keyed(w.people[p].pub, w.media.Keys)
  {
    if w.people[p].state == Left then (w, Some(ParticipantLeft))
    else if k !in w.people[p].pub then (w, Some(TrackNotFound))
    else
      var t := w.people[p].pub[k];
      (With(w, p, w.people[p].(pub := w.people[p].pub - {k}), t, w.media[t].(state := Unpublished)), None)
  }

  /** Participant.SubscribeTrack, with the roll back when the track does not accept. */
  function Subscribe(w: World, p: PRef, t: TRef): (r: (World, Option<Error>))
    requires p in w.people && t in w.media
  {
    var person, track := w.people[p], w.media[t];
    if person.state == Left then (w, Some(ParticipantLeft))
    else if t.id in person.sub then (w, Some(TrackAlreadySubscribed))
    else if track.state != Published then (w, Some(TrackNotPublished))
    else
      var watchers := if p.id in track.subscribers then track.subscribers else track.subscribers[p.id := p];
      (With(w, p, person.(sub := person.sub[t.id := t]), t, track.(subscribers := watchers)), None)
  }

  /** Participant.UnsubscribeTrack. */
  function Unsubscribe(w: World, p: PRef, k: string): (r: (World, Option<Error>))
    requires p in w.people && forall t :: k in w.people[p].sub && t == w.people[p].sub[k] ==> t in w.media
  {
    var person := w.people[p];
    if person.state == Left then (w, Some(ParticipantLeft))
    else if k !in person.sub then (w, Some(TrackNotFound))
    else
      var t := person.sub[k];
      (With(w, p, person.(sub := person.sub - {k}),
            t, w.media[t].(subscribers := w.media[t].subscribers - {p.id})), None)
  }

  // ---------------------------------------------------------------- teardown, in closed form

  /** The entries of a subscription map that do not point into `gone`. */
  function Without(m: map<string, TRef>, gone: set<TRef>): map<string, TRef> {
    map k | k in m && m[k] !in gone :: m[k]
  }

  function OnlyKey(m: map<string, PRef>, id: string): map<string, PRef> {
    map k | k in m && k == id :: m[k]
  }

  /** The subscribers with an ID in `ids` and track t let go of each other. */
  function Detach(w: World, t: TRef, ids: set<string>): World
    requires t in w.media
  {
    w.(people := DetachPeople(w.people, t, ids),
       media := w.media[t := w.media[t].(subscribers := w.media[t].subscribers - ids)])
  }

  function DetachPeople(people: map<PRef, Person>, t: TRef, ids: set<string>): map<PRef, Person> {
    map p | p in people ::
      (if p.id in ids then people[p].(sub := Without(people[p].sub, {t})) else people[p])
  }

  function DestroyPeople(people: map<PRef, Person>, gone: set<TRef>, exclude: string): map<PRef, Person> {
    map p | p in people ::
      (if p.id == exclude then people[p] else people[p].(sub := Without(people[p].sub, gone)))
  }

  /** destroyTrackLocked for every track in `gone`: only the excluded participant may stay on their lists. */
  function DestroyAll(w: World, gone: set<TRef>, exclude: string): World {
    w.(tracks := map k | k in w.tracks && (forall t :: t in gone ==> t.id != k) :: w.tracks[k],
       people := DestroyPeople(w.people, gone, exclude),
       media := map t | t in w.media ::
                  (if t in gone then Media(Unpublished, None, OnlyKey(w.media[t].subscribers, exclude))
                   else w.media[t]))
  }

  function Values(m: map<string, TRef>): set<TRef> { set k | k in m :: m[k] }

  /** The registry entries Room.Leave purges: unpublished and without a publisher. */
  function Orphans(w: World): set<TRef>
    requires Keyed(w.tracks, w.media.Keys)
  {
    set k | k in w.tracks && w.media[w.tracks[k]].state == Unpublished && w.media[w.tracks[k]].publisher == None
      :: w.tracks[k]
  }

  /** Participant p drops every subscription; the tracks forget p. */
  function DropSubscriptions(w: World, p: PRef): World
    requires p in w.people
  {
    w.(people := w.people[p := w.people[p].(sub := map[])],
       media := map t | t in w.media ::
                  (if t in Values(w.people[p].sub)
                   then w.media[t].(subscribers := w.media[t].subscribers - {p.id}) else w.media[t]))
  }

  /** The registry entries dropped with the leaver's subscriptions: unwatched and without a publisher. */
  predicate Abandoned(w: World, k: string)
    requires Keyed(w.tracks, w.media.Keys)
  {
    k in w.tracks && w.media[w.tracks[k]].publisher == None && w.media[w.tracks[k]].subscribers == map[]
  }

  /** The part of Room.Leave that runs when the room is open and the participant is there. */
  function LeaveWorld(w: World, id: string): World
    requires Linked(w) && id in w.participants
  {
    var p := w.participants[id];
    DestroyAllKeyed(w, Values(w.people[p].pub), id);
    var w1 := DestroyAll(w, Values(w.people[p].pub), id);
    DestroyAllKeyed(w1, Orphans(w1), id);
    var w2 := DestroyAll(w1, Orphans(w1), id);
    DropKeyed(w2, p);
    var w3 := DropSubscriptions(w2, p);
    w3.(tracks := map k | k in w3.tracks && !(k in w2.people[p].sub && Abandoned(w3, k)) :: w3.tracks[k],
        participants := w.participants - {id})
  }

  lemma DestroyAllKeyed(w: World, gone: set<TRef>, exclude: string)
    requires Keyed(w.tracks, w.media.Keys)
    ensures Keyed(DestroyAll(w, gone, exclude).tracks, DestroyAll(w, gone, exclude).media.Keys)
    ensures DestroyAll(w, gone, exclude).people.Keys == w.people.Keys
  {
  }

  lemma DropKeyed(w: World, p: PRef)
    requires Keyed(w.tracks, w.media.Keys) && p in w.people
    ensures Keyed(DropSubscriptions(w, p).tracks, DropSubscriptions(w, p).media.Keys)
  {
  }

  /** Participant.Leave. */
  function ParticipantLeave(w: World, p: PRef): World
    requires p in w.people
  {
    var person := w.people[p];
    w.(people := w.people[p := Person(Left, false, map[], map[])],
       media := map t | t in w.media ::
                  (var m := w.media[t];
                   if t in Values(person.pub) then Media(Unpublished, None, m.subscribers - {p.id})
                   else if t in Values(person.sub) then m.(subscribers := m.subscribers - {p.id})
                   else m))
  }

  /** Participant.Leave for every participant in `gone`. */
  function LeaveAll(w: World, gone: set<PRef>): World
    requires forall p :: p in gone ==> p in w.people
  {
    w.(people := map p | p in w.people :: (if p in gone then Person(Left, false, map[], map[]) else w.people[p]),
       media := map t | t in w.media ::
                  (var m := w.media[t];
                   var ids := set p | p in gone && (t in Values(w.people[p].pub) || t in Values(w.people[p].sub)) :: p.id;
                   if exists p :: p in gone && t in Values(w.people[p].pub)
                   then Media(Unpublished, None, m.subscribers - ids) else m.(subscribers := m.subscribers - ids)))
  }
}
