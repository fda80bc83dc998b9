/**
 What a user of the SDK client sees, without objects: who is in a room and follows which tracks, and who publishes
 which. Every call of the client, with its teardown loops, roll backs and two-sided maps, does exactly this.
 */
module ClientReference {
  import opened Prelude
  import opened Domain
  import opened DomainInvariant
  import opened DomainRuns
  import opened ClientRuns

  /** Per participant the tracks it is subscribed to; per track its publisher. */
  datatype View = View(members: map<string, set<string>>, publishers: map<string, string>)

  datatype Book = Book(rooms: map<string, View>, closed: set<string>)

  const EmptyBook := Book(map[], {})

  // ---------------------------------------------------------------- the calls

  function Entered(v: View, id: string): View { if id in v.members then v else v.(members := v.members[id := {}]) }

  /** The participant goes with everything it publishes. */
  function Departed(v: View, id: string): View {
    var gone := set k | k in v.publishers && v.publishers[k] == id;
    View(map m | m in v.members && m != id :: v.members[m] - gone, v.publishers - gone)
  }

  function Answer(b: Book, call: Call): (r: (Book, Status)) {
    match call
    case JoinRoom(room, id) =>
      if room == "" || id == "" then (b, InvalidArgument)
      else
        var v := if room in b.rooms then b.rooms[room] else View(map[], map[]);
        (Book(b.rooms[room := Entered(v, id)], b.closed - {room}), Ok)
    case CloseRoom(room) =>
      if room == "" then (b, InvalidArgument)
      else if room in b.rooms then (Book(b.rooms - {room}, b.closed + {room}), Ok)
      else (b, if room in b.closed then Ok else RoomNotFound)
    case _ =>
      if call.room !in b.rooms then (b, RoomNotFound)
      else if call.id !in b.rooms[call.room].members then (b, Refused(ParticipantNotFound))
      else
        var r := Within(b.rooms[call.room], call);
        (b.(rooms := b.rooms[call.room := r.0]), r.1)
  }

  /** A call by a participant that is there. */
  function Within(v: View, call: Call): (r: (View, Status))
    requires !call.JoinRoom? && !call.CloseRoom? && call.id in v.members
  {
    match call
    case LeaveRoom(_, id) => (Departed(v, id), Ok)
    case PublishTrack(_, id, k, valid) =>
      if !valid then (v, InvalidTrack)
      else if k in v.publishers then (v, Refused(TrackAlreadyPublished))
      else (v.(publishers := v.publishers[k := id]), Ok)
    case SubscribeTrack(_, id, k) =>
      if k !in v.publishers then (v, Refused(TrackNotFound))
      else if k in v.members[id] then (v, Refused(TrackAlreadySubscribed))
      else (v.(members := v.members[id := v.members[id] + {k}]), Ok)
    case UnsubscribeTrack(_, id, k) =>
      if k !in v.publishers || k !in v.members[id] then (v, Refused(TrackNotFound))
      else (v.(members := v.members[id := v.members[id] - {k}]), Ok)
  }

  // ---------------------------------------------------------------- what the client's state looks like

  function Follows(w: World, id: string): set<string> {
    if id in w.participants && w.participants[id] in w.people then w.people[w.participants[id]].sub.Keys else {}
  }

  function OwnerId(w: World, k: string): string {
    if k in w.tracks && w.tracks[k] in w.media && w.media[w.tracks[k]].publisher.Some?
    then w.media[w.tracks[k]].publisher.value.id else ""
  }

  function Seen(w: World): View {
    View(map id | id in w.participants :: Follows(w, id), map k | k in w.tracks :: OwnerId(w, k))
  }

  function SeenAll(c: State): Book { Book(map r | r in c.rooms :: Seen(c.rooms[r]), c.closedRooms) }

  // ---------------------------------------------------------------- one room

  /** The participant map is keyed by the participants' own IDs. */
  predicate Named(w: World) {
    forall m :: m in w.participants ==> w.participants[m] in w.people && w.participants[m].id == m
  }

  lemma SeenEquals(w: World, v: View)
    requires v.members.Keys == w.participants.Keys && forall m :: m in v.members ==> v.members[m] == Follows(w, m)
    requires v.publishers.Keys == w.tracks.Keys && forall k :: k in v.publishers ==> v.publishers[k] == OwnerId(w, k)
    ensures Seen(w) == v
  {
  }

  lemma {:induction false} SeenJoin(w: World, id: string, next: nat)
    requires Named(w) && Below(w, next)
    ensures Seen(JoinWorld(w, id, next)) == Entered(Seen(w), id)
  {
    if id !in w.participants {
      assert PRef(next, id) !in w.people;
      SeenEquals(JoinWorld(w, id, next), Entered(Seen(w), id));
    }
  }

  /** A participant publishes exactly the tracks it owns in the registry. */
  lemma {:induction false} OwnsItsTracks(w: World, id: string, k: string)
    requires Linked(w) && Agrees(w) && id in w.participants && k in w.tracks
    ensures OwnerId(w, k) == id <==> k in w.people[w.participants[id]].pub
  {
    assert OwnedEntry(w, k);
    if k in w.people[w.participants[id]].pub { assert Registered(w, w.participants[id], k); }
  }

  /** What the leaver publishes, seen from outside. */
  lemma {:induction false} GoneTracks(w: World, id: string)
    requires Linked(w) && Agrees(w) && id in w.participants
    ensures var pub := w.people[w.participants[id]].pub;
            pub.Keys == set k | k in Seen(w).publishers && Seen(w).publishers[k] == id
  {
    var p := w.participants[id];
    forall k | k in w.tracks
      ensures OwnerId(w, k) == id <==> k in w.people[p].pub
    {
      OwnsItsTracks(w, id, k);
    }
    forall k | k in w.people[p].pub
      ensures k in w.tracks
    {
      assert Registered(w, p, k);
    }
  }

  lemma {:induction false} FollowsAfterLeave(w: World, id: string, m: string)
    requires Linked(w) && Agrees(w) && Followed(w) && id in w.participants && m in w.participants && m != id
    ensures Follows(LeaveWorld(w, id), m) == Follows(w, m) - w.people[w.participants[id]].pub.Keys
  {
    LeftBehind(w, id, m);
    FollowsWithout(w, w.participants[id], w.participants[m]);
  }

  /** Another member after the departure. */
  lemma {:induction false} LeftBehind(w: World, id: string, m: string)
    requires Linked(w) && Agrees(w) && id in w.participants && m in w.participants && m != id
    ensures var v, q := LeaveWorld(w, id), w.participants[m];
            Follows(v, m) == Without(w.people[q].sub, Values(w.people[w.participants[id]].pub)).Keys
  {
    var q := w.participants[m];
    LeavePeople(w, id, q);
    NoOrphans(w, id);
    FollowsOf(LeaveWorld(w, id), m, q);
  }

  lemma FollowsOf(w: World, m: string, q: PRef)
    requires m in w.participants && w.participants[m] == q && q in w.people
    ensures Follows(w, m) == w.people[q].sub.Keys
  {
  }

  lemma {:induction false} FollowsWithout(w: World, p: PRef, q: PRef)
    requires Linked(w) && Agrees(w) && Followed(w) && p in w.people && Member(w, p) && q in w.people
    ensures Without(w.people[q].sub, Values(w.people[p].pub)).Keys == w.people[q].sub.Keys - w.people[p].pub.Keys
  {
    forall k | k in w.people[q].sub
      ensures w.people[q].sub[k] in Values(w.people[p].pub) <==> k in w.people[p].pub
    {
      assert Following(w, q, k);
      SameTrack(w, p, k);
    }
  }

  /** The registry entry k is among p's publications exactly under its own name. */
  lemma {:induction false} SameTrack(w: World, p: PRef, k: string)
    requires Linked(w) && Agrees(w) && p in w.people && Member(w, p) && k in w.tracks
    ensures w.tracks[k] in Values(w.people[p].pub) <==> k in w.people[p].pub
  {
    if k in w.people[p].pub {
      assert Registered(w, p, k);
    } else {
      KeyedValues(w.people[p].pub, w.media.Keys, k);
    }
  }

  lemma {:induction false} OwnerAfterLeave(w: World, id: string, k: string)
    requires Linked(w) && Agrees(w) && id in w.participants && k in w.tracks && k !in w.people[w.participants[id]].pub
    ensures OwnerId(LeaveWorld(w, id), k) == OwnerId(w, k)
  {
    LeaveTracks(w, id);
    OwnerKnown(w, k);
    LeaveKeepsTrack(w, id, w.tracks[k]);
    OwnerKept(w, LeaveWorld(w, id), k);
  }

  lemma {:induction false} OwnerKnown(w: World, k: string)
    requires Linked(w) && Agrees(w) && k in w.tracks
    ensures w.tracks[k] in w.media && w.tracks[k].id == k && w.media[w.tracks[k]].state == Published
  {
    assert OwnedEntry(w, k);
  }

  lemma OwnerKept(w: World, v: World, k: string)
    requires k in w.tracks && k in v.tracks && v.tracks[k] == w.tracks[k]
    requires w.tracks[k] in w.media && w.tracks[k] in v.media && v.media[w.tracks[k]].publisher == w.media[w.tracks[k]].publisher
    ensures OwnerId(v, k) == OwnerId(w, k)
  {
  }

  lemma {:induction false} SeenLeave(w: World, id: string)
    requires Linked(w) && Agrees(w) && Followed(w) && id in w.participants
    ensures Seen(LeaveWorld(w, id)) == Departed(Seen(w), id)
  {
    var v, pub := LeaveWorld(w, id), w.people[w.participants[id]].pub;
    GoneTracks(w, id);
    LeaveTracks(w, id);
    forall m | m in w.participants && m != id
      ensures Follows(v, m) == Follows(w, m) - pub.Keys
    {
      FollowsAfterLeave(w, id, m);
    }
    forall k | k in w.tracks && k !in pub
      ensures OwnerId(v, k) == OwnerId(w, k)
    {
      OwnerAfterLeave(w, id, k);
    }
    DepartedView(w, v, id, pub.Keys);
  }

  /** From what each member follows and who owns each track to the whole view. */
  lemma DepartedView(w: World, v: World, id: string, gone: set<string>)
    requires gone == set k | k in Seen(w).publishers && Seen(w).publishers[k] == id
    requires v.participants == w.participants - {id} && v.tracks == w.tracks - gone
    requires forall m :: m in w.participants && m != id ==> Follows(v, m) == Follows(w, m) - gone
    requires forall k :: k in w.tracks && k !in gone ==> OwnerId(v, k) == OwnerId(w, k)
    ensures Seen(v) == Departed(Seen(w), id)
  {
  }

  lemma {:induction false} SeenPublish(w: World, id: string, k: string, next: nat)
    requires RoomInv(w, next) && id in w.participants
    ensures var r := PublishWorld(w, id, k, next);
            (Seen(r.0), Report(r.1)) == Within(Seen(w), PublishTrack("", id, k, true))
  {
    var p := w.participants[id];
    if k in w.people[p].pub { assert Registered(w, p, k); }
    forall j | j in w.tracks
      ensures w.tracks[j] in w.media
    {
      OwnerKnown(w, j);
    }
    PublishView(w, id, k, next);
  }

  lemma {:induction false} PublishView(w: World, id: string, k: string, next: nat)
    requires Named(w) && Below(w, next) && id in w.participants && w.state != RoomClosed
    requires w.people[w.participants[id]].state != Left && (k in w.people[w.participants[id]].pub ==> k in w.tracks)
    requires forall j :: j in w.tracks ==> w.tracks[j] in w.media
    ensures var r := PublishWorld(w, id, k, next);
            (Seen(r.0), Report(r.1)) == Within(Seen(w), PublishTrack("", id, k, true))
  {
    var p, t, v := w.participants[id], TRef(next, k), PublishWorld(w, id, k, next).0;
    assert t !in w.media;
    forall m | m in w.participants
      ensures Follows(v, m) == Follows(w, m)
    {
      assert v.people[w.participants[m]].sub == w.people[w.participants[m]].sub;
    }
    SeenEquals(v, Within(Seen(w), PublishTrack("", id, k, true)).0);
  }

  lemma {:induction false} SeenSubscribe(w: World, id: string, k: string)
    requires Linked(w) && Agrees(w) && id in w.participants && k in w.tracks
    ensures var r := Subscribe(w, w.participants[id], w.tracks[k]);
            (Seen(r.0), Report(r.1)) == Within(Seen(w), SubscribeTrack("", id, k))
  {
    OwnerKnown(w, k);
    SubscribeView(w, id, k);
  }

  lemma {:induction false} SubscribeView(w: World, id: string, k: string)
    requires Named(w) && id in w.participants && w.people[w.participants[id]].state != Left
    requires k in w.tracks && w.tracks[k] in w.media && w.tracks[k].id == k && w.media[w.tracks[k]].state == Published
    ensures var r := Subscribe(w, w.participants[id], w.tracks[k]);
            (Seen(r.0), Report(r.1)) == Within(Seen(w), SubscribeTrack("", id, k))
  {
    if k !in w.people[w.participants[id]].sub { SubscribedView(w, id, k); }
  }

  lemma {:induction false} SubscribedView(w: World, id: string, k: string)
    requires Named(w) && id in w.participants && w.people[w.participants[id]].state != Left && k !in w.people[w.participants[id]].sub
    requires k in w.tracks && w.tracks[k] in w.media && w.tracks[k].id == k && w.media[w.tracks[k]].state == Published
    ensures var r := Subscribe(w, w.participants[id], w.tracks[k]);
            (Seen(r.0), Report(r.1)) == Within(Seen(w), SubscribeTrack("", id, k))
  {
    var v := Subscribe(w, w.participants[id], w.tracks[k]).0;
    SameOwners(w, v);
    OneFollows(w, v, id, Follows(w, id) + {k});
    SeenEquals(v, Within(Seen(w), SubscribeTrack("", id, k)).0);
  }

  lemma {:induction false} SeenUnsubscribe(w: World, id: string, k: string)
    requires Linked(w) && Agrees(w) && id in w.participants && k in w.tracks
    ensures k in w.people[w.participants[id]].sub ==> w.people[w.participants[id]].sub[k] in w.media
    ensures var r := Unsubscribe(w, w.participants[id], k);
            (Seen(r.0), Report(r.1)) == Within(Seen(w), UnsubscribeTrack("", id, k))
  {
    SubscriptionKnown(w, w.participants[id], k);
    UnsubscribeView(w, id, k);
  }

  lemma {:induction false} UnsubscribeView(w: World, id: string, k: string)
    requires Named(w) && id in w.participants && w.people[w.participants[id]].state != Left && k in w.tracks
    requires k in w.people[w.participants[id]].sub ==> w.people[w.participants[id]].sub[k] in w.media
    ensures var r := Unsubscribe(w, w.participants[id], k);
            (Seen(r.0), Report(r.1)) == Within(Seen(w), UnsubscribeTrack("", id, k))
  {
    var v := Unsubscribe(w, w.participants[id], k).0;
    SameOwners(w, v);
    if v != w { OneFollows(w, v, id, Follows(w, id) - {k}); }
    SeenEquals(v, Within(Seen(w), UnsubscribeTrack("", id, k)).0);
  }

  lemma SameOwners(w: World, v: World)
    requires v.tracks == w.tracks && v.media.Keys == w.media.Keys
    requires forall t :: t in w.media ==> v.media[t].publisher == w.media[t].publisher
    ensures forall k :: k in w.tracks ==> OwnerId(v, k) == OwnerId(w, k)
  {
  }

  lemma OneFollows(w: World, v: World, id: string, subs: set<string>)
    requires Named(w) && id in w.participants && v.participants == w.participants && v.people.Keys == w.people.Keys
    requires forall p :: p in w.people && p != w.participants[id] ==> v.people[p] == w.people[p]
    requires v.people[w.participants[id]].sub.Keys == subs
    ensures forall m :: m in w.participants ==> Follows(v, m) == if m == id then subs else Follows(w, m)
  {
  }

  // ---------------------------------------------------------------- the whole client

  /** Every call: same new state, same report. */
  lemma {:induction false} StepSeen(c: State, call: Call)
    requires Inv(c)
    ensures (SeenAll(Step(c, call).0), Step(c, call).1) == Answer(SeenAll(c), call)
  {
    match call
    case JoinRoom(room, id) => JoinSeen(c, room, id);
    case CloseRoom(room) => CloseSeen(c, room);
    case _ =>
      if call.room in c.rooms && call.id in c.rooms[call.room].participants {
        WithinSeen(c, call);
      } else {
        RefusedSeen(c, call);
      }
  }

  lemma {:induction false} CloseSeen(c: State, room: string)
    requires Inv(c)
    ensures (SeenAll(Step(c, CloseRoom(room)).0), Step(c, CloseRoom(room)).1) == Answer(SeenAll(c), CloseRoom(room))
  {
    assert SeenAll(c.(rooms := c.rooms - {room})).rooms == SeenAll(c).rooms - {room};
  }

  lemma RefusedSeen(c: State, call: Call)
    requires Inv(c) && !call.JoinRoom? && !call.CloseRoom?
    requires call.room in c.rooms ==> call.id !in c.rooms[call.room].participants
    ensures Step(c, call).0 == c && (SeenAll(c), Step(c, call).1) == Answer(SeenAll(c), call)
  {
  }

  lemma {:induction false} JoinSeen(c: State, room: string, id: string)
    requires Inv(c)
    ensures (SeenAll(Step(c, JoinRoom(room, id)).0), Step(c, JoinRoom(room, id)).1) == Answer(SeenAll(c), JoinRoom(room, id))
  {
    var w := if room in c.rooms then c.rooms[room] else OpenWorld;
    OpenWorldInv(c.next);
    SeenJoin(w, id, c.next);
    assert Seen(OpenWorld) == View(map[], map[]);
    SeenWith(Taken(c), room, JoinWorld(w, id, c.next));
  }

  lemma SeenWith(c: State, room: string, w: World)
    ensures SeenAll(WithRoom(c, room, w)) == SeenAll(c).(rooms := SeenAll(c).rooms[room := Seen(w)])
  {
  }

  /** The room a call leaves behind, for a participant that is there. */
  function NextRoom(c: State, call: Call): (World, Status)
    requires Inv(c) && !call.JoinRoom? && !call.CloseRoom?
    requires call.room in c.rooms && call.id in c.rooms[call.room].participants
  {
    var w := c.rooms[call.room];
    var p := w.participants[call.id];
    match call
    case LeaveRoom(_, id) => (LeaveWorld(w, id), Ok)
    case PublishTrack(_, id, k, valid) =>
      if !valid then (w, InvalidTrack) else var r := PublishWorld(w, id, k, c.next); (r.0, Report(r.1))
    case SubscribeTrack(_, id, k) =>
      if k !in w.tracks then (w, Refused(TrackNotFound)) else var r := Subscribe(w, p, w.tracks[k]); (r.0, Report(r.1))
    case UnsubscribeTrack(_, id, k) =>
      if k !in w.tracks then (w, Refused(TrackNotFound))
      else SubscriptionKnown(w, p, k); var r := Unsubscribe(w, p, k); (r.0, Report(r.1))
  }

  lemma {:induction false} NextRoomSeen(c: State, call: Call)
    requires Inv(c) && !call.JoinRoom? && !call.CloseRoom?
    requires call.room in c.rooms && call.id in c.rooms[call.room].participants
    ensures var r := NextRoom(c, call);
            (Seen(r.0), r.1) == Within(Seen(c.rooms[call.room]), call)
  {
    var w := c.rooms[call.room];
    match call
    case LeaveRoom(_, id) => SeenLeave(w, id);
    case PublishTrack(_, id, k, _) => SeenPublish(w, id, k, c.next);
    case SubscribeTrack(_, id, k) => if k in w.tracks { SeenSubscribe(w, id, k); }
    case UnsubscribeTrack(_, id, k) => if k in w.tracks { SeenUnsubscribe(w, id, k); }
  }

  lemma {:induction false} WithinSeen(c: State, call: Call)
    requires Inv(c) && !call.JoinRoom? && !call.CloseRoom?
    requires call.room in c.rooms && call.id in c.rooms[call.room].participants
    ensures (SeenAll(Step(c, call).0), Step(c, call).1) == Answer(SeenAll(c), call)
  {
    var r := NextRoom(c, call);
    NextRoomSeen(c, call);
    SeenSame(c, call.room);
    SeenWith(c, call.room, r.0);
    SeenWith(Taken(c), call.room, r.0);
    StepIsNextRoom(c, call);
  }

  lemma {:induction false} StepIsNextRoom(c: State, call: Call)
    requires Inv(c) && !call.JoinRoom? && !call.CloseRoom?
    requires call.room in c.rooms && call.id in c.rooms[call.room].participants
    ensures var r, v := NextRoom(c, call), Step(c, call);
            && v.1 == r.1
            && (v.0 == WithRoom(c, call.room, r.0) || v.0 == WithRoom(Taken(c), call.room, r.0) || (v.0 == c && r.0 == c.rooms[call.room]))
  {
    match call
    case LeaveRoom(_, _) => case PublishTrack(_, _, _, _) => case SubscribeTrack(_, _, _) => case UnsubscribeTrack(_, _, _) =>
  }

  lemma SeenSame(c: State, room: string)
    requires room in c.rooms
    ensures SeenAll(c).(rooms := SeenAll(c).rooms[room := Seen(c.rooms[room])]) == SeenAll(c)
  {
  }

  /** Says that one wants to look into an answer. */
  predicate Look(b: Book) { true }

  /** Book v and report st are the reference's answer to the call. */
  ghost predicate Answered(b: Book, call: Call, v: Book, st: Status) {
    forall x {:trigger Look(x)} :: Look(x) && x == b ==> (v, st) == Answer(x, call)
  }

  lemma {:induction false} StepAnswered(c: State, call: Call)
    requires Inv(c)
    ensures Answered(SeenAll(c), call, SeenAll(Step(c, call).0), Step(c, call).1)
  {
    StepSeen(c, call);
  }

  /** What the calls of a run report, one after the other. */
  ghost function Reports(c: State, calls: seq<Call>): seq<Status>
    requires Inv(c)
    decreases |calls|
  {
    if calls == [] then [] else StepInv(c, calls[0]); [Step(c, calls[0]).1] + Reports(Step(c, calls[0]).0, calls[1..])
  }

  function Answers(b: Book, calls: seq<Call>): (Book, seq<Status>)
    decreases |calls|
  {
    if calls == [] then (b, [])
    else
      var first := Answer(b, calls[0]);
      var rest := Answers(first.0, calls[1..]);
      (rest.0, [first.1] + rest.1)
  }

  lemma {:induction false} RunSeenFrom(c: State, calls: seq<Call>)
    requires Inv(c)
    ensures (SeenAll(RunCalls(c, calls)), Reports(c, calls)) == Answers(SeenAll(c), calls)
    decreases |calls|
  {
    if calls != [] {
      StepInv(c, calls[0]);
      StepSeen(c, calls[0]);
      RunSeenFrom(Step(c, calls[0]).0, calls[1..]);
    }
  }

  /** Over every run of client calls: the client looks, and has reported, exactly as the reference does. */
  lemma {:induction false} ClientIsReference(calls: seq<Call>)
    ensures (SeenAll(RunCalls(NewClient, calls)), Reports(NewClient, calls)) == Answers(EmptyBook, calls)
  {
    RunSeenFrom(NewClient, calls);
    assert SeenAll(NewClient) == EmptyBook;
  }
}
