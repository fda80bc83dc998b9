/** Every room and participant operation keeps the two sides of each subscription in agreement. */
module DomainInvariant {
  import opened Prelude
  import opened Domain

  /** A change of publications, track states and publishers that touches no subscription. */
  lemma {:induction false} KeepsLinksWith(w: World, p: PRef, person: Person, t: TRef, track: Media)
    requires Linked(w) && p in w.people && t in w.media
    requires person.sub == w.people[p].sub && Keyed(person.pub, w.media.Keys) && person.state == w.people[p].state
    requires person.state != Left && track.subscribers == w.media[t].subscribers
    ensures Linked(With(w, p, person, t, track))
  {
    var v := With(w, p, person, t, track);
    forall q | q in v.people
      ensures v.people[q].sub == w.people[q].sub && Keyed(v.people[q].pub, v.media.Keys)
    {
      if q != p { assert v.people[q] == w.people[q]; }
    }
    KeepsLinks(w, v);
  }

  lemma {:induction false} LinkedPublish(w: World, p: PRef, t: TRef)
    requires Linked(w) && p in w.people && t in w.media
    ensures Linked(Publish(w, p, t).0)
  {
    if Publish(w, p, t).1.None? {
      var pub := w.people[p].pub;
      assert Keyed(pub[t.id := t], w.media.Keys);
      KeepsLinksWith(w, p, w.people[p].(pub := pub[t.id := t]), t, w.media[t].(state := Published, publisher := Some(p)));
    }
  }

  lemma {:induction false} LinkedUnpublish(w: World, p: PRef, k: string)
    requires Linked(w) && p in w.people
    ensures Linked(Unpublish(w, p, k).0)
  {
    if Unpublish(w, p, k).1.None? {
      var pub := w.people[p].pub;
      assert Keyed(pub - {k}, w.media.Keys);
      KeepsLinksWith(w, p, w.people[p].(pub := pub - {k}), pub[k], w.media[pub[k]].(state := Unpublished));
    }
  }

  /** Changes outside the subscription maps keep the links, as long as the other maps stay keyed. */
  lemma {:induction false} KeepsLinks(w: World, v: World)
    requires Linked(w)
    requires v.participants == w.participants && v.people.Keys == w.people.Keys && v.media.Keys == w.media.Keys
    requires Keyed(v.tracks, v.media.Keys)
    requires forall p :: p in v.people ==> v.people[p].sub == w.people[p].sub && Keyed(v.people[p].pub, v.media.Keys)
    requires forall t :: t in v.media ==> v.media[t].subscribers == w.media[t].subscribers
    requires forall p :: p in v.people && v.people[p].state == Left ==> v.people[p].sub == map[] && v.people[p].pub == map[]
    ensures Linked(v)
  {
    forall t, k | t in v.media && k in v.media[t].subscribers
      ensures WatchedBy(v, t, k)
    {
      assert WatchedBy(w, t, k);
    }
    forall p, k | p in v.people && k in v.people[p].sub
      ensures Watching(v, p, k)
    {
      assert Watching(w, p, k);
    }
  }

  /** Subscribing keeps the links when the subscriber is a current participant. */
  lemma {:induction false} LinkedSubscribe(w: World, p: PRef, t: TRef)
    requires Linked(w) && p in w.people && t in w.media
    requires p.id in w.participants && w.participants[p.id] == p
    ensures Linked(Subscribe(w, p, t).0)
  {
    var r := Subscribe(w, p, t);
    if r.1.None? {
      assert p.id in w.media[t].subscribers ==> WatchedBy(w, t, p.id);
      AddLink(w, r.0, p, t);
    }
  }

  /** Adding both sides of one subscription. */
  lemma {:induction false} AddLink(w: World, v: World, p: PRef, t: TRef)
    requires Linked(w) && p in w.people && t in w.media && t.id !in w.people[p].sub
    requires p.id in w.participants && w.participants[p.id] == p && w.people[p].state != Left
    requires v == With(w, p, w.people[p].(sub := w.people[p].sub[t.id := t]),
                       t, w.media[t].(subscribers := w.media[t].subscribers[p.id := p]))
    ensures Linked(v)
  {
    AddLinkWatched(w, v, p, t);
    AddLinkWatching(w, v, p, t);
  }

  lemma {:induction false} AddLinkWatched(w: World, v: World, p: PRef, t: TRef)
    requires Linked(w) && p in w.people && t in w.media && t.id !in w.people[p].sub
    requires p.id in w.participants && w.participants[p.id] == p
    requires v == With(w, p, w.people[p].(sub := w.people[p].sub[t.id := t]),
                       t, w.media[t].(subscribers := w.media[t].subscribers[p.id := p]))
    ensures forall u, k :: u in v.media && k in v.media[u].subscribers ==> WatchedBy(v, u, k)
  {
    forall u, k | u in v.media && k in v.media[u].subscribers
      ensures WatchedBy(v, u, k)
    {
      if u != t || k != p.id { assert WatchedBy(w, u, k); }
    }
  }

  lemma {:induction false} AddLinkWatching(w: World, v: World, p: PRef, t: TRef)
    requires Linked(w) && p in w.people && t in w.media && t.id !in w.people[p].sub
    requires p.id in w.participants && w.participants[p.id] == p
    requires v == With(w, p, w.people[p].(sub := w.people[p].sub[t.id := t]),
                       t, w.media[t].(subscribers := w.media[t].subscribers[p.id := p]))
    ensures forall q, k :: q in v.people && k in v.people[q].sub ==> Watching(v, q, k)
  {
    forall q, k | q in v.people && k in v.people[q].sub
      ensures Watching(v, q, k)
    {
      if q != p || k != t.id {
        assert Watching(w, q, k);
        assert q.id == p.id ==> WatchedBy(w, w.people[q].sub[k], q.id);
      }
    }
  }

  lemma {:induction false} LinkedDetach(w: World, t: TRef, ids: set<string>)
    requires Linked(w) && t in w.media
    ensures Linked(Detach(w, t, ids))
  {
    var v := Detach(w, t, ids);
    forall u, k | u in v.media && k in v.media[u].subscribers
      ensures WatchedBy(v, u, k)
    {
      assert WatchedBy(w, u, k);
    }
    forall q, k | q in v.people && k in v.people[q].sub
      ensures Watching(v, q, k)
    {
      assert Watching(w, q, k);
      assert v.people[q].sub[k] == w.people[q].sub[k];
    }
  }

  /** Only current participants have subscriptions. */
  lemma {:induction false} OnlyMembersWatch(w: World)
    requires Linked(w)
    ensures forall q, k :: q in w.people && k in w.people[q].sub ==> q.id in w.participants && w.participants[q.id] == q
  {
    forall q, k | q in w.people && k in w.people[q].sub
      ensures q.id in w.participants && w.participants[q.id] == q
    {
      assert Watching(w, q, k);
      assert WatchedBy(w, w.people[q].sub[k], q.id);
    }
  }

  /** In a keyed map a track appears under its own ID only. */
  lemma {:induction false} WithoutOne(m: map<string, TRef>, k: string)
    requires k in m && forall j :: j in m ==> m[j].id == j
    ensures Without(m, {m[k]}) == m - {k}
  {
    forall j | j in m && j != k
      ensures m[j] !in {m[k]}
    {
      assert m[j].id != m[k].id;
    }
  }

  lemma {:induction false} DetachOnePerson(people: map<PRef, Person>, p: PRef, k: string)
    requires p in people && k in people[p].sub && (forall j :: j in people[p].sub ==> people[p].sub[j].id == j)
    requires forall q :: q in people && q.id == p.id && q != p ==> people[q].sub == map[]
    ensures DetachPeople(people, people[p].sub[k], {p.id})
            == people[p := people[p].(sub := people[p].sub - {k})]
  {
    var t := people[p].sub[k];
    WithoutOne(people[p].sub, k);
    var a, b := DetachPeople(people, t, {p.id}), people[p := people[p].(sub := people[p].sub - {k})];
    forall q | q in people
      ensures a[q] == b[q]
    {
      if q != p && q.id == p.id {
        assert Without(people[q].sub, {t}) == map[];
      }
    }
  }

  /** One subscriber unsubscribing is the one-element case of detaching. */
  lemma {:induction false} UnsubscribeIsDetach(w: World, p: PRef, k: string)
    requires Linked(w) && p in w.people && k in w.people[p].sub
    ensures w.people[p].sub[k] in w.media && Unsubscribe(w, p, k) == (Detach(w, w.people[p].sub[k], {p.id}), None)
  {
    assert Watching(w, p, k);
    OnlyMembersWatch(w);
    assert forall j :: j in w.people[p].sub ==> Watching(w, p, j);
    forall q | q in w.people && q.id == p.id && q != p
      ensures w.people[q].sub == map[]
    {
    }
    DetachOnePerson(w.people, p, k);
  }

  lemma {:induction false} LinkedUnsubscribe(w: World, p: PRef, k: string)
    requires Linked(w) && p in w.people
    ensures k in w.people[p].sub ==> w.people[p].sub[k] in w.media
    ensures Linked(Unsubscribe(w, p, k).0)
  {
    if k in w.people[p].sub {
      UnsubscribeIsDetach(w, p, k);
      LinkedDetach(w, w.people[p].sub[k], {p.id});
    }
  }

  lemma {:induction false} LinkedDestroyAll(w: World, gone: set<TRef>, exclude: string)
    requires Linked(w)
    requires forall t :: t in gone ==> t in w.media
    requires exclude in w.participants
    ensures Linked(DestroyAll(w, gone, exclude))
  {
    var v := DestroyAll(w, gone, exclude);
    forall u, k | u in v.media && k in v.media[u].subscribers
      ensures WatchedBy(v, u, k)
    {
      assert k in w.media[u].subscribers;
      assert WatchedBy(w, u, k);
      assert k != exclude ==> u !in gone;
    }
    forall q, k | q in v.people && k in v.people[q].sub
      ensures Watching(v, q, k)
    {
      assert Watching(w, q, k);
      assert v.people[q].sub[k] == w.people[q].sub[k];
    }
  }

  lemma {:induction false} LinkedDrop(w: World, p: PRef)
    requires Linked(w) && p in w.people
    requires p.id in w.participants && w.participants[p.id] == p
    ensures Linked(DropSubscriptions(w, p))
    ensures forall t :: t in DropSubscriptions(w, p).media ==> p.id !in DropSubscriptions(w, p).media[t].subscribers
  {
    var v := DropSubscriptions(w, p);
    OnlyMembersWatch(w);
    forall u, k | u in v.media && k in v.media[u].subscribers
      ensures k != p.id && WatchedBy(v, u, k)
    {
      assert WatchedBy(w, u, k);
      assert u in Values(w.people[w.participants[k]].sub);
    }
    forall q, k | q in v.people && k in v.people[q].sub
      ensures Watching(v, q, k)
    {
      assert Watching(w, q, k);
      assert q.id != p.id;
    }
  }

  /** Room.Leave keeps the links. */
  lemma {:induction false} LinkedLeave(w: World, id: string)
    requires Linked(w) && id in w.participants
    ensures Linked(LeaveWorld(w, id))
  {
    var p := w.participants[id];
    var w1 := DestroyAll(w, Values(w.people[p].pub), id);
    LinkedDestroyAll(w, Values(w.people[p].pub), id);
    var w2 := DestroyAll(w1, Orphans(w1), id);
    LinkedDestroyAll(w1, Orphans(w1), id);
    var w3 := DropSubscriptions(w2, p);
    LinkedDrop(w2, p);
    RemoveMember(w3, LeaveWorld(w, id), id);
  }

  /** A participant without subscriptions can be removed, and registry entries dropped. */
  lemma {:induction false} RemoveMember(w: World, v: World, id: string)
    requires Linked(w) && v.people == w.people && v.media == w.media
    requires v.participants == w.participants - {id} && Keyed(v.tracks, v.media.Keys)
    requires forall t :: t in w.media ==> id !in w.media[t].subscribers
    ensures Linked(v)
  {
    forall u, k | u in v.media && k in v.media[u].subscribers
      ensures WatchedBy(v, u, k)
    {
      assert WatchedBy(w, u, k);
    }
    forall q, k | q in v.people && k in v.people[q].sub
      ensures Watching(v, q, k)
    {
      assert Watching(w, q, k);
    }
  }

  /** Participant.Leave keeps the links, in the room or not, unless somebody else has its ID there. */
  lemma {:induction false} LinkedParticipantLeave(w: World, p: PRef)
    requires Linked(w) && p in w.people
    requires p.id in w.participants ==> w.participants[p.id] == p
    ensures Linked(ParticipantLeave(w, p))
  {
    LinkedLeaveAll(w, {p});
    LeaveAllOne(w, p);
  }

  lemma {:induction false} LeaveAllOne(w: World, p: PRef)
    requires p in w.people
    ensures LeaveAll(w, {p}) == ParticipantLeave(w, p)
  {
    var a, b := LeaveAll(w, {p}), ParticipantLeave(w, p);
    forall t | t in w.media
      ensures a.media[t] == b.media[t]
    {
      var ids := set q | q in {p} && (t in Values(w.people[q].pub) || t in Values(w.people[q].sub)) :: q.id;
      if t in Values(w.people[p].pub) || t in Values(w.people[p].sub) {
        assert p in {p};
        assert ids == {p.id};
      } else {
        assert ids == {};
      }
    }
  }

  lemma {:induction false} LinkedLeaveAll(w: World, gone: set<PRef>)
    requires Linked(w) && forall p :: p in gone ==> p in w.people
    requires forall p :: p in gone && p.id in w.participants ==> w.participants[p.id] == p
    ensures Linked(LeaveAll(w, gone))
    ensures forall t, k :: t in w.media && k in LeaveAll(w, gone).media[t].subscribers ==>
              k in w.participants && w.participants[k] !in gone
  {
    var v := LeaveAll(w, gone);
    forall u, k | u in v.media && k in v.media[u].subscribers
      ensures k in w.participants && w.participants[k] !in gone && WatchedBy(v, u, k)
    {
      assert WatchedBy(w, u, k);
      var p := w.participants[k];
      assert u in Values(w.people[p].sub);
      assert v.people[p] == if p in gone then Person(Left, false, map[], map[]) else w.people[p];
    }
    OnlyMembersWatch(w);
    forall q, k | q in v.people && k in v.people[q].sub
      ensures Watching(v, q, k)
    {
      assert Watching(w, q, k);
      assert forall p :: p in gone ==> p.id != q.id;
    }
  }
}
