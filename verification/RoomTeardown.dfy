/** How one more iteration of each teardown loop extends the closed form of what it has done so far. */
module RoomTeardown {
  import opened Prelude
  import opened Domain
  import opened DomainInvariant
  import opened DomainRuns

  lemma WithoutTwice(m: map<string, TRef>, t: TRef)
    ensures Without(Without(m, {t}), {t}) == Without(m, {t})
  {
  }

  lemma {:induction false} DetachMore(w: World, t: TRef, done: set<string>, k: string)
    requires t in w.media
    ensures Detach(Detach(w, t, done), t, {k}) == Detach(w, t, done + {k})
  {
    var a, b := Detach(Detach(w, t, done), t, {k}), Detach(w, t, done + {k});
    forall p | p in w.people
      ensures a.people[p] == b.people[p]
    {
      WithoutTwice(w.people[p].sub, t);
    }
    assert a.people == b.people;
    assert w.media[t].subscribers - done - {k} == w.media[t].subscribers - (done + {k});
    assert a.media == b.media;
  }

  /** The subscribers handled while `todo` are left. */
  function Handled(ids: set<string>, todo: set<string>, exclude: string): set<string> { ids - todo - {exclude} }

  lemma HandledEnds(ids: set<string>, exclude: string)
    ensures Handled(ids, ids, exclude) == {} && Handled(ids, {}, exclude) == ids - {exclude}
  {
  }

  lemma HandledMore(ids: set<string>, todo: set<string>, exclude: string, k: string)
    requires k in todo && todo <= ids
    ensures Handled(ids, todo - {k}, exclude) == if k == exclude then Handled(ids, todo, exclude) else Handled(ids, todo, exclude) + {k}
    ensures k !in Handled(ids, todo, exclude)
  {
  }

  /** One more subscriber of t lets go. */
  lemma {:induction false} DetachNext(w: World, t: TRef, done: set<string>, k: string)
    requires Linked(w) && t in w.media && k in w.media[t].subscribers && k !in done
    ensures var v := Detach(w, t, done);
            && k in v.participants && v.participants[k] in v.people && t in v.media
            && (t.id in v.people[v.participants[k]].sub ==> v.people[v.participants[k]].sub[t.id] in v.media)
            && Unsubscribe(v, v.participants[k], t.id).0 == Detach(w, t, done + {k})
  {
    var v := Detach(w, t, done);
    LinkedDetach(w, t, done);
    assert k in v.media[t].subscribers;
    assert WatchedBy(v, t, k);
    UnsubscribeIsDetach(v, v.participants[k], t.id);
    DetachMore(w, t, done, k);
  }

  /** The track as destroyTrackLocked leaves it before it detaches subscribers. */
  function Retired(w: World, t: TRef): World
    requires t in w.media
  {
    w.(media := w.media[t := w.media[t].(state := Unpublished, publisher := None)], tracks := w.tracks - {t.id})
  }

  lemma {:induction false} LinkedRetired(w: World, t: TRef)
    requires Linked(w) && t in w.media
    ensures Linked(Retired(w, t))
  {
    var v := Retired(w, t);
    assert v.media.Keys == w.media.Keys;
    KeepsLinks(w, v);
  }

  lemma {:induction false} DetachPeopleIsDestroy(people: map<PRef, Person>, t: TRef, ids: set<string>, exclude: string)
    requires exclude !in ids
    requires forall p :: p in people && p.id != exclude && p.id !in ids ==> t !in Values(people[p].sub)
    ensures DetachPeople(people, t, ids) == DestroyPeople(people, {t}, exclude)
  {
    forall p | p in people && p.id != exclude && p.id !in ids
      ensures Without(people[p].sub, {t}) == people[p].sub
    {
      forall k | k in people[p].sub
        ensures people[p].sub[k] != t
      {
        assert people[p].sub[k] in Values(people[p].sub);
      }
    }
  }

  /** Retiring a track and detaching all subscribers but the leaver destroys it. */
  lemma {:induction false} DetachIsDestroy(w: World, t: TRef, exclude: string)
    requires Linked(w) && t in w.media
    ensures Detach(Retired(w, t), t, w.media[t].subscribers.Keys - {exclude}) == DestroyAll(w, {t}, exclude)
  {
    var ids := w.media[t].subscribers.Keys - {exclude};
    forall p | p in w.people && p.id != exclude && p.id !in ids
      ensures t !in Values(w.people[p].sub)
    {
      forall k | k in w.people[p].sub
        ensures w.people[p].sub[k] != t
      {
        assert Watching(w, p, k);
      }
    }
    DetachPeopleIsDestroy(w.people, t, ids, exclude);
    DetachRestIsDestroy(w, t, ids, exclude);
  }

  lemma {:induction false} DetachRestIsDestroy(w: World, t: TRef, ids: set<string>, exclude: string)
    requires t in w.media && ids == w.media[t].subscribers.Keys - {exclude}
    ensures Detach(Retired(w, t), t, ids).media == DestroyAll(w, {t}, exclude).media
    ensures Detach(Retired(w, t), t, ids).tracks == DestroyAll(w, {t}, exclude).tracks
  {
    assert w.media[t].subscribers - ids == OnlyKey(w.media[t].subscribers, exclude);
  }

  /** The tracks listed in `sub` under the IDs in `ks` have forgotten participant `id`. */
  function ForgetMedia(media: map<TRef, Media>, sub: map<string, TRef>, id: string, ks: set<string>): map<TRef, Media> {
    map t | t in media ::
      (if t.id in ks && t.id in sub && sub[t.id] == t
       then media[t].(subscribers := media[t].subscribers - {id}) else media[t])
  }

  /** The leaver has dropped the subscriptions under the IDs in `ks`. */
  function DropSome(w: World, p: PRef, ks: set<string>): World
    requires p in w.people
  {
    w.(people := w.people[p := w.people[p].(sub := w.people[p].sub - ks)],
       media := ForgetMedia(w.media, w.people[p].sub, p.id, ks))
  }

  lemma ForgetMore(media: map<TRef, Media>, sub: map<string, TRef>, id: string, ks: set<string>, k: string)
    requires k in sub && sub[k] in media && sub[k].id == k && k !in ks
    ensures var t := sub[k];
            t in ForgetMedia(media, sub, id, ks) && ForgetMedia(media, sub, id, ks)[t] == media[t] &&
            ForgetMedia(media, sub, id, ks)[t := media[t].(subscribers := media[t].subscribers - {id})]
            == ForgetMedia(media, sub, id, ks + {k})
  {
  }

  lemma {:induction false} DropMore(w: World, p: PRef, ks: set<string>, k: string)
    requires Linked(w) && p in w.people && k in w.people[p].sub && k !in ks
    ensures w.people[p].sub[k] in w.media && w.people[p].state != Left
    ensures Unsubscribe(DropSome(w, p, ks), p, k) == (DropSome(w, p, ks + {k}), None)
  {
    assert Watching(w, p, k);
    ForgetMore(w.media, w.people[p].sub, p.id, ks, k);
    DropPersonMore(w.people, p, ks, k);
  }

  lemma {:induction false} DropPersonMore(people: map<PRef, Person>, p: PRef, ks: set<string>, k: string)
    requires p in people
    ensures var q := people[p].(sub := people[p].sub - ks);
            people[p := q][p := q.(sub := q.sub - {k})] == people[p := people[p].(sub := people[p].sub - (ks + {k}))]
  {
    assert people[p].sub - ks - {k} == people[p].sub - (ks + {k});
  }

  lemma {:induction false} DropEverything(w: World, p: PRef)
    requires Linked(w) && p in w.people
    ensures DropSome(w, p, w.people[p].sub.Keys) == DropSubscriptions(w, p)
  {
    var a, b := DropSome(w, p, w.people[p].sub.Keys), DropSubscriptions(w, p);
    assert w.people[p].sub - w.people[p].sub.Keys == map[];
    forall u | u in w.media
      ensures a.media[u] == b.media[u]
    {
      if u in Values(w.people[p].sub) {
        var k :| k in w.people[p].sub && w.people[p].sub[k] == u;
        assert Watching(w, p, k);
      }
    }
    assert a.media == b.media;
  }

  /** The registry after the leaver dropped the subscriptions in `ks`, judged by the tracks' final state. */
  function RegistryAfter(tracks: map<string, TRef>, media: map<TRef, Media>, ks: set<string>): map<string, TRef>
    requires Keyed(tracks, media.Keys)
  {
    map k | k in tracks && !(k in ks && media[tracks[k]].publisher == None && media[tracks[k]].subscribers == map[])
      :: tracks[k]
  }

  lemma RegistryMore(tracks: map<string, TRef>, media: map<TRef, Media>, ks: set<string>, k: string)
    requires Keyed(tracks, media.Keys) && k !in ks
    ensures RegistryAfter(tracks, media, ks + {k}) ==
              if k in tracks && media[tracks[k]].publisher == None && media[tracks[k]].subscribers == map[]
              then RegistryAfter(tracks, media, ks) - {k} else RegistryAfter(tracks, media, ks)
    ensures k in RegistryAfter(tracks, media, ks) <==> k in tracks
  {
  }

  /** Whether an entry is abandoned is settled once its own subscription is dropped. */
  lemma AbandonedSettled(w: World, p: PRef, ks: set<string>, k: string)
    requires Linked(w) && p in w.people && k in ks && ks <= w.people[p].sub.Keys && k in w.tracks
    ensures var u := w.tracks[k];
            u in w.media && DropSome(w, p, ks).media[u] == DropSome(w, p, w.people[p].sub.Keys).media[u]
  {
  }

  /** Participant.Leave part way: publications in `pubs` and subscriptions in `subs` are cleaned up. */
  function LeaveSome(w: World, p: PRef, pubs: set<TRef>, subs: set<TRef>): map<TRef, Media>
  {
    map t | t in w.media ::
      (var m := w.media[t];
       if t in pubs then Media(Unpublished, None, m.subscribers - {p.id})
       else if t in subs then m.(subscribers := m.subscribers - {p.id}) else m)
  }

  lemma {:induction false} LeaveSomePub(w: World, p: PRef, pubs: set<TRef>, t: TRef)
    requires t in w.media
    ensures t in LeaveSome(w, p, pubs, {})
    ensures LeaveSome(w, p, pubs, {})[t := Media(Unpublished, None, LeaveSome(w, p, pubs, {})[t].subscribers - {p.id})]
            == LeaveSome(w, p, pubs + {t}, {})
  {
    assert w.media[t].subscribers - {p.id} - {p.id} == w.media[t].subscribers - {p.id};
  }

  lemma {:induction false} LeaveSomeSub(w: World, p: PRef, pubs: set<TRef>, subs: set<TRef>, t: TRef)
    requires t in w.media
    ensures t in LeaveSome(w, p, pubs, subs)
    ensures var m := LeaveSome(w, p, pubs, subs);
            m[t := m[t].(subscribers := m[t].subscribers - {p.id})] == LeaveSome(w, p, pubs, subs + {t})
  {
    assert w.media[t].subscribers - {p.id} - {p.id} == w.media[t].subscribers - {p.id};
  }

  lemma {:induction false} LeaveAllMore(w: World, gone: set<PRef>, p: PRef)
    requires (forall q :: q in gone ==> q in w.people) && p in w.people && p !in gone
    ensures ParticipantLeave(LeaveAll(w, gone), p) == LeaveAll(w, gone + {p})
  {
    var v := LeaveAll(w, gone);
    var a, b := ParticipantLeave(v, p), LeaveAll(w, gone + {p});
    assert v.people[p] == w.people[p];
    assert a.people == b.people;
    forall t | t in w.media
      ensures a.media[t] == b.media[t]
    {
      LeaveAllTrack(w, gone, p, t);
    }
    assert a.media == b.media;
  }

  lemma {:induction false} LeaveAllTrack(w: World, gone: set<PRef>, p: PRef, t: TRef)
    requires (forall q :: q in gone ==> q in w.people) && p in w.people && p !in gone && t in w.media
    ensures ParticipantLeave(LeaveAll(w, gone), p).media[t] == LeaveAll(w, gone + {p}).media[t]
  {
    var v := LeaveAll(w, gone);
    var m := w.media[t];
    var ids := set q | q in gone && (t in Values(w.people[q].pub) || t in Values(w.people[q].sub)) :: q.id;
    var more := set q | q in gone + {p} && (t in Values(w.people[q].pub) || t in Values(w.people[q].sub)) :: q.id;
    var touched := t in Values(w.people[p].pub) || t in Values(w.people[p].sub);
    assert more == if touched then ids + {p.id} else ids by {
      assert p in gone + {p};
      assert forall q :: q in gone ==> q in gone + {p};
    }
    assert m.subscribers - ids - {p.id} == m.subscribers - (ids + {p.id});
    assert (exists q :: q in gone + {p} && t in Values(w.people[q].pub))
           <==> (t in Values(w.people[p].pub) || exists q :: q in gone && t in Values(w.people[q].pub)) by {
      assert p in gone + {p};
      assert forall q :: q in gone ==> q in gone + {p};
    }
  }

  lemma {:induction false} DetachNone(w: World, t: TRef)
    requires t in w.media
    ensures Detach(w, t, {}) == w
  {
    assert DetachPeople(w.people, t, {}) == w.people;
    assert w.media[t].subscribers - {} == w.media[t].subscribers;
  }

  lemma {:induction false} DestroyNone(w: World, id: string)
    ensures DestroyAll(w, {}, id) == w
  {
    assert forall m: map<string, TRef> :: Without(m, {}) == m;
    assert DestroyPeople(w.people, {}, id) == w.people;
    var v := DestroyAll(w, {}, id);
    assert v.tracks == w.tracks && v.media == w.media;
  }

  lemma {:induction false} LeaveNone(w: World)
    ensures LeaveAll(w, {}) == w
  {
    var v := LeaveAll(w, {});
    forall t | t in w.media
      ensures v.media[t] == w.media[t]
    {
      assert w.media[t].subscribers - {} == w.media[t].subscribers;
    }
  }

  /** The orphans whose registry key is not in `todo`. */
  function OrphansOutside(w: World, todo: set<string>): set<TRef>
    requires Keyed(w.tracks, w.media.Keys)
  {
    set k | k in w.tracks && k !in todo && w.media[w.tracks[k]].state == Unpublished &&
            w.media[w.tracks[k]].publisher == None :: w.tracks[k]
  }

  /** Destroying some orphans does not change whether another entry is one. */
  lemma OrphansMore(w: World, todo: set<string>, k: string, id: string)
    requires Keyed(w.tracks, w.media.Keys) && k in todo && todo <= w.tracks.Keys
    ensures var v := DestroyAll(w, OrphansOutside(w, todo), id);
            k in v.tracks && v.tracks[k] == w.tracks[k] && v.tracks[k] in v.media &&
            v.media[v.tracks[k]] == w.media[w.tracks[k]] &&
            OrphansOutside(w, todo - {k}) ==
              if w.media[w.tracks[k]].state == Unpublished && w.media[w.tracks[k]].publisher == None
              then OrphansOutside(w, todo) + {w.tracks[k]} else OrphansOutside(w, todo)
  {
  }

  /** The publications whose ID is not in `todo`. */
  function ValuesOutside(m: map<string, TRef>, todo: set<string>): set<TRef> {
    set k | k in m && k !in todo :: m[k]
  }

  lemma ValuesOutsideAll(m: map<string, TRef>)
    ensures ValuesOutside(m, m.Keys) == {} && ValuesOutside(m, {}) == Values(m)
  {
  }

  lemma ValuesOutsideMore(m: map<string, TRef>, todo: set<string>, k: string)
    requires k in m && k in todo
    ensures ValuesOutside(m, todo - {k}) == ValuesOutside(m, todo) + {m[k]}
  {
  }

  function MembersOutside(m: map<string, PRef>, todo: set<string>): set<PRef> {
    set k | k in m && k !in todo :: m[k]
  }

  lemma MembersOutsideMore(m: map<string, PRef>, todo: set<string>, k: string)
    requires k in m && k in todo
    ensures MembersOutside(m, todo - {k}) == MembersOutside(m, todo) + {m[k]}
  {
  }

  lemma LeaveSomeNone(w: World, p: PRef)
    ensures LeaveSome(w, p, {}, {}) == w.media
  {
  }

  lemma {:induction false} DropNone(w: World, p: PRef)
    requires p in w.people && Keyed(w.tracks, w.media.Keys)
    ensures DropSubscriptions(w, p).media.Keys == w.media.Keys
    ensures w == DropSome(w, p, {}).(tracks := RegistryAfter(w.tracks, DropSubscriptions(w, p).media, {}))
  {
    assert w.people[p].sub - {} == w.people[p].sub;
    assert ForgetMedia(w.media, w.people[p].sub, p.id, {}) == w.media;
    assert RegistryAfter(w.tracks, DropSubscriptions(w, p).media, {}) == w.tracks;
  }

  /** Room.Leave is its three loops and the removal of the leaver. */
  lemma {:induction false} LeaveByParts(w: World, id: string, w1: World, w2: World, v: World)
    requires Linked(w) && id in w.participants
    requires w1 == DestroyAll(w, Values(w.people[w.participants[id]].pub), id) && Keyed(w1.tracks, w1.media.Keys)
    requires w2 == DestroyAll(w1, Orphans(w1), id) && Keyed(w2.tracks, w2.media.Keys)
    requires var p := w.participants[id];
             var w3 := DropSubscriptions(w2, p);
             w3.media.Keys == w2.media.Keys &&
             v == w3.(tracks := RegistryAfter(w2.tracks, w3.media, w2.people[p].sub.Keys), participants := w.participants - {id})
    ensures v == LeaveWorld(w, id)
  {
    var p := w.participants[id];
    RegistryByAbandonment(DropSubscriptions(w2, p), w2.people[p].sub);
  }

  lemma RegistryByAbandonment(w: World, sub: map<string, TRef>)
    requires Keyed(w.tracks, w.media.Keys)
    ensures RegistryAfter(w.tracks, w.media, sub.Keys)
            == map k | k in w.tracks && !(k in sub && Abandoned(w, k)) :: w.tracks[k]
  {
  }
}
