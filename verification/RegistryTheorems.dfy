/** Where every interleaving of publish_track and OnTrack ends, and exactly when it ends well. */
module RegistryTheorems {
  import opened Prelude
  import opened Registry

  lemma InitialInv(c: Config)
    requires Distinct(c)
    ensures Inv(c, Initial)
  {
  }

  lemma {:induction false} RunInv(c: Config, st: State, run: seq<Action>)
    requires Inv(c, st) && Distinct(c)
    ensures Inv(c, Run(c, st, run))
    decreases |run|
  {
    if run != [] {
      NextInv(c, st, run[0]);
      RunInv(c, Next(c, st, run[0]), run[1..]);
    }
  }

  lemma {:induction false} RunAppend(c: Config, st: State, a: seq<Action>, b: seq<Action>)
    ensures Run(c, st, a + b) == Run(c, Run(c, st, a), b)
    decreases |a|
  {
    if a == [] {
      assert a + b == b;
    } else {
      assert (a + b)[0] == a[0] && (a + b)[1..] == a[1..] + b;
      RunAppend(c, Next(c, st, a[0]), a[1..], b);
    }
  }

  /** At no moment do two forwarders read the same remote track, and none reads another participant's or kind's. */
  lemma {:induction false} OneReader(c: Config, run: seq<Action>, i: Id, j: Id)
    requires Distinct(c)
    requires var fs := Run(c, Initial, run).forwarders; i in fs && j in fs && fs[i].remote && fs[i] == fs[j]
    ensures i == j
    ensures var s := Run(c, Initial, run).forwarders[i].owner; s in c.slots && (i == c.sig(s) || i == c.wire(s))
  {
    InitialInv(c);
    RunInv(c, Initial, run);
    var st := Run(c, Initial, run);
    OwnerByKey(c, st, i);
    OwnerByKey(c, st, j);
    var s := st.forwarders[i].owner;
    assert SlotInv(c, s, See(c, st, s));
  }

  lemma {:induction false} OwnerByKey(c: Config, st: State, id: Id)
    requires Inv(c, st) && Distinct(c) && id in st.forwarders
    ensures var s := st.forwarders[id].owner; s in c.slots && (id == c.sig(s) || id == c.wire(s))
  {
    var s :| s in c.slots && (id == c.sig(s) || id == c.wire(s));
    assert SlotInv(c, s, See(c, st, s));
  }

  // ---------------------------------------------------------------- when all handlers have returned

  ghost predicate Finished(c: Config, st: State) {
    forall s :: s in c.slots ==> PublishingOf(st, s).Published? && ArrivingOf(st, s).Arrived?
  }

  /** One forwarder per track, under its signaled ID and reading its real media; nothing else. */
  ghost predicate OneEach(c: Config, fs: map<Id, Forwarder>) {
    && (forall s :: s in c.slots ==> Under(fs, c.sig(s)) == Some(Forwarder(s, true)))
    && (forall id :: id in fs ==> exists s :: s in c.slots && id == c.sig(s))
  }

  /** The i-th step is the scan of s, taken after OnTrack chose the wire ID and before it stored its forwarder. */
  predicate RacesAt(c: Config, run: seq<Action>, i: nat, s: Slot)
    requires i < |run|
  {
    run[i].Publish? && run[i].s == s && s in c.slots && RaceNow(c, Run(c, Initial, run[..i]), s)
  }

  ghost predicate Races(c: Config, run: seq<Action>, s: Slot) {
    exists i :: 0 <= i < |run| && RacesAt(c, run, i, s)
  }

  lemma {:induction false} RacedStep(c: Config, st: State, a: Action, s: Slot)
    requires Inv(c, st) && Distinct(c) && s in c.slots
    ensures s in Next(c, st, a).raced <==> (s in st.raced || (a.Publish? && a.s == s && RaceNow(c, st, s)))
  {
    if a.Publish? && a.s == s && PublishingOf(st, s).Scanning? {
      assert SlotInv(c, s, See(c, st, s));
      ScanEffect(c, st, s, a.pick);
    } else {
      RacedElsewhere(c, st, a, s);
    }
  }

  lemma RacedElsewhere(c: Config, st: State, a: Action, s: Slot)
    requires !(a.Publish? && a.s == s && PublishingOf(st, s).Scanning?)
    ensures s in Next(c, st, a).raced <==> s in st.raced
  {
  }

  /** The history variable means what it says. */
  lemma {:induction false} RacedIffRaces(c: Config, run: seq<Action>, s: Slot)
    requires Distinct(c) && s in c.slots
    ensures s in Run(c, Initial, run).raced <==> Races(c, run, s)
    decreases |run|
  {
    if run != [] {
      var n := |run| - 1;
      var before := run[..n];
      InitialInv(c);
      RunInv(c, Initial, before);
      RacedIffRaces(c, before, s);
      assert run == before + [run[n]];
      RunAppend(c, Initial, before, [run[n]]);
      assert Run(c, Run(c, Initial, before), [run[n]]) == Next(c, Run(c, Initial, before), run[n]);
      RacedStep(c, Run(c, Initial, before), run[n], s);
      RacesLast(c, run, s);
    }
  }

  lemma {:induction false} RacesLast(c: Config, run: seq<Action>, s: Slot)
    requires run != []
    ensures var n := |run| - 1; Races(c, run, s) <==> Races(c, run[..n], s) || RacesAt(c, run, n, s)
  {
    var n := |run| - 1;
    assert forall i :: 0 <= i < n ==> run[..n][..i] == run[..i];
    forall i | 0 <= i < n
      ensures RacesAt(c, run, i, s) <==> RacesAt(c, run[..n], i, s)
    {
    }
    if Races(c, run[..n], s) {
      var i :| 0 <= i < n && RacesAt(c, run[..n], i, s);
      assert RacesAt(c, run, i, s);
    }
    if Races(c, run, s) {
      var i :| 0 <= i < |run| && RacesAt(c, run, i, s);
      assert i == n || RacesAt(c, run[..n], i, s);
    }
  }

  /**
   Where each track ends. Without the race: one forwarder, under the signaled ID, reading the real media. With it:
   a placeholder that never gets media under the signaled ID, and the media under the wire ID.
   */
  lemma {:induction false} WhereTracksEnd(c: Config, run: seq<Action>, s: Slot)
    requires Distinct(c) && s in c.slots
    requires PublishingOf(Run(c, Initial, run), s).Published? && ArrivingOf(Run(c, Initial, run), s).Arrived?
    ensures var fs := Run(c, Initial, run).forwarders;
            if Races(c, run, s)
            then c.wire(s) != c.sig(s) && Under(fs, c.sig(s)) == Some(Forwarder(s, false)) && Under(fs, c.wire(s)) == Some(Forwarder(s, true))
            else Under(fs, c.sig(s)) == Some(Forwarder(s, true)) && (c.wire(s) != c.sig(s) ==> Under(fs, c.wire(s)) == None)
  {
    InitialInv(c);
    RunInv(c, Initial, run);
    RacedIffRaces(c, run, s);
    assert SlotInv(c, s, See(c, Run(c, Initial, run), s));
  }

  /** Every finished interleaving, for any number of tracks, ends well exactly when no publish races its own OnTrack. */
  lemma {:induction false} ConvergesIff(c: Config, run: seq<Action>)
    requires Distinct(c) && Finished(c, Run(c, Initial, run))
    ensures OneEach(c, Run(c, Initial, run).forwarders) <==> forall s :: s in c.slots ==> !Races(c, run, s)
  {
    var st := Run(c, Initial, run);
    forall s | s in c.slots
      ensures Races(c, run, s) <==> Under(st.forwarders, c.sig(s)) == Some(Forwarder(s, false))
      ensures !Races(c, run, s) <==> Under(st.forwarders, c.sig(s)) == Some(Forwarder(s, true))
      ensures !Races(c, run, s) && c.wire(s) != c.sig(s) ==> c.wire(s) !in st.forwarders
    {
      WhereTracksEnd(c, run, s);
    }
    InitialInv(c);
    RunInv(c, Initial, run);
    if forall s :: s in c.slots ==> !Races(c, run, s) {
      forall id | id in st.forwarders
        ensures exists s :: s in c.slots && id == c.sig(s)
      {
        OwnerByKey(c, st, id);
      }
    }
  }

  // ---------------------------------------------------------------- whole events

  datatype Event = PublishTrack(s: Slot) | OnTrack(s: Slot)

  function Steps(c: Config, e: Event): seq<Action> {
    match e
    case PublishTrack(s) => Repeat(Publish(s, c.wire(s)), 5)
    case OnTrack(s) => Repeat(Arrive(s), 3)
  }

  function Repeat(a: Action, n: nat): seq<Action> { if n == 0 then [] else [a] + Repeat(a, n - 1) }

  function AllSteps(c: Config, events: seq<Event>): seq<Action> {
    if events == [] then [] else Steps(c, events[0]) + AllSteps(c, events[1..])
  }

  /** Between events: no handler is half way, and nothing raced. */
  ghost predicate Resting(c: Config, st: State) {
    && Inv(c, st) && st.raced == {}
    && forall s :: s in c.slots ==>
         (PublishingOf(st, s).Unpublished? || PublishingOf(st, s).Published?) &&
         (ArrivingOf(st, s).Absent? || ArrivingOf(st, s).Arrived?)
  }

  lemma {:induction false} PublishQuiet(c: Config, st: State, s: Slot)
    requires Inv(c, st) && Distinct(c) && s in c.slots && !ArrivingOf(st, s).Named?
    ensures var v := Next(c, st, Publish(s, c.wire(s)));
            && v.raced == st.raced && Elsewhere(c, st, v, s) && Inv(c, v)
            && See(c, v, s) == PublishView(s, c.sig(s), c.wire(s), See(c, st, s))
            && ArrivingOf(v, s) == ArrivingOf(st, s)
  {
    NextInv(c, st, Publish(s, c.wire(s)));
    assert SlotInv(c, s, See(c, st, s));
    if PublishingOf(st, s).Scanning? {
      ScanEffect(c, st, s, c.wire(s));
      ScanSeen(c, st, s, c.wire(s));
    } else {
      PublishSeen(c, st, s, c.wire(s));
    }
  }

  lemma ElsewhereTwice(c: Config, st: State, v: State, u: State, s: Slot)
    requires Elsewhere(c, st, v, s) && Elsewhere(c, v, u, s)
    ensures Elsewhere(c, st, u, s)
  {
  }

  lemma {:induction false} RunRepeat(c: Config, st: State, a: Action, n: nat)
    requires n > 0
    ensures Run(c, st, Repeat(a, n)) == Run(c, Next(c, st, a), Repeat(a, n - 1))
  {
    assert Repeat(a, n)[1..] == Repeat(a, n - 1);
  }

  lemma {:induction false} ArriveQuiet(c: Config, st: State, s: Slot)
    requires Inv(c, st) && Distinct(c) && s in c.slots
    ensures var v := Next(c, st, Arrive(s));
            && v.raced == st.raced && Elsewhere(c, st, v, s) && Inv(c, v)
            && See(c, v, s) == ArriveView(s, c.sig(s), c.wire(s), See(c, st, s))
  {
    NextInv(c, st, Arrive(s));
    assert SlotInv(c, s, See(c, st, s));
    ArriveSeen(c, st, s);
  }

  function PublishViews(s: Slot, g: Id, w: Id, v: View, n: nat): View
    decreases n
  {
    if n == 0 then v else PublishViews(s, g, w, PublishView(s, g, w, v), n - 1)
  }

  function ArriveViews(s: Slot, g: Id, w: Id, v: View, n: nat): View
    decreases n
  {
    if n == 0 then v else ArriveViews(s, g, w, ArriveView(s, g, w, v), n - 1)
  }

  lemma {:induction false} PublishMany(c: Config, st: State, s: Slot, n: nat)
    requires Inv(c, st) && Distinct(c) && s in c.slots && !ArrivingOf(st, s).Named?
    ensures var v := Run(c, st, Repeat(Publish(s, c.wire(s)), n));
            && v.raced == st.raced && Elsewhere(c, st, v, s) && Inv(c, v)
            && See(c, v, s) == PublishViews(s, c.sig(s), c.wire(s), See(c, st, s), n)
    decreases n
  {
    if n != 0 {
      var a := Publish(s, c.wire(s));
      var v := Next(c, st, a);
      PublishQuiet(c, st, s);
      PublishMany(c, v, s, n - 1);
      RunRepeat(c, st, a, n);
      PublishOnward(c, st, v, Run(c, v, Repeat(a, n - 1)), s, n);
    }
  }

  /** One publish step and n - 1 more. */
  lemma {:induction false} PublishOnward(c: Config, st: State, v: State, u: State, s: Slot, n: nat)
    requires n > 0 && Elsewhere(c, st, v, s) && Elsewhere(c, v, u, s)
    requires See(c, v, s) == PublishView(s, c.sig(s), c.wire(s), See(c, st, s))
    requires See(c, u, s) == PublishViews(s, c.sig(s), c.wire(s), See(c, v, s), n - 1)
    ensures Elsewhere(c, st, u, s) && See(c, u, s) == PublishViews(s, c.sig(s), c.wire(s), See(c, st, s), n)
  {
    ElsewhereTwice(c, st, v, u, s);
  }

  lemma {:induction false} ArriveMany(c: Config, st: State, s: Slot, n: nat)
    requires Inv(c, st) && Distinct(c) && s in c.slots
    ensures var v := Run(c, st, Repeat(Arrive(s), n));
            && v.raced == st.raced && Elsewhere(c, st, v, s) && Inv(c, v)
            && See(c, v, s) == ArriveViews(s, c.sig(s), c.wire(s), See(c, st, s), n)
    decreases n
  {
    if n != 0 {
      var v := Next(c, st, Arrive(s));
      ArriveQuiet(c, st, s);
      ArriveMany(c, v, s, n - 1);
      RunRepeat(c, st, Arrive(s), n);
      ElsewhereTwice(c, st, v, Run(c, v, Repeat(Arrive(s), n - 1)), s);
    }
  }

  /** Five steps see a publish through, three an arrival. */
  lemma {:induction false} PublishEnds(s: Slot, g: Id, w: Id, v: View)
    requires v.p.Unpublished? || v.p.Published?
    ensures var r := PublishViews(s, g, w, v, 5); r.p.Published? && r.a == v.a
  {
    var v1 := PublishView(s, g, w, v);
    var v2 := PublishView(s, g, w, v1);
    var v3 := PublishView(s, g, w, v2);
    assert PublishViews(s, g, w, v, 5) == PublishViews(s, g, w, v1, 4) == PublishViews(s, g, w, v2, 3);
    assert PublishViews(s, g, w, v2, 3) == PublishViews(s, g, w, v3, 2);
  }

  lemma {:induction false} ArriveEnds(s: Slot, g: Id, w: Id, v: View)
    requires v.a.Absent? || v.a.Arrived?
    ensures var r := ArriveViews(s, g, w, v, 3); r.a.Arrived? && r.p == v.p
  {
    var v1 := ArriveView(s, g, w, v);
    assert ArriveViews(s, g, w, v, 3) == ArriveViews(s, g, w, v1, 2);
  }

  lemma {:induction false} EventWhole(c: Config, st: State, e: Event)
    requires Resting(c, st) && Distinct(c) && e.s in c.slots
    ensures var v := Run(c, st, Steps(c, e));
            && Inv(c, v) && v.raced == {} && Elsewhere(c, st, v, e.s)
            && (PublishingOf(v, e.s) == if e.PublishTrack? then Published else PublishingOf(st, e.s))
            && (if e.OnTrack? then ArrivingOf(v, e.s).Arrived? else ArrivingOf(v, e.s) == ArrivingOf(st, e.s))
  {
    var v := Run(c, st, Steps(c, e));
    assert See(c, v, e.s).p == PublishingOf(v, e.s) && See(c, v, e.s).a == ArrivingOf(v, e.s);
    if e.PublishTrack? {
      PublishMany(c, st, e.s, 5);
      PublishEnds(e.s, c.sig(e.s), c.wire(e.s), See(c, st, e.s));
    } else {
      ArriveMany(c, st, e.s, 3);
      ArriveEnds(e.s, c.sig(e.s), c.wire(e.s), See(c, st, e.s));
    }
  }

  lemma {:induction false} EventsRest(c: Config, st: State, events: seq<Event>)
    requires Resting(c, st) && Distinct(c) && (forall i :: 0 <= i < |events| ==> events[i].s in c.slots)
    ensures Resting(c, Run(c, st, AllSteps(c, events)))
    ensures forall s :: s in c.slots && (PublishTrack(s) in events || PublishingOf(st, s).Published?) ==>
              PublishingOf(Run(c, st, AllSteps(c, events)), s).Published?
    ensures forall s :: s in c.slots && (OnTrack(s) in events || ArrivingOf(st, s).Arrived?) ==>
              ArrivingOf(Run(c, st, AllSteps(c, events)), s).Arrived?
    decreases |events|
  {
    if events != [] {
      var e := events[0];
      EventWhole(c, st, e);
      var v := Run(c, st, Steps(c, e));
      RunAppend(c, st, Steps(c, e), AllSteps(c, events[1..]));
      EventsRest(c, v, events[1..]);
    }
  }

  /** Whole events in any order, any number of tracks: each track ends with its one forwarder and no orphan is left. */
  lemma {:induction false} EventsConverge(c: Config, events: seq<Event>)
    requires Distinct(c) && (forall i :: 0 <= i < |events| ==> events[i].s in c.slots)
    requires forall s :: s in c.slots ==> PublishTrack(s) in events && OnTrack(s) in events
    ensures OneEach(c, Run(c, Initial, AllSteps(c, events)).forwarders)
  {
    InitialInv(c);
    EventsRest(c, Initial, events);
    var run := AllSteps(c, events);
    forall s | s in c.slots
      ensures !Races(c, run, s)
    {
      RacedIffRaces(c, run, s);
    }
    ConvergesIff(c, run);
  }

  // ---------------------------------------------------------------- the race happens

  /** OnTrack picks the wire ID, publish_track runs up to its scan, OnTrack stores, publish_track places. */
  function RacingRun(c: Config, s: Slot): seq<Action> {
    var p := Publish(s, c.wire(s));
    [Arrive(s), p, p, p, Arrive(s), p]
  }

  lemma {:induction false} RaceLosesMedia(c: Config, s: Slot)
    requires Distinct(c) && c.slots == {s} && c.wire(s) != c.sig(s)
    ensures var st := Run(c, Initial, RacingRun(c, s));
            && Finished(c, st) && Races(c, RacingRun(c, s), s)
            && st.forwarders == map[c.sig(s) := Forwarder(s, false), c.wire(s) := Forwarder(s, true)]
  {
    var p := Publish(s, c.wire(s));
    RaceFirstHalf(c, s);
    RunAppend(c, Initial, [Arrive(s), p, p, p], [Arrive(s), p]);
    assert RacingRun(c, s) == [Arrive(s), p, p, p] + [Arrive(s), p];
    RaceSecondHalf(c, s);
    RacedIffRaces(c, RacingRun(c, s), s);
  }

  lemma {:induction false} RaceFirstHalf(c: Config, s: Slot)
    requires c.slots == {s} && c.wire(s) != c.sig(s)
    ensures var p := Publish(s, c.wire(s));
            Run(c, Initial, [Arrive(s), p, p, p]) == State(map[], map[s := Placing], map[s := Named(c.wire(s))], {s})
  {
    var p := Publish(s, c.wire(s));
    var s1 := Next(c, Initial, Arrive(s));
    assert s1 == State(map[], map[], map[s := Named(c.wire(s))], {});
    var s3 := Next(c, Next(c, s1, p), p);
    assert s3 == State(map[], map[s := Scanning], map[s := Named(c.wire(s))], {});
    var s4 := Next(c, s3, p);
    assert Run(c, Initial, [Arrive(s), p, p, p]) == Run(c, s1, [p, p, p]) == Run(c, s3, [p]) == s4;
  }

  lemma {:induction false} RaceSecondHalf(c: Config, s: Slot)
    requires c.slots == {s} && c.wire(s) != c.sig(s)
    ensures var p := Publish(s, c.wire(s));
            var st := State(map[], map[s := Placing], map[s := Named(c.wire(s))], {s});
            Run(c, st, [Arrive(s), p]) ==
              State(map[c.wire(s) := Forwarder(s, true), c.sig(s) := Forwarder(s, false)],
                    map[s := Published], map[s := Arrived(c.wire(s))], {s})
  {
    var p := Publish(s, c.wire(s));
    var st := State(map[], map[s := Placing], map[s := Named(c.wire(s))], {s});
    var s1 := Next(c, st, Arrive(s));
    assert s1.forwarders == map[c.wire(s) := Forwarder(s, true)];
    assert Run(c, st, [Arrive(s), p]) == Run(c, s1, [p]) == Next(c, s1, p);
  }
}
