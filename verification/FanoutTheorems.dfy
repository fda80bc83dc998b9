/** The order every subscriber sees, packet conservation, and a WriteRTP call that never waits for a subscriber. */
module FanoutTheorems {
  import opened Prelude
  import opened Fanout
  import opened FanoutOwnership
  import opened FanoutQueue
  import opened FanoutRuns

  // ---------------------------------------------------------------- in order, minus what met a full queue

  ghost predicate AllFlow(st: State) {
    forall i :: 0 <= i < |st.entries| ==> Flows(st.cap, See(st, i))
  }

  lemma {:induction false} FlowNext(st: State, a: Action, i: nat)
    requires Shaped(st) && i < |st.entries| && Flows(st.cap, See(st, i))
    ensures i < |Next(st, a).entries| && Flows(st.cap, See(Next(st, a), i))
  {
    SeeNext(st, a, i);
    var es := Project(st, a, i);
    if es != [] {
      QOne(st.cap, See(st, i), es[0]);
      if a.Serve? { assert TodoOk(st, a.p) && Ready(st, st.producers[a.p].todo[0]); }
      FlowsNext(st.cap, See(st, i), es[0]);
    }
  }

  lemma {:induction false} AllFlowNext(st: State, a: Action)
    requires Shaped(st) && AllFlow(st)
    ensures AllFlow(Next(st, a))
  {
    BornOne(st, a);
    forall i | 0 <= i < |Next(st, a).entries|
      ensures Flows(st.cap, See(Next(st, a), i))
    {
      if i < |st.entries| { FlowNext(st, a, i); } else { BornFlows(st.cap, See(Next(st, a), i)); }
    }
  }

  lemma BornFlows(cap: nat, q: Queue)
    requires q == Born(Running) || q == Born(Waiting)
    ensures Flows(cap, q)
  {
  }

  function Medias(offers: seq<Offer>): (s: seq<Media>)
    ensures |s| == |offers|
    ensures forall k :: 0 <= k < |offers| ==> s[k] == offers[k].m
  {
    seq(|offers|, k requires 0 <= k < |offers| => offers[k].m)
  }

  /** The packets handed to WriteRTP while entry i was attached, in order. */
  function InputsFor(inputs: seq<Input>, i: nat): seq<Media> {
    if inputs == [] then []
    else
      var last := inputs[|inputs| - 1];
      InputsFor(inputs[..|inputs| - 1], i) + (if i in last.snapshot then [last.m] else [])
  }

  /** The packet the running WriteRTP call has yet to offer entry i. */
  function Pending(st: State, i: nat): seq<Media> {
    if |st.producers| > 0 && st.producers[0].Fanning? && i in st.producers[0].todo then [st.producers[0].m] else []
  }

  ghost predicate Aligned(st: State, i: nat)
    requires i < |st.entries|
  {
    Medias(st.entries[i].h.offers) + Pending(st, i) == InputsFor(st.inputs, i)
  }

  lemma {:induction false} InputsForNew(inputs: seq<Input>, n: nat, i: nat)
    requires (forall k :: 0 <= k < |inputs| ==> Below(inputs[k].snapshot, n)) && i >= n
    ensures InputsFor(inputs, i) == []
    decreases |inputs|
  {
    if inputs != [] {
      assert Below(inputs[|inputs| - 1].snapshot, n);
      InputsForNew(inputs[..|inputs| - 1], n, i);
    }
  }

  /** Only a deciding step adds to an entry's offers. */
  lemma {:induction false} OffersNext(st: State, a: Action, i: nat)
    requires Shaped(st) && i < |st.entries|
    ensures i < |Next(st, a).entries|
    ensures Next(st, a).entries[i].h.offers == st.entries[i].h.offers
            || (a.Serve? && a.p < |st.producers| && Decides(st, a.p, i) && Next(st, a).producers[a.p] == Served(st.producers[a.p]) &&
                Medias(Next(st, a).entries[i].h.offers) == Medias(st.entries[i].h.offers) + [st.producers[a.p].m])
    ensures a.Serve? && a.p < |st.producers| && Decides(st, a.p, i) ==>
              Medias(Next(st, a).entries[i].h.offers) == Medias(st.entries[i].h.offers) + [st.producers[a.p].m]
  {
    if a.Serve? && a.p < |st.producers| { OffersServe(st, a.p, a.pick, i); } else { OffersStill(st, a, i); }
  }

  lemma {:induction false} OffersStill(st: State, a: Action, i: nat)
    requires i < |st.entries| && !(a.Serve? && a.p < |st.producers|)
    ensures i < |Next(st, a).entries| && Next(st, a).entries[i].h.offers == st.entries[i].h.offers
  {
    match a
    case Attach(_) => case Detach(_) => case NewQueue(_) => case Move(_, _) => case Install(_) => case Spawn =>
    case Begin(_, _, _) => case Serve(_, _) => case Forget(_) =>
    case Cancel(_) => case Take(_) => case Finish(_) => case Notice(_) => case Exit(_) =>
  }

  lemma OffersServe(st: State, p: nat, pick: Option<Cell>, i: nat)
    requires i < |st.entries| && p < |st.producers|
    ensures var v := ServeStep(st, p, pick);
            && i < |v.entries|
            && (if Decides(st, p, i)
                then v.producers[p] == Served(st.producers[p]) && Medias(v.entries[i].h.offers) == Medias(st.entries[i].h.offers) + [st.producers[p].m]
                else v.entries[i].h.offers == st.entries[i].h.offers)
  {
  }

  lemma {:induction false} InputsForMore(inputs: seq<Input>, x: Input, i: nat)
    ensures InputsFor(inputs + [x], i) == InputsFor(inputs, i) + (if i in x.snapshot then [x.m] else [])
  {
    assert (inputs + [x])[..|inputs|] == inputs;
  }

  /** A deciding step takes entry i off the list, and no other. */
  lemma {:induction false} ServedTodo(w: Producer, i: nat)
    requires w.Fanning? && w.todo != [] && Distinct(w.todo)
    ensures var x := Served(w);
            (x.Fanning? && i in x.todo) <==> (i in w.todo && i != w.todo[0])
    ensures Served(w).Fanning? ==> Served(w).m == w.m
  {
    if i in w.todo && i != w.todo[0] {
      var k :| 0 <= k < |w.todo| && w.todo[k] == i;
      assert w.todo[1..][k - 1] == i;
    }
  }

  lemma {:induction false} AlignedServe(st: State, p: nat, pick: Option<Cell>, i: nat)
    requires Shaped(st) && |st.producers| <= 1 && i < |st.entries| && Aligned(st, i) && p < |st.producers|
    ensures i < |Next(st, Serve(p, pick)).entries| && Aligned(Next(st, Serve(p, pick)), i)
  {
    var a := Serve(p, pick);
    OffersNext(st, a, i);
    ProducerNext(st, a, 0);
    InputsNext(st, a);
    ProducersGrow(st, a);
    var w := st.producers[0];
    assert TodoOk(st, 0);
    if w.Fanning? {
      assert ProducerOwns(st, 0) && Ready(st, w.todo[0]);
      ServedTodo(w, i);
      DecidesOne(st, 0, pick, i);
    }
  }

  /** The call moves on exactly when its current entry is decided. */
  lemma {:induction false} DecidesOne(st: State, p: nat, pick: Option<Cell>, i: nat)
    requires Owned(st) && p < |st.producers| && TodoOk(st, p) && st.producers[p].Fanning? && i < |st.entries|
    ensures var w, x := st.producers[p], ServeStep(st, p, pick).producers[p];
            && |ServeStep(st, p, pick).producers| == |st.producers|
            && (w.todo[0] == i ==> (Decides(st, p, i) <==> x == Served(w)))
            && (!(x == Served(w)) ==> x.Fanning? && x.todo == w.todo && x.m == w.m)
  {
    assert ProducerOwns(st, p) && Ready(st, st.producers[p].todo[0]);
  }

  lemma {:induction false} AlignedNext(st: State, a: Action, i: nat)
    requires Shaped(st) && |Next(st, a).producers| <= 1 && i < |st.entries| && Aligned(st, i)
    ensures i < |Next(st, a).entries| && Aligned(Next(st, a), i)
  {
    if a.Serve? && a.p < |st.producers| {
      ProducersGrow(st, a);
      AlignedServe(st, a.p, a.pick, i);
    } else {
      AlignedOther(st, a, i);
    }
  }

  lemma {:induction false} AlignedOther(st: State, a: Action, i: nat)
    requires Shaped(st) && |Next(st, a).producers| <= 1 && i < |st.entries| && Aligned(st, i)
    requires !(a.Serve? && a.p < |st.producers|)
    ensures i < |Next(st, a).entries| && Aligned(Next(st, a), i)
  {
    ProducersGrow(st, a);
    OffersStill(st, a, i);
    InputsNext(st, a);
    if |st.producers| > 0 {
      assert TodoOk(st, 0);
      ProducerNext(st, a, 0);
      if Next(st, a).inputs != st.inputs { InputsForMore(st.inputs, Input(a.m, a.snapshot), i); }
    }
  }

  ghost predicate AllAligned(st: State) {
    |st.producers| <= 1 ==> forall i :: 0 <= i < |st.entries| ==> Aligned(st, i)
  }

  lemma {:induction false} AlignedBorn(st: State, a: Action)
    requires Shaped(st) && |Next(st, a).entries| > |st.entries| && |Next(st, a).producers| <= 1
    ensures Aligned(Next(st, a), |st.entries|)
  {
    BornOne(st, a);
    ProducersGrow(st, a);
    InputsNext(st, a);
    InputsForNew(st.inputs, |st.entries|, |st.entries|);
    if |st.producers| > 0 {
      assert TodoOk(st, 0);
      ProducerNext(st, a, 0);
      if st.producers[0].Fanning? {
        assert forall k :: 0 <= k < |st.producers[0].todo| ==> Ready(st, st.producers[0].todo[k]);
      }
    }
    assert See(Next(st, a), |st.entries|).h.offers == [];
  }

  lemma {:induction false} AlignedAfter(st: State, a: Action, i: nat)
    requires Shaped(st) && AllAligned(st) && |Next(st, a).producers| <= 1 && i < |Next(st, a).entries|
    ensures Aligned(Next(st, a), i)
  {
    ProducersGrow(st, a);
    BornOne(st, a);
    if i < |st.entries| { AlignedNext(st, a, i); } else { AlignedBorn(st, a); }
  }

  lemma {:induction false} AllAlignedNext(st: State, a: Action)
    requires Shaped(st) && AllAligned(st)
    ensures AllAligned(Next(st, a))
  {
    if |Next(st, a).producers| <= 1 {
      forall i | 0 <= i < |Next(st, a).entries|
        ensures Aligned(Next(st, a), i)
      {
        AlignedAfter(st, a, i);
      }
    }
  }

  lemma {:induction false} OrderRun(st: State, run: seq<Action>)
    requires Shaped(st) && AllFlow(st) && AllAligned(st)
    ensures Shaped(Run(st, run)) && AllFlow(Run(st, run)) && AllAligned(Run(st, run)) && Run(st, run).cap == st.cap
    decreases |run|
  {
    if run != [] {
      ShapedNext(st, run[0]);
      AllFlowNext(st, run[0]);
      AllAlignedNext(st, run[0]);
      BornOne(st, run[0]);
      OrderRun(Next(st, run[0]), run[1..]);
    }
  }

  /**
   In every run, for every entry: what was written, then what is in hand, then what a rebuild moved away, then what
   waits, is exactly what a rebuild moved in followed by the offers that fitted, in order. With one WriteRTP caller
   the offers are exactly the packets it was given since the entry was attached, in order; and a packet is missing
   only because it met this entry's own full queue, which `dropped` counts.
   */
  lemma {:induction false} SubscriberOrder(cap: nat, run: seq<Action>, i: nat)
    requires i < |Run(Initial(cap), run).entries|
    ensures var st := Run(Initial(cap), run); var q := See(st, i);
            && q.h.movedIn + Accepted(q.h.offers) == q.h.written + Handed(q) + q.h.movedOut + q.waiting
            && q.dropped == Refused(q.h.offers)
            && |q.waiting| <= cap
            && (|st.producers| <= 1 ==> Medias(q.h.offers) + Pending(st, i) == InputsFor(st.inputs, i))
  {
    OrderRun(Initial(cap), run);
    var st := Run(Initial(cap), run);
    assert Flows(st.cap, See(st, i));
    if |st.producers| <= 1 { assert Aligned(st, i); }
  }

  // ---------------------------------------------------------------- slow subscribers never hold up a WriteRTP call

  /** Steps a WriteRTP call still needs at most. */
  function Work(w: Producer): nat {
    if w.Idle? then 0 else if w.clone.Some? && w.todo != [] then 2 * |w.todo| - 1 else 2 * |w.todo|
  }

  function StepsOf(run: seq<Action>, p: nat): nat {
    if run == [] then 0 else (if run[0].Serve? && run[0].p == p then 1 else 0) + StepsOf(run[1..], p)
  }

  predicate NoBegin(run: seq<Action>, p: nat) { forall k :: 0 <= k < |run| ==> !(run[k].Begin? && run[k].p == p) }

  lemma {:induction false} WorkNext(st: State, a: Action, p: nat)
    requires Shaped(st) && p < |st.producers| && !(a.Begin? && a.p == p)
    ensures p < |Next(st, a).producers|
    ensures Work(Next(st, a).producers[p]) <= Work(st.producers[p])
    ensures a.Serve? && a.p == p && st.producers[p].Fanning? ==> Work(Next(st, a).producers[p]) < Work(st.producers[p])
  {
    assert TodoOk(st, p);
    ProducerNext(st, a, p);
  }

  /** After two of its own steps per snapshotted entry the call has returned, whatever anybody else did or did not do. */
  lemma {:induction false} NeverBlocks(st: State, run: seq<Action>, p: nat)
    requires Shaped(st) && p < |st.producers| && NoBegin(run, p) && StepsOf(run, p) >= Work(st.producers[p])
    ensures p < |Run(st, run).producers| && Run(st, run).producers[p].Idle?
    decreases |run|
  {
    assert TodoOk(st, p);
    if run != [] {
      ShapedNext(st, run[0]);
      WorkNext(st, run[0], p);
      assert forall k :: 0 <= k < |run| - 1 ==> run[1..][k] == run[k + 1];
      NeverBlocks(Next(st, run[0]), run[1..], p);
    }
  }
}
