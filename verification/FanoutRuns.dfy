/** Whole runs of the fan-out: isolation and order, pool ownership, and a WriteRTP call that never waits. */
module FanoutRuns {
  import opened Prelude
  import opened Fanout
  import opened FanoutOwnership
  import opened FanoutQueue

  // ---------------------------------------------------------------- shape of reachable states

  predicate Ready(st: State, i: nat) { i < |st.entries| && !st.entries[i].writer.Waiting? }

  predicate Listed(st: State) {
    forall pc :: pc in st.subscribers ==> Ready(st, st.subscribers[pc]) && st.entries[st.subscribers[pc]].pc == pc
  }

  predicate TodoOk(st: State, p: nat)
    requires p < |st.producers|
  {
    var w := st.producers[p];
    w.Fanning? ==> w.todo != [] && Distinct(w.todo) && forall k :: 0 <= k < |w.todo| ==> Ready(st, w.todo[k])
  }

  predicate Below(s: seq<nat>, n: nat) { forall k :: 0 <= k < |s| ==> s[k] < n }

  ghost predicate Shaped(st: State) {
    && Owned(st) && Listed(st)
    && (forall p :: 0 <= p < |st.producers| ==> TodoOk(st, p))
    && (forall n :: 0 <= n < |st.inputs| ==> Below(st.inputs[n].snapshot, |st.entries|))
  }

  /** Entries never go away, change hands, or lose their writer's start. */
  lemma {:induction false} EntriesLast(st: State, a: Action, i: nat)
    requires i < |st.entries|
    ensures i < |Next(st, a).entries| && Next(st, a).entries[i].pc == st.entries[i].pc
    ensures Ready(st, i) ==> Ready(Next(st, a), i)
  {
    match a
    case Attach(_) => case Detach(_) => case NewQueue(_) => case Move(_, _) => case Install(_) => case Spawn =>
    case Begin(_, _, _) => case Serve(_, _) => case Forget(_) =>
    case Cancel(_) => case Take(_) => case Finish(_) => case Notice(_) => case Exit(_) =>
  }

  lemma {:induction false} ListedNext(st: State, a: Action)
    requires Listed(st)
    ensures Listed(Next(st, a))
  {
    var v := Next(st, a);
    forall pc | pc in v.subscribers
      ensures Ready(v, v.subscribers[pc]) && v.entries[v.subscribers[pc]].pc == pc
    {
      if pc in st.subscribers && v.subscribers[pc] == st.subscribers[pc] {
        EntriesLast(st, a, st.subscribers[pc]);
      }
    }
  }

  /** What a step does to one WriteRTP call. */
  lemma {:induction false} ProducerNext(st: State, a: Action, p: nat)
    requires Owned(st) && p < |st.producers| && TodoOk(st, p)
    ensures p < |Next(st, a).producers|
    ensures var w, x := st.producers[p], Next(st, a).producers[p];
            || (x == w && (w.Fanning? ==> !(a.Serve? && a.p == p)))
            || (w.Idle? && a.Begin? && a.p == p && x == Fanning(a.m, a.snapshot, None) && SnapshotOf(st, a.snapshot) && a.snapshot != [])
            || (w.Fanning? && w.todo != [] && a.Serve? && a.p == p && (x == Served(w) || (w.clone.None? && x.Fanning? && x == w.(clone := x.clone) && x.clone.Some?)))
  {
    match a
    case Serve(k, pick) => if k == p { assert ProducerOwns(st, p); }
    case Begin(_, _, _) =>
    case Move(_, _) => case Take(_) => case Finish(_) =>
    case _ =>
  }

  lemma {:induction false} TodoNext(st: State, a: Action, p: nat)
    requires Owned(st) && Listed(st) && p < |st.producers| && TodoOk(st, p)
    ensures p < |Next(st, a).producers| && TodoOk(Next(st, a), p)
  {
    ProducerNext(st, a, p);
    var w, x, v := st.producers[p], Next(st, a).producers[p], Next(st, a);
    if x.Fanning? {
      forall k | 0 <= k < |x.todo|
        ensures Ready(v, x.todo[k])
      {
        if w.Idle? {
          assert x.todo[k] in st.subscribers.Values;
          var pc :| pc in st.subscribers && st.subscribers[pc] == x.todo[k];
        }
        assert Ready(st, x.todo[k]);
        EntriesLast(st, a, x.todo[k]);
      }
    }
  }

  lemma {:induction false} SnapshotsNext(st: State, a: Action)
    requires Listed(st) && forall n :: 0 <= n < |st.inputs| ==> Below(st.inputs[n].snapshot, |st.entries|)
    ensures forall n :: 0 <= n < |Next(st, a).inputs| ==> Below(Next(st, a).inputs[n].snapshot, |Next(st, a).entries|)
  {
    var v := Next(st, a);
    InputsNext(st, a);
    if |st.entries| > 0 { EntriesLast(st, a, |st.entries| - 1); }
    if v.inputs != st.inputs {
      forall k | 0 <= k < |a.snapshot|
        ensures a.snapshot[k] < |st.entries|
      {
        assert a.snapshot[k] in st.subscribers.Values;
        var pc :| pc in st.subscribers && st.subscribers[pc] == a.snapshot[k];
      }
    }
  }

  lemma {:induction false} InputsNext(st: State, a: Action)
    ensures Next(st, a).inputs == st.inputs
            || (a.Begin? && a.p < |st.producers| && st.producers[a.p].Idle? && SnapshotOf(st, a.snapshot) && a.snapshot != [] &&
                Next(st, a) == BeginStep(st, a.p, a.m, a.snapshot) && Next(st, a).inputs == st.inputs + [Input(a.m, a.snapshot)])
  {
    match a
    case Attach(_) => case Detach(_) => case NewQueue(_) => case Move(_, _) => case Install(_) => case Spawn =>
    case Begin(_, _, _) => case Serve(_, _) => case Forget(_) =>
    case Cancel(_) => case Take(_) => case Finish(_) => case Notice(_) => case Exit(_) =>
  }

  lemma {:induction false} ProducersGrow(st: State, a: Action)
    ensures |Next(st, a).producers| == |st.producers| + if a.Spawn? then 1 else 0
    ensures a.Spawn? ==> Next(st, a).producers == st.producers + [Idle]
  {
    match a
    case Attach(_) => case Detach(_) => case NewQueue(_) => case Move(_, _) => case Install(_) => case Spawn =>
    case Begin(_, _, _) => case Serve(_, _) => case Forget(_) =>
    case Cancel(_) => case Take(_) => case Finish(_) => case Notice(_) => case Exit(_) =>
  }

  lemma {:induction false} ShapedNext(st: State, a: Action)
    requires Shaped(st)
    ensures Shaped(Next(st, a))
  {
    OwnedNext(st, a);
    ListedNext(st, a);
    SnapshotsNext(st, a);
    ProducersGrow(st, a);
    forall p | 0 <= p < |Next(st, a).producers|
      ensures TodoOk(Next(st, a), p)
    {
      if p < |st.producers| { TodoNext(st, a, p); }
    }
  }

  lemma {:induction false} ShapedRun(st: State, run: seq<Action>)
    requires Shaped(st)
    ensures Shaped(Run(st, run))
    decreases |run|
  {
    if run != [] {
      ShapedNext(st, run[0]);
      ShapedRun(Next(st, run[0]), run[1..]);
    }
  }

  // ---------------------------------------------------------------- pool ownership

  /** Cell c is used at place w right now. */
  predicate UsedAt(st: State, c: Cell, w: Place) {
    match w
    case Pooled => c in st.pool
    case InQueue(e) => e < |st.entries| && c in st.entries[e].queue
    case InHand(e) => e < |st.entries| && st.entries[e].hand == Some(c)
    case WithProducer(p) => p < |st.producers| && st.producers[p].Fanning? && st.producers[p].clone == Some(c)
    case Collected => false
  }

  /** In every reachable state a packet struct is used in at most one place, once, and is zeroed exactly in the pool. */
  lemma {:induction false} PoolOwnership(cap: nat, run: seq<Action>, c: Cell, w: Place, x: Place)
    requires UsedAt(Run(Initial(cap), run), c, w)
    ensures UsedAt(Run(Initial(cap), run), c, x) ==> x == w
    ensures w.InQueue? ==> Distinct(Run(Initial(cap), run).entries[w.e].queue)
    ensures c < |Run(Initial(cap), run).heap| && (Run(Initial(cap), run).heap[c] == None <==> w == Pooled)
  {
    ShapedRun(Initial(cap), run);
    var st := Run(Initial(cap), run);
    UsedPlace(st, c, w);
    if UsedAt(st, c, x) { UsedPlace(st, c, x); }
  }

  lemma {:induction false} UsedPlace(st: State, c: Cell, w: Place)
    requires Owned(st) && UsedAt(st, c, w)
    ensures c < |st.heap| && c < |st.place| && st.place[c] == w && (st.heap[c] == None <==> w == Pooled)
    ensures w.InQueue? ==> w.e < |st.entries| && Distinct(st.entries[w.e].queue)
  {
    match w
    case InQueue(e) =>
      assert EntryOwns(st, e);
      var k :| 0 <= k < |st.entries[e].queue| && st.entries[e].queue[k] == c;
      assert Holds(st, st.entries[e].queue[k], InQueue(e));
    case InHand(e) => assert EntryOwns(st, e);
    case WithProducer(p) => assert ProducerOwns(st, p);
    case Pooled =>
  }

  // ---------------------------------------------------------------- isolation

  function ProjectRun(st: State, run: seq<Action>, i: nat): seq<Event>
    decreases |run|
  {
    if run == [] then []
    else (if i < |st.entries| then Project(st, run[0], i) else []) + ProjectRun(Next(st, run[0]), run[1..], i)
  }

  lemma {:induction false} QRunAppend(cap: nat, q: Queue, a: seq<Event>, b: seq<Event>)
    ensures QRun(cap, q, a + b) == QRun(cap, QRun(cap, q, a), b)
    decreases |a|
  {
    if a == [] {
      assert a + b == b;
    } else {
      assert (a + b)[0] == a[0] && (a + b)[1..] == a[1..] + b;
      QRunAppend(cap, QNext(cap, q, a[0]), a[1..], b);
    }
  }

  /** Whatever every other part of the forwarder does, an entry's run is the run of one bounded queue. */
  lemma {:induction false} SeenAsOneQueue(st: State, run: seq<Action>, i: nat)
    requires Shaped(st) && i < |st.entries|
    ensures i < |Run(st, run).entries|
    ensures See(Run(st, run), i) == QRun(st.cap, See(st, i), ProjectRun(st, run, i))
    decreases |run|
  {
    if run != [] {
      var v := Next(st, run[0]);
      ShapedNext(st, run[0]);
      SeeNext(st, run[0], i);
      SeenAsOneQueue(v, run[1..], i);
      QRunAppend(st.cap, See(st, i), Project(st, run[0], i), ProjectRun(v, run[1..], i));
    }
  }

  function Born(w: Writer): Queue { Empty.(writer := w) }

  /** q is what these events make of an empty queue, its writer running or still to be started. */
  predicate LifeOf(cap: nat, q: Queue, es: seq<Event>) {
    q == QRun(cap, Born(Running), es) || q == QRun(cap, Born(Waiting), es)
  }

  lemma {:induction false} BornLife(st: State, run: seq<Action>, i: nat)
    requires Shaped(st) && i < |st.entries| && (See(st, i) == Born(Running) || See(st, i) == Born(Waiting))
    ensures i < |Run(st, run).entries| && LifeOf(st.cap, See(Run(st, run), i), ProjectRun(st, run, i))
  {
    SeenAsOneQueue(st, run, i);
  }

  lemma ProjectBefore(st: State, run: seq<Action>, i: nat)
    requires run != [] && i >= |st.entries|
    ensures ProjectRun(st, run, i) == ProjectRun(Next(st, run[0]), run[1..], i)
  {
  }

  /** From the start: the queue is born empty, and its whole life is its own projected events. */
  lemma {:induction false} IsolatedFromStart(st: State, run: seq<Action>, i: nat)
    requires Shaped(st) && i >= |st.entries| && i < |Run(st, run).entries|
    ensures LifeOf(st.cap, See(Run(st, run), i), ProjectRun(st, run, i))
    decreases |run|
  {
    if run != [] {
      ShapedNext(st, run[0]);
      BornOne(st, run[0]);
      ProjectBefore(st, run, i);
      if i < |Next(st, run[0]).entries| {
        BornLife(Next(st, run[0]), run[1..], i);
      } else {
        IsolatedFromStart(Next(st, run[0]), run[1..], i);
      }
    }
  }

  /** At most one entry is created per step, and it is born empty. */
  lemma {:induction false} BornOne(st: State, a: Action)
    ensures var v := Next(st, a);
            && |st.entries| <= |v.entries| <= |st.entries| + 1 && v.cap == st.cap
            && (|v.entries| > |st.entries| ==>
                  See(v, |st.entries|) == Born(Running) || See(v, |st.entries|) == Born(Waiting))
  {
    match a
    case Attach(_) => case Detach(_) => case NewQueue(_) => case Move(_, _) => case Install(_) => case Spawn =>
    case Begin(_, _, _) => case Serve(_, _) => case Forget(_) =>
    case Cancel(_) => case Take(_) => case Finish(_) => case Notice(_) => case Exit(_) =>
  }
}
