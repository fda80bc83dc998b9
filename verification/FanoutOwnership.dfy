/** Every packet struct is in one place: the pool, one queue, one writer's hand, or one WriteRTP call. */
module FanoutOwnership {
  import opened Prelude
  import opened Fanout

  predicate Holds(st: State, c: Cell, w: Place) {
    c < |st.heap| && c < |st.place| && st.place[c] == w && st.heap[c].Some?
  }

  predicate Distinct(q: seq<Cell>) { forall a, b :: 0 <= a < b < |q| ==> q[a] != q[b] }

  predicate EntryOwns(st: State, i: nat)
    requires i < |st.entries|
  {
    var e := st.entries[i];
    && (forall k :: 0 <= k < |e.queue| ==> Holds(st, e.queue[k], InQueue(i)))
    && Distinct(e.queue)
    && (e.hand.Some? ==> Holds(st, e.hand.value, InHand(i)))
  }

  predicate ProducerOwns(st: State, p: nat)
    requires p < |st.producers|
  {
    var w := st.producers[p];
    w.Fanning? && w.clone.Some? ==> Holds(st, w.clone.value, WithProducer(p)) && st.heap[w.clone.value] == Some(w.m)
  }

  predicate PoolOwns(st: State) {
    forall c :: c in st.pool ==> c < |st.heap| && c < |st.place| && st.place[c] == Pooled && st.heap[c] == None
  }

  ghost predicate Owned(st: State) {
    && |st.heap| == |st.place|
    && (forall i :: 0 <= i < |st.entries| ==> EntryOwns(st, i))
    && (forall p :: 0 <= p < |st.producers| ==> ProducerOwns(st, p))
    && PoolOwns(st)
  }

  /** Only cell c changed; others may be new. */
  predicate OnlyCell(st: State, v: State, c: Cell) {
    && |st.heap| == |st.place| && |v.heap| == |v.place| && |st.heap| <= |v.heap|
    && (forall k :: 0 <= k < |st.heap| && k != c ==> v.heap[k] == st.heap[k])
    && (forall k :: 0 <= k < |st.heap| && k != c ==> v.place[k] == st.place[k])
  }

  /** Cell c is not this entry's. */
  predicate Foreign(st: State, c: Cell, i: nat) {
    c < |st.place| ==> st.place[c] != InQueue(i) && st.place[c] != InHand(i)
  }

  lemma EntryFrame(st: State, v: State, c: Cell, i: nat)
    requires OnlyCell(st, v, c) && i < |st.entries| && i < |v.entries| && Foreign(st, c, i) && EntryOwns(st, i)
    requires v.entries[i].queue == st.entries[i].queue && v.entries[i].hand == st.entries[i].hand
    ensures EntryOwns(v, i)
  {
  }

  lemma ProducerFrame(st: State, v: State, c: Cell, p: nat)
    requires OnlyCell(st, v, c) && p < |st.producers| && p < |v.producers| && ProducerOwns(st, p)
    requires v.producers[p] == st.producers[p] && (c < |st.place| ==> st.place[c] != WithProducer(p))
    ensures ProducerOwns(v, p)
  {
  }

  /** Entries outside `es` and producers outside `ps` keep their cells; those inside have been looked at. */
  ghost predicate Touches(st: State, v: State, c: Cell, es: set<nat>, ps: set<nat>) {
    && OnlyCell(st, v, c)
    && |st.entries| == |v.entries| && |st.producers| == |v.producers|
    && (forall i :: 0 <= i < |v.entries| && i !in es ==>
          v.entries[i].queue == st.entries[i].queue && v.entries[i].hand == st.entries[i].hand && Foreign(st, c, i))
    && (forall p :: 0 <= p < |v.producers| && p !in ps ==>
          v.producers[p] == st.producers[p] && (c < |st.place| ==> st.place[c] != WithProducer(p)))
  }

  lemma {:induction false} OwnedKept(st: State, v: State, c: Cell, es: set<nat>, ps: set<nat>)
    requires Owned(st) && Touches(st, v, c, es, ps) && PoolOwns(v)
    requires forall i :: i in es && i < |v.entries| ==> EntryOwns(v, i)
    requires forall p :: p in ps && p < |v.producers| ==> ProducerOwns(v, p)
    ensures Owned(v)
  {
    forall i | 0 <= i < |v.entries|
      ensures EntryOwns(v, i)
    {
      if i !in es { EntryFrame(st, v, c, i); }
    }
    forall p | 0 <= p < |v.producers|
      ensures ProducerOwns(v, p)
    {
      if p !in ps { ProducerFrame(st, v, c, p); }
    }
  }

  lemma {:induction false} OwnedTake(st: State, i: nat)
    requires Owned(st) && i < |st.entries|
    ensures Owned(TakeStep(st, i))
  {
    var v := TakeStep(st, i);
    if v != st {
      assert EntryOwns(st, i);
      var c := st.entries[i].queue[0];
      assert Holds(st, c, InQueue(i));
      OwnedKept(st, v, c, {i}, {});
    }
  }

  lemma {:induction false} OwnedFinish(st: State, i: nat)
    requires Owned(st) && i < |st.entries|
    ensures Owned(FinishStep(st, i))
  {
    var v := FinishStep(st, i);
    if st.entries[i].hand.Some? {
      assert EntryOwns(st, i);
      OwnedKept(st, v, st.entries[i].hand.value, {i}, {});
    }
  }

  lemma {:induction false} OwnedMove(st: State, i: nat, j: nat)
    requires Owned(st) && i < |st.entries| && j < |st.entries|
    ensures Owned(MoveStep(st, i, j))
  {
    var v := MoveStep(st, i, j);
    if v != st {
      assert EntryOwns(st, i) && EntryOwns(st, j);
      var c := st.entries[i].queue[0];
      assert Holds(st, c, InQueue(i));
      MovedOut(st, i, j);
      MovedIn(st, i, j);
      OwnedKept(st, v, c, {i, j}, {});
    }
  }

  lemma MovedOut(st: State, i: nat, j: nat)
    requires i < |st.entries| && j < |st.entries| && EntryOwns(st, i)
    ensures EntryOwns(MoveStep(st, i, j), i)
  {
  }

  lemma {:induction false} MovedIn(st: State, i: nat, j: nat)
    requires i < |st.entries| && j < |st.entries| && EntryOwns(st, i) && EntryOwns(st, j)
    ensures EntryOwns(MoveStep(st, i, j), j)
  {
    if st.entries[i].queue != [] { assert Holds(st, st.entries[i].queue[0], InQueue(i)); }
  }

  lemma {:induction false} OwnedClone(st: State, p: nat, pick: Option<Cell>)
    requires Owned(st) && p < |st.producers| && st.producers[p].Fanning? && st.producers[p].clone.None?
    ensures Owned(CloneStep(st, p, pick))
  {
    var v := CloneStep(st, p, pick);
    var c := v.producers[p].clone.value;
    OwnedKept(st, v, c, {}, {p});
  }

  lemma {:induction false} OwnedEnqueue(st: State, p: nat, c: Cell)
    requires Owned(st) && p < |st.producers| && st.producers[p].Fanning? && st.producers[p].todo != []
    requires st.producers[p].todo[0] < |st.entries| && st.producers[p].clone == Some(c) && Known(st, c)
    ensures Owned(EnqueueStep(st, p, c))
  {
    var v := EnqueueStep(st, p, c);
    assert ProducerOwns(st, p);
    assert EntryOwns(st, st.producers[p].todo[0]);
    OwnedKept(st, v, c, {st.producers[p].todo[0]}, {p});
  }

  lemma {:induction false} OwnedDrop(st: State, p: nat)
    requires Owned(st) && p < |st.producers| && st.producers[p].Fanning? && st.producers[p].todo != []
    requires st.producers[p].todo[0] < |st.entries| && st.producers[p].clone.None?
    ensures Owned(DropStep(st, p))
  {
    OwnedKept(st, DropStep(st, p), |st.heap|, {}, {p});
  }

  lemma {:induction false} OwnedReturn(st: State, p: nat)
    requires Owned(st) && p < |st.producers| && st.producers[p].Fanning? && st.producers[p].todo != []
    requires st.producers[p].todo[0] < |st.entries| && st.producers[p].clone.Some? && Known(st, st.producers[p].clone.value)
    ensures Owned(Recycle(DropStep(st, p), st.producers[p].clone.value))
  {
    var c := st.producers[p].clone.value;
    assert ProducerOwns(st, p);
    OwnedKept(st, Recycle(DropStep(st, p), c), c, {}, {p});
  }

  lemma {:induction false} OwnedServe(st: State, p: nat, pick: Option<Cell>)
    requires Owned(st) && p < |st.producers|
    ensures Owned(ServeStep(st, p, pick))
  {
    var w := st.producers[p];
    if w.Fanning? && w.todo != [] && w.todo[0] < |st.entries| {
      if w.clone.None? {
        OwnedClone(st, p, pick);
        OwnedDrop(st, p);
      } else if Known(st, w.clone.value) {
        OwnedReturn(st, p);
        OwnedEnqueue(st, p, w.clone.value);
      }
    }
  }

  /** A new entry owns nothing. */
  lemma {:induction false} OwnedGrow(st: State, e: Entry)
    requires Owned(st) && e.queue == [] && e.hand.None?
    ensures Owned(st.(entries := st.entries + [e]))
  {
    var v := st.(entries := st.entries + [e]);
    forall i | 0 <= i < |st.entries|
      ensures EntryOwns(v, i)
    {
      EntryFrame(st, v, |st.heap|, i);
    }
    forall p | 0 <= p < |v.producers|
      ensures ProducerOwns(v, p)
    {
      ProducerFrame(st, v, |st.heap|, p);
    }
  }

  /** Steps that move no cell. */
  lemma {:induction false} OwnedStill(st: State, v: State)
    requires Owned(st) && v.heap == st.heap && v.place == st.place && v.pool == st.pool && |v.entries| == |st.entries|
    requires forall i :: 0 <= i < |v.entries| ==> v.entries[i].queue == st.entries[i].queue && v.entries[i].hand == st.entries[i].hand
    requires |v.producers| >= |st.producers|
    requires forall p :: 0 <= p < |v.producers| ==> (p < |st.producers| && v.producers[p] == st.producers[p]) || v.producers[p].Idle? || v.producers[p].clone.None?
    ensures Owned(v)
  {
    forall i | 0 <= i < |v.entries|
      ensures EntryOwns(v, i)
    {
      EntryFrame(st, v, |st.heap|, i);
    }
    forall p | 0 <= p < |v.producers|
      ensures ProducerOwns(v, p)
    {
      if p < |st.producers| && v.producers[p] == st.producers[p] { ProducerFrame(st, v, |st.heap|, p); }
    }
  }

  lemma {:induction false} OwnedForget(st: State, c: Cell)
    requires Owned(st)
    ensures Owned(Next(st, Forget(c)))
  {
    if c in st.pool { OwnedKept(st, Next(st, Forget(c)), c, {}, {}); }
  }

  predicate Quiet(a: Action) {
    a.Detach? || a.Install? || a.Spawn? || a.Begin? || a.Cancel? || a.Notice? || a.Exit?
  }

  lemma {:induction false} OwnedQuiet(st: State, a: Action)
    requires Owned(st) && Quiet(a)
    ensures Owned(Next(st, a))
  {
    OwnedStill(st, Next(st, a));
  }

  lemma {:induction false} OwnedAttach(st: State, pc: Pc)
    requires Owned(st)
    ensures Owned(Next(st, Attach(pc)))
  {
    if pc !in st.subscribers {
      OwnedGrow(st, NewEntry(pc, Running));
      OwnedStill(st.(entries := st.entries + [NewEntry(pc, Running)]), Next(st, Attach(pc)));
    }
  }

  lemma {:induction false} OwnedNext(st: State, a: Action)
    requires Owned(st)
    ensures Owned(Next(st, a))
  {
    match a
    case Attach(pc) => OwnedAttach(st, pc);
    case NewQueue(pc) => OwnedGrow(st, NewEntry(pc, Waiting));
    case Move(i, j) => if i < |st.entries| && j < |st.entries| { OwnedMove(st, i, j); }
    case Serve(p, pick) => if p < |st.producers| { OwnedServe(st, p, pick); }
    case Forget(c) => OwnedForget(st, c);
    case Take(i) => if i < |st.entries| { OwnedTake(st, i); }
    case Finish(i) => if i < |st.entries| { OwnedFinish(st, i); }
    case _ => OwnedQuiet(st, a);
  }
}
