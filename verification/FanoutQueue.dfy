/**
 One subscriber in isolation: a single bounded queue with one writer. Any run of the whole forwarder, seen from one
 entry, is a run of that queue.
 */
module FanoutQueue {
  import opened Prelude
  import opened Fanout
  import opened FanoutOwnership

  datatype Queue = Queue(waiting: seq<Media>, hand: Option<Media>, writer: Writer, cancelled: bool, dropped: nat, h: Hist)

  datatype Event = Offered(m: Media) | Cancelled | Taken | Finished | Noticed | Left | MovedIn(m: Media) | MovedOut | Started

  const Empty := Queue([], None, Running, false, 0, Hist([], [], [], []))

  /** The single bounded queue: an offer fits exactly when there is room. */
  function QNext(cap: nat, q: Queue, e: Event): Queue {
    match e
    case Offered(m) =>
      if |q.waiting| < cap
      then q.(waiting := q.waiting + [m], h := q.h.(offers := q.h.offers + [Offer(m, true)]))
      else q.(dropped := q.dropped + 1, h := q.h.(offers := q.h.offers + [Offer(m, false)]))
    case Cancelled => q.(cancelled := true)
    case Taken =>
      if (q.writer.Running? || q.writer.Draining?) && q.hand.None? && q.waiting != []
      then q.(waiting := q.waiting[1..], hand := Some(q.waiting[0])) else q
    case Finished =>
      if q.hand.Some? then q.(hand := None, h := q.h.(written := q.h.written + [q.hand.value])) else q
    case Noticed => if q.writer.Running? && q.cancelled && q.hand.None? then q.(writer := Draining) else q
    case Left => if q.writer.Draining? && q.hand.None? && q.waiting == [] then q.(writer := Exited) else q
    case MovedIn(m) =>
      if q.writer.Waiting? && |q.waiting| < cap
      then q.(waiting := q.waiting + [m], h := q.h.(movedIn := q.h.movedIn + [m])) else q
    case MovedOut =>
      if q.writer.Exited? && q.hand.None? && q.waiting != []
      then q.(waiting := q.waiting[1..], h := q.h.(movedOut := q.h.movedOut + [q.waiting[0]])) else q
    case Started => if q.writer.Waiting? then q.(writer := Running) else q
  }

  function QRun(cap: nat, q: Queue, es: seq<Event>): Queue
    decreases |es|
  {
    if es == [] then q else QRun(cap, QNext(cap, q, es[0]), es[1..])
  }

  // ---------------------------------------------------------------- projection

  function Contents(st: State, q: seq<Cell>): (s: seq<Media>)
    ensures |s| == |q|
    ensures forall k :: 0 <= k < |q| ==> s[k] == Content(st, q[k])
  {
    seq(|q|, k requires 0 <= k < |q| => Content(st, q[k]))
  }

  function See(st: State, i: nat): Queue
    requires i < |st.entries|
  {
    var e := st.entries[i];
    Queue(Contents(st, e.queue), if e.hand.Some? then Some(Content(st, e.hand.value)) else None,
          e.writer, e.cancelled, e.dropped, e.h)
  }

  /** What a step is to entry i. */
  function Project(st: State, a: Action, i: nat): seq<Event>
    requires i < |st.entries|
  {
    match a
    case Cancel(k) => if k == i then [Cancelled] else []
    case Take(k) => if k == i then [Taken] else []
    case Finish(k) => if k == i then [Finished] else []
    case Notice(k) => if k == i then [Noticed] else []
    case Exit(k) => if k == i then [Left] else []
    case Install(k) => if k == i && st.entries[i].pc !in st.subscribers then [Started] else []
    case Serve(p, _) => if p < |st.producers| && Decides(st, p, i) then [Offered(st.producers[p].m)] else []
    case Move(s, d) =>
      if !Moves(st, s, d) then []
      else if s == i then [MovedOut]
      else if d == i && |st.entries[i].queue| < st.cap then [MovedIn(Content(st, st.entries[s].queue[0]))]
      else []
    case _ => []
  }

  /** The WriteRTP call's next step settles whether its packet fits entry i. */
  predicate Decides(st: State, p: nat, i: nat)
    requires p < |st.producers| && i < |st.entries|
  {
    var w := st.producers[p];
    && w.Fanning? && w.todo != [] && w.todo[0] == i
    && (if w.clone.None? then |st.entries[i].queue| >= st.cap else Known(st, w.clone.value))
  }

  predicate Moves(st: State, s: nat, d: nat) {
    && s < |st.entries| && d < |st.entries| && s != d
    && st.entries[s].writer.Exited? && st.entries[s].hand.None? && st.entries[d].writer.Waiting?
    && st.entries[s].queue != [] && Known(st, st.entries[s].queue[0])
  }

  lemma {:induction false} SeeFrame(st: State, v: State, c: Cell, i: nat)
    requires OnlyCell(st, v, c) && i < |st.entries| && i < |v.entries| && Foreign(st, c, i) && EntryOwns(st, i)
    requires v.entries[i] == st.entries[i]
    ensures See(v, i) == See(st, i)
  {
    assert Contents(v, v.entries[i].queue) == Contents(st, st.entries[i].queue);
  }

  lemma {:induction false} SeeTake(st: State, k: nat, i: nat)
    requires Owned(st) && k < |st.entries| && i < |st.entries|
    ensures See(TakeStep(st, k), i) == QRun(st.cap, See(st, i), if k == i then [Taken] else [])
  {
    var v := TakeStep(st, k);
    QOne(st.cap, See(st, i), Taken);
    assert EntryOwns(st, k) && EntryOwns(st, i);
    if v != st {
      var c := st.entries[k].queue[0];
      assert Holds(st, c, InQueue(k));
      if k != i {
        SeeFrame(st, v, c, i);
      } else {
        assert See(v, i).waiting == See(st, i).waiting[1..];
      }
    } else if k == i && st.entries[i].queue != [] {
      assert Holds(st, st.entries[i].queue[0], InQueue(i));
    }
  }

  lemma {:induction false} SeeFinish(st: State, k: nat, i: nat)
    requires Owned(st) && k < |st.entries| && i < |st.entries|
    ensures See(FinishStep(st, k), i) == QRun(st.cap, See(st, i), if k == i then [Finished] else [])
  {
    var v := FinishStep(st, k);
    QOne(st.cap, See(st, i), Finished);
    assert EntryOwns(st, k) && EntryOwns(st, i);
    if st.entries[k].hand.Some? {
      var c := st.entries[k].hand.value;
      if k != i {
        SeeFrame(st, v, c, i);
      } else {
        assert forall j :: 0 <= j < |st.entries[i].queue| ==> Holds(st, st.entries[i].queue[j], InQueue(i));
        assert See(v, i).waiting == See(st, i).waiting;
      }
    }
  }

  lemma {:induction false} SeeMove(st: State, s: nat, d: nat, i: nat)
    requires Owned(st) && s < |st.entries| && d < |st.entries| && i < |st.entries|
    ensures See(MoveStep(st, s, d), i) == QRun(st.cap, See(st, i), Project(st, Move(s, d), i))
  {
    assert EntryOwns(st, s) && EntryOwns(st, d) && EntryOwns(st, i);
    if Moves(st, s, d) {
      var c := st.entries[s].queue[0];
      assert Holds(st, c, InQueue(s));
      if s == i {
        SeeMovedOut(st, s, d);
      } else if d == i && |st.entries[i].queue| < st.cap {
        SeeMovedIn(st, s, d);
      } else {
        SeeFrame(st, MoveStep(st, s, d), c, i);
      }
    }
  }

  lemma {:induction false} SeeMovedOut(st: State, s: nat, d: nat)
    requires Moves(st, s, d) && EntryOwns(st, s)
    ensures See(MoveStep(st, s, d), s) == QRun(st.cap, See(st, s), [MovedOut])
  {
    assert Holds(st, st.entries[s].queue[0], InQueue(s));
    assert See(MoveStep(st, s, d), s).waiting == See(st, s).waiting[1..];
    QOne(st.cap, See(st, s), MovedOut);
  }

  lemma {:induction false} SeeMovedIn(st: State, s: nat, d: nat)
    requires Moves(st, s, d) && EntryOwns(st, s) && EntryOwns(st, d) && |st.entries[d].queue| < st.cap
    ensures See(MoveStep(st, s, d), d) == QRun(st.cap, See(st, d), [MovedIn(Content(st, st.entries[s].queue[0]))])
  {
    var c := st.entries[s].queue[0];
    assert Holds(st, c, InQueue(s));
    assert See(MoveStep(st, s, d), d).waiting == See(st, d).waiting + [Content(st, c)];
    QOne(st.cap, See(st, d), MovedIn(Content(st, c)));
  }

  lemma {:induction false} QOne(cap: nat, q: Queue, e: Event)
    ensures QRun(cap, q, [e]) == QNext(cap, q, e)
  {
    assert QRun(cap, QNext(cap, q, e), []) == QNext(cap, q, e);
  }

  lemma {:induction false} SeeServe(st: State, p: nat, pick: Option<Cell>, i: nat)
    requires Owned(st) && p < |st.producers| && i < |st.entries|
    ensures See(ServeStep(st, p, pick), i)
         == QRun(st.cap, See(st, i), if Decides(st, p, i) then [Offered(st.producers[p].m)] else [])
  {
    var w := st.producers[p];
    if Decides(st, p, i) { QOne(st.cap, See(st, i), Offered(w.m)); }
    assert EntryOwns(st, i) && ProducerOwns(st, p);
    if w.Fanning? && w.todo != [] && w.todo[0] < |st.entries| {
      var c := ServedCell(st, p, pick);
      if Decides(st, p, i) {
        SeeDecided(st, p, pick, i);
      } else {
        ServeElsewhere(st, p, pick, i);
        ServeCell(st, p, pick, i);
        SeeFrame(st, ServeStep(st, p, pick), c, i);
      }
    }
  }

  /** The one cell the step touches. */
  function ServedCell(st: State, p: nat, pick: Option<Cell>): Cell
    requires p < |st.producers|
  {
    var w, x := st.producers[p], ServeStep(st, p, pick).producers;
    if w.Fanning? && w.clone.Some? then w.clone.value
    else if p < |x| && x[p].Fanning? && x[p].clone.Some? then x[p].clone.value
    else |st.heap|
  }

  lemma ServeElsewhere(st: State, p: nat, pick: Option<Cell>, i: nat)
    requires p < |st.producers| && i < |st.entries| && !Decides(st, p, i)
    ensures var v := ServeStep(st, p, pick); i < |v.entries| && v.entries[i] == st.entries[i]
  {
  }

  lemma ServeCell(st: State, p: nat, pick: Option<Cell>, i: nat)
    requires Owned(st) && p < |st.producers| && ProducerOwns(st, p)
    ensures OnlyCell(st, ServeStep(st, p, pick), ServedCell(st, p, pick)) && Foreign(st, ServedCell(st, p, pick), i)
  {
  }

  lemma {:induction false} SeeDecided(st: State, p: nat, pick: Option<Cell>, i: nat)
    requires Owned(st) && p < |st.producers| && i < |st.entries| && EntryOwns(st, i) && ProducerOwns(st, p) && Decides(st, p, i)
    ensures See(ServeStep(st, p, pick), i) == QNext(st.cap, See(st, i), Offered(st.producers[p].m))
  {
    var v := ServeStep(st, p, pick);
    if |st.entries[i].queue| < st.cap {
      assert See(v, i).waiting == See(st, i).waiting + [st.producers[p].m];
    } else {
      assert See(v, i).waiting == See(st, i).waiting;
    }
  }

  lemma {:induction false} SeeQuiet(st: State, a: Action, i: nat)
    requires Owned(st) && i < |st.entries| && Quiet(a)
    ensures i < |Next(st, a).entries| && See(Next(st, a), i) == QRun(st.cap, See(st, i), Project(st, a, i))
  {
    QuietEntry(st, a, i);
    assert Contents(Next(st, a), st.entries[i].queue) == Contents(st, st.entries[i].queue);
    if Project(st, a, i) != [] { QOne(st.cap, See(st, i), Project(st, a, i)[0]); }
  }

  /** What a step that moves no packet does to an entry. */
  lemma {:induction false} QuietEntry(st: State, a: Action, i: nat)
    requires i < |st.entries| && Quiet(a)
    ensures var v, e := Next(st, a), st.entries[i];
            && v.heap == st.heap && i < |v.entries|
            && v.entries[i] == (if a.Cancel? && a.i == i then e.(cancelled := true)
                                else if a.Notice? && a.i == i && e.writer.Running? && e.cancelled && e.hand.None? then e.(writer := Draining)
                                else if a.Exit? && a.i == i && e.writer.Draining? && e.hand.None? && e.queue == [] then e.(writer := Exited)
                                else if a.Install? && a.i == i && e.writer.Waiting? && e.pc !in st.subscribers then e.(writer := Running)
                                else e)
  {
    match a
    case Install(_) => case Begin(_, _, _) => case Cancel(_) => case Notice(_) => case Exit(_) => case Spawn =>
    case Detach(_) =>
  }

  lemma {:induction false} SeeGrow(st: State, a: Action, i: nat)
    requires Owned(st) && i < |st.entries| && (a.Attach? || a.NewQueue? || a.Forget?)
    ensures i < |Next(st, a).entries| && See(Next(st, a), i) == See(st, i) && Project(st, a, i) == []
  {
    var v := Next(st, a);
    assert Contents(v, st.entries[i].queue) == Contents(st, st.entries[i].queue);
  }

  lemma {:induction false} CapStays(st: State, a: Action)
    ensures Next(st, a).cap == st.cap
  {
    match a
    case Attach(_) => case Detach(_) => case NewQueue(_) => case Move(_, _) => case Install(_) => case Spawn =>
    case Begin(_, _, _) => case Serve(_, _) => case Forget(_) =>
    case Cancel(_) => case Take(_) => case Finish(_) => case Notice(_) => case Exit(_) =>
  }

  /** One step of the forwarder is, for each subscriber entry, at most one step of its own queue. */
  lemma {:induction false} SeeNext(st: State, a: Action, i: nat)
    requires Owned(st) && i < |st.entries|
    ensures i < |Next(st, a).entries| && Next(st, a).cap == st.cap
    ensures See(Next(st, a), i) == QRun(st.cap, See(st, i), Project(st, a, i))
  {
    CapStays(st, a);
    if a.Take? || a.Finish? || a.Move? || a.Serve? {
      SeeActive(st, a, i);
    } else if a.Attach? || a.NewQueue? || a.Forget? {
      SeeGrow(st, a, i);
    } else {
      SeeQuiet(st, a, i);
    }
  }

  /** Steps that move packets. */
  lemma {:induction false} SeeActive(st: State, a: Action, i: nat)
    requires Owned(st) && i < |st.entries| && (a.Take? || a.Finish? || a.Move? || a.Serve?)
    ensures i < |Next(st, a).entries| && See(Next(st, a), i) == QRun(st.cap, See(st, i), Project(st, a, i))
  {
    match a
    case Take(k) => if k < |st.entries| { SeeTake(st, k, i); }
    case Finish(k) => if k < |st.entries| { SeeFinish(st, k, i); }
    case Move(s, d) => if s < |st.entries| && d < |st.entries| { SeeMove(st, s, d, i); }
    case Serve(p, pick) => if p < |st.producers| { SeeServe(st, p, pick, i); }
  }

  // ---------------------------------------------------------------- what a single queue keeps

  function Accepted(offers: seq<Offer>): seq<Media> {
    if offers == [] then []
    else Accepted(offers[..|offers| - 1]) + (if offers[|offers| - 1].fitted then [offers[|offers| - 1].m] else [])
  }

  function Refused(offers: seq<Offer>): nat {
    if offers == [] then 0
    else Refused(offers[..|offers| - 1]) + (if offers[|offers| - 1].fitted then 0 else 1)
  }

  function Handed(q: Queue): seq<Media> { if q.hand.Some? then [q.hand.value] else [] }

  /** What came in is what went out, in order, then what is in hand, then what waits. */
  predicate Flows(cap: nat, q: Queue) {
    && q.h.movedIn + Accepted(q.h.offers) == q.h.written + Handed(q) + q.h.movedOut + q.waiting
    && q.dropped == Refused(q.h.offers)
    && (q.h.movedOut != [] ==> q.writer.Exited?)
    && (q.hand.Some? ==> q.writer.Running? || q.writer.Draining?)
    && (q.writer.Waiting? ==> q.h.offers == [] && q.h.written == [])
    && |q.waiting| <= cap
  }

  lemma {:induction false} FlowsOffered(cap: nat, q: Queue, m: Media)
    requires Flows(cap, q) && !q.writer.Waiting?
    ensures Flows(cap, QNext(cap, q, Offered(m)))
  {
    var r := QNext(cap, q, Offered(m));
    assert r.h.offers[..|r.h.offers| - 1] == q.h.offers;
    if |q.waiting| < cap {
      assert q.h.movedIn + (Accepted(q.h.offers) + [m]) == (q.h.movedIn + Accepted(q.h.offers)) + [m];
    }
  }

  lemma SplitFirst(a: seq<Media>, b: seq<Media>, q: seq<Media>)
    requires q != []
    ensures a + b + q == a + (b + [q[0]]) + q[1..]
  {
  }

  lemma {:induction false} FlowsTaken(cap: nat, q: Queue)
    requires Flows(cap, q)
    ensures Flows(cap, QNext(cap, q, Taken))
  {
    if q.waiting != [] && q.hand.None? && q.h.movedOut == [] {
      SplitFirst(q.h.written, [], q.waiting);
      assert q.h.written + [] + q.h.movedOut == q.h.written + [];
      assert [] + [q.waiting[0]] == [q.waiting[0]];
      assert q.h.written + [q.waiting[0]] + [] == q.h.written + [q.waiting[0]];
    }
  }

  lemma {:induction false} FlowsMovedOut(cap: nat, q: Queue)
    requires Flows(cap, q)
    ensures Flows(cap, QNext(cap, q, MovedOut))
  {
    if q.waiting != [] {
      SplitFirst(q.h.written + [], q.h.movedOut, q.waiting);
    }
  }

  lemma {:induction false} FlowsFinished(cap: nat, q: Queue)
    requires Flows(cap, q)
    ensures Flows(cap, QNext(cap, q, Finished))
  {
    if q.hand.Some? {
      assert q.h.written + [q.hand.value] + q.h.movedOut + q.waiting
          == (q.h.written + [q.hand.value]) + [] + q.h.movedOut + q.waiting;
    }
  }

  lemma {:induction false} FlowsMovedIn(cap: nat, q: Queue, m: Media)
    requires Flows(cap, q)
    ensures Flows(cap, QNext(cap, q, MovedIn(m)))
  {
    if q.writer.Waiting? {
      assert q.h.movedIn + [] == q.h.movedIn && [] + [] + [] + q.waiting == q.waiting;
      assert (q.h.movedIn + [m]) + [] == q.h.movedIn + [m];
      assert [] + [] + [] + (q.waiting + [m]) == q.waiting + [m];
    }
  }

  lemma {:induction false} FlowsNext(cap: nat, q: Queue, e: Event)
    requires Flows(cap, q) && (e.Offered? ==> !q.writer.Waiting?)
    ensures Flows(cap, QNext(cap, q, e))
  {
    match e
    case Offered(m) => FlowsOffered(cap, q, m);
    case Taken => FlowsTaken(cap, q);
    case MovedOut => FlowsMovedOut(cap, q);
    case Finished => FlowsFinished(cap, q);
    case MovedIn(m) => FlowsMovedIn(cap, q, m);
    case Cancelled => case Noticed => case Left => case Started =>
  }
}
