/** Packet conservation: where every forwarded packet is, and what the drop counters add up to. */
module FanoutCounts {
  import opened Prelude
  import opened Fanout
  import opened FanoutOwnership
  import opened FanoutRuns

  function Total(s: seq<nat>): nat { if s == [] then 0 else s[0] + Total(s[1..]) }

  lemma {:induction false} TotalUpdate(s: seq<nat>, i: nat, x: nat)
    requires i < |s|
    ensures Total(s[i := x]) + s[i] == Total(s) + x
    decreases |s|
  {
    if i == 0 {
      assert s[i := x][1..] == s[1..];
    } else {
      assert s[i := x][1..] == s[1..][i - 1 := x];
      TotalUpdate(s[1..], i - 1, x);
    }
  }

  lemma {:induction false} TotalMore(s: seq<nat>, x: nat)
    ensures Total(s + [x]) == Total(s) + x
    decreases |s|
  {
    if s != [] {
      assert (s + [x])[1..] == s[1..] + [x];
      TotalMore(s[1..], x);
    }
  }

  lemma {:induction false} TotalAtMost(s: seq<nat>, t: seq<nat>)
    requires |s| == |t| && forall k :: 0 <= k < |s| ==> s[k] <= t[k]
    ensures Total(s) <= Total(t)
    decreases |s|
  {
    if s != [] { TotalAtMost(s[1..], t[1..]); }
  }

  // ---------------------------------------------------------------- the three sums

  /** Packets in an entry's queue and in its writer's hand. */
  function Held(e: Entry): nat { |e.queue| + if e.hand.Some? then 1 else 0 }

  function Helds(es: seq<Entry>): (s: seq<nat>)
    ensures |s| == |es| && forall k :: 0 <= k < |es| ==> s[k] == Held(es[k])
  {
    seq(|es|, k requires 0 <= k < |es| => Held(es[k]))
  }

  function Drops(es: seq<Entry>): (s: seq<nat>)
    ensures |s| == |es| && forall k :: 0 <= k < |es| ==> s[k] == es[k].dropped
  {
    seq(|es|, k requires 0 <= k < |es| => es[k].dropped)
  }

  function Owed(w: Producer): nat { if w.Idle? then 0 else |w.todo| }

  function Owing(ps: seq<Producer>): (s: seq<nat>)
    ensures |s| == |ps| && forall k :: 0 <= k < |ps| ==> s[k] == Owed(ps[k])
  {
    seq(|ps|, k requires 0 <= k < |ps| => Owed(ps[k]))
  }

  /** The whole ledger. */
  predicate Balanced(st: State) {
    && st.n.forwarded == st.n.written + Total(Helds(st.entries)) + st.n.discarded
    && st.n.dropped == Total(Drops(st.entries))
    && st.n.promised == st.n.forwarded + st.n.dropped + Total(Owing(st.producers))
  }

  lemma {:induction false} EntrySums(es: seq<Entry>, i: nat, e: Entry)
    requires i < |es|
    ensures Total(Helds(es[i := e])) + Held(es[i]) == Total(Helds(es)) + Held(e)
    ensures Total(Drops(es[i := e])) + es[i].dropped == Total(Drops(es)) + e.dropped
  {
    assert Helds(es[i := e]) == Helds(es)[i := Held(e)];
    TotalUpdate(Helds(es), i, Held(e));
    assert Drops(es[i := e]) == Drops(es)[i := e.dropped];
    TotalUpdate(Drops(es), i, e.dropped);
  }

  lemma {:induction false} EntryMore(es: seq<Entry>, e: Entry)
    requires Held(e) == 0 && e.dropped == 0
    ensures Total(Helds(es + [e])) == Total(Helds(es)) && Total(Drops(es + [e])) == Total(Drops(es))
  {
    assert Helds(es + [e]) == Helds(es) + [0] && Drops(es + [e]) == Drops(es) + [0];
    TotalMore(Helds(es), 0);
    TotalMore(Drops(es), 0);
  }

  lemma {:induction false} ProducerSum(ps: seq<Producer>, p: nat, w: Producer)
    requires p < |ps|
    ensures Total(Owing(ps[p := w])) + Owed(ps[p]) == Total(Owing(ps)) + Owed(w)
  {
    assert Owing(ps[p := w]) == Owing(ps)[p := Owed(w)];
    TotalUpdate(Owing(ps), p, Owed(w));
  }

  lemma {:induction false} BalancedWriter(st: State, i: nat, a: Action)
    requires Owned(st) && Balanced(st) && i < |st.entries|
    ensures Balanced(WriterStep(st, i, a))
  {
    var v := WriterStep(st, i, a);
    assert EntryOwns(st, i);
    EntrySums(st.entries, i, v.entries[i]);
    match a
    case Take(_) => case Finish(_) => case Cancel(_) => case Notice(_) => case Exit(_) => case _ =>
  }

  lemma {:induction false} BalancedMove(st: State, i: nat, j: nat)
    requires Owned(st) && Balanced(st) && i < |st.entries| && j < |st.entries|
    ensures Balanced(MoveStep(st, i, j))
  {
    var v := MoveStep(st, i, j);
    if v != st {
      EntrySums(st.entries, i, v.entries[i]);
      EntrySums(st.entries[i := v.entries[i]], j, v.entries[j]);
      assert v.entries == st.entries[i := v.entries[i]][j := v.entries[j]];
    }
  }

  lemma {:induction false} BalancedInstall(st: State, i: nat)
    requires Balanced(st) && i < |st.entries|
    ensures Balanced(InstallStep(st, i))
  {
    EntrySums(st.entries, i, InstallStep(st, i).entries[i]);
  }

  lemma {:induction false} BalancedDrop(st: State, p: nat)
    requires Balanced(st) && p < |st.producers| && st.producers[p].Fanning? && st.producers[p].todo != []
    requires st.producers[p].todo[0] < |st.entries|
    ensures Balanced(DropStep(st, p))
  {
    var i := st.producers[p].todo[0];
    ProducerSum(st.producers, p, Served(st.producers[p]));
    EntrySums(st.entries, i, DropStep(st, p).entries[i]);
  }

  lemma {:induction false} BalancedEnqueue(st: State, p: nat, c: Cell)
    requires Balanced(st) && p < |st.producers| && st.producers[p].Fanning? && st.producers[p].todo != []
    requires st.producers[p].todo[0] < |st.entries| && Known(st, c)
    ensures Balanced(EnqueueStep(st, p, c))
  {
    var i := st.producers[p].todo[0];
    ProducerSum(st.producers, p, Served(st.producers[p]));
    EntrySums(st.entries, i, EnqueueStep(st, p, c).entries[i]);
  }

  lemma {:induction false} BalancedClone(st: State, p: nat, pick: Option<Cell>)
    requires Balanced(st) && p < |st.producers| && st.producers[p].Fanning?
    ensures Balanced(CloneStep(st, p, pick))
  {
    ProducerSum(st.producers, p, CloneStep(st, p, pick).producers[p]);
  }

  lemma {:induction false} BalancedServe(st: State, p: nat, pick: Option<Cell>)
    requires Balanced(st) && p < |st.producers|
    ensures Balanced(ServeStep(st, p, pick))
  {
    var w := st.producers[p];
    if w.Fanning? && w.todo != [] && w.todo[0] < |st.entries| {
      BalancedDrop(st, p);
      BalancedClone(st, p, pick);
      if w.clone.Some? && Known(st, w.clone.value) { BalancedEnqueue(st, p, w.clone.value); }
    }
  }

  lemma {:induction false} BalancedBegin(st: State, p: nat, m: Media, s: seq<nat>)
    requires Balanced(st) && p < |st.producers|
    ensures Balanced(BeginStep(st, p, m, s))
  {
    ProducerSum(st.producers, p, BeginStep(st, p, m, s).producers[p]);
  }

  lemma {:induction false} BalancedSpawn(st: State)
    requires Balanced(st)
    ensures Balanced(Next(st, Spawn))
  {
    assert Owing(st.producers + [Idle]) == Owing(st.producers) + [0];
    TotalMore(Owing(st.producers), 0);
  }

  lemma {:induction false} BalancedNext(st: State, a: Action)
    requires Owned(st) && Balanced(st)
    ensures Balanced(Next(st, a))
  {
    match a
    case Attach(pc) => EntryMore(st.entries, NewEntry(pc, Running));
    case NewQueue(pc) => EntryMore(st.entries, NewEntry(pc, Waiting));
    case Move(i, j) => if i < |st.entries| && j < |st.entries| { BalancedMove(st, i, j); }
    case Install(i) => if i < |st.entries| { BalancedInstall(st, i); }
    case Spawn => BalancedSpawn(st);
    case Begin(p, m, s) => if p < |st.producers| { BalancedBegin(st, p, m, s); }
    case Serve(p, pick) => if p < |st.producers| { BalancedServe(st, p, pick); }
    case Detach(_) => case Forget(_) =>
    case _ => BalancedWriters(st, a);
  }

  lemma {:induction false} BalancedWriters(st: State, a: Action)
    requires Owned(st) && Balanced(st) && (a.Cancel? || a.Take? || a.Finish? || a.Notice? || a.Exit?)
    ensures Balanced(Next(st, a))
  {
    if a.i < |st.entries| { BalancedWriter(st, a.i, a); }
  }

  lemma {:induction false} BalancedRun(st: State, run: seq<Action>)
    requires Shaped(st) && Balanced(st)
    ensures Balanced(Run(st, run)) && Shaped(Run(st, run))
    decreases |run|
  {
    if run != [] {
      ShapedNext(st, run[0]);
      BalancedNext(st, run[0]);
      BalancedRun(Next(st, run[0]), run[1..]);
    }
  }

  /** Entry i is in the subscriber map. */
  predicate IsLive(st: State, i: nat)
    requires i < |st.entries|
  {
    st.entries[i].pc in st.subscribers && st.subscribers[st.entries[i].pc] == i
  }

  /** TotalDropped: the drop counts of the live subscribers. */
  function LiveDrops(st: State): (s: seq<nat>)
    ensures |s| == |st.entries|
    ensures forall k :: 0 <= k < |s| ==> s[k] == if IsLive(st, k) then st.entries[k].dropped else 0
  {
    seq(|st.entries|, k requires 0 <= k < |st.entries| => if IsLive(st, k) then st.entries[k].dropped else 0)
  }

  /**
   In every run: forwarded packets are written, in a hand, in a queue, or were discarded by a rebuild; every snapshot
   taken by WriteRTP is paid with exactly one forward or drop per entry once its call is through; and TotalDropped
   never exceeds the forwarder's own drop counter.
   */
  lemma {:induction false} Conservation(cap: nat, run: seq<Action>)
    ensures var st := Run(Initial(cap), run);
            && st.n.forwarded == st.n.written + Total(Helds(st.entries)) + st.n.discarded
            && st.n.forwarded + st.n.dropped + Total(Owing(st.producers)) == st.n.promised
            && st.n.dropped == Total(Drops(st.entries))
            && Total(LiveDrops(st)) <= st.n.dropped
  {
    BalancedRun(Initial(cap), run);
    var st := Run(Initial(cap), run);
    TotalAtMost(LiveDrops(st), Drops(st.entries));
  }
}
