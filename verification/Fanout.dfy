/**
 The forwarder's fan-out as interleaved steps: any number of WriteRTP calls, one writer per subscriber entry, the
 packet pool, and the queue rebuild of a publisher swap. A channel operation and the counter updates beside it are
 one step. Input packets are numbered; a cell is one recycled packet struct.
 */
module Fanout {
  import opened Prelude

  type Media = nat
  type Cell = nat
  type Pc = nat

  /** Waiting: created by a rebuild, no writer yet. */
  datatype Writer = Waiting | Running | Draining | Exited

  /** History of one queue: what was offered and whether it fitted, what moved in, what left by each way. */
  datatype Hist = Hist(movedIn: seq<Media>, offers: seq<Offer>, written: seq<Media>, movedOut: seq<Media>)
  datatype Offer = Offer(m: Media, fitted: bool)

  datatype Entry = Entry(pc: Pc, queue: seq<Cell>, hand: Option<Cell>, writer: Writer, cancelled: bool, dropped: nat, h: Hist)

  /** One WriteRTP call: the entries still to serve, first the one being served, and the clone made for it. */
  datatype Producer = Idle | Fanning(m: Media, todo: seq<nat>, clone: Option<Cell>)

  datatype Counts = Counts(forwarded: nat, written: nat, dropped: nat, discarded: nat, promised: nat)

  datatype Place = Pooled | InQueue(e: nat) | InHand(e: nat) | WithProducer(p: nat) | Collected

  datatype Input = Input(m: Media, snapshot: seq<nat>)

  datatype State = State(
    cap: nat,
    entries: seq<Entry>,             // every entry ever created
    subscribers: map<Pc, nat>,
    producers: seq<Producer>,
    heap: seq<Option<Media>>,        // None: the zero packet
    pool: set<Cell>,
    n: Counts,
    place: seq<Place>,               // history: where each cell was put last
    inputs: seq<Input>)              // history: WriteRTP calls and their snapshots

  datatype Action =
    | Attach(pc: Pc) | Detach(pc: Pc)
    | Cancel(i: nat) | Take(i: nat) | Finish(i: nat) | Notice(i: nat) | Exit(i: nat)
    | NewQueue(pc: Pc) | Move(i: nat, j: nat) | Install(i: nat)
    | Spawn | Begin(p: nat, m: Media, snapshot: seq<nat>) | Serve(p: nat, pick: Option<Cell>)
    | Forget(c: Cell)

  function Initial(cap: nat): State {
    State(cap, [], map[], [], [], {}, Counts(0, 0, 0, 0, 0), [], [])
  }

  function NewEntry(pc: Pc, w: Writer): Entry { Entry(pc, [], None, w, false, 0, Hist([], [], [], [])) }

  function SetEntry(st: State, i: nat, e: Entry): State
    requires i < |st.entries|
  {
    st.(entries := st.entries[i := e])
  }

  /** Cell c now holds v and is at place w. */
  function SetCell(st: State, c: Cell, v: Option<Media>, w: Place): State
    requires c < |st.heap| && c < |st.place|
  {
    st.(heap := st.heap[c := v], place := st.place[c := w])
  }

  /** Zero the packet and put it in the pool. */
  function Recycle(st: State, c: Cell): State
    requires c < |st.heap| && c < |st.place|
  {
    SetCell(st, c, None, Pooled).(pool := st.pool + {c})
  }

  predicate Known(st: State, c: Cell) { c < |st.heap| && c < |st.place| }

  function Content(st: State, c: Cell): Media { if c < |st.heap| && st.heap[c].Some? then st.heap[c].value else 0 }

  // ---------------------------------------------------------------- writers

  function TakeStep(st: State, i: nat): State
    requires i < |st.entries|
  {
    var e := st.entries[i];
    if (e.writer.Running? || e.writer.Draining?) && e.hand.None? && e.queue != [] && Known(st, e.queue[0]) then
      SetEntry(SetCell(st, e.queue[0], st.heap[e.queue[0]], InHand(i)), i, e.(queue := e.queue[1..], hand := Some(e.queue[0])))
    else st
  }

  /** The write itself, its counter, and the cell's return to the pool. */
  function FinishStep(st: State, i: nat): State
    requires i < |st.entries|
  {
    var e := st.entries[i];
    if e.hand.Some? && Known(st, e.hand.value) then
      var m := Content(st, e.hand.value);
      SetEntry(Recycle(st, e.hand.value), i, e.(hand := None, h := e.h.(written := e.h.written + [m]))).(
        n := st.n.(written := st.n.written + 1))
    else st
  }

  function WriterStep(st: State, i: nat, a: Action): State
    requires i < |st.entries|
  {
    var e := st.entries[i];
    match a
    case Cancel(_) => SetEntry(st, i, e.(cancelled := true))
    case Take(_) => TakeStep(st, i)
    case Finish(_) => FinishStep(st, i)
    case Notice(_) => if e.writer.Running? && e.cancelled && e.hand.None? then SetEntry(st, i, e.(writer := Draining)) else st
    case Exit(_) =>
      if e.writer.Draining? && e.hand.None? && e.queue == [] then SetEntry(st, i, e.(writer := Exited)) else st
    case _ => st
  }

  // ---------------------------------------------------------------- subscribers and rebuilds

  /** One packet left in a finished entry's queue moves to the rebuilt queue, or is discarded when that is full. */
  function MoveStep(st: State, i: nat, j: nat): State
    requires i < |st.entries| && j < |st.entries|
  {
    var src, dst := st.entries[i], st.entries[j];
    if i != j && src.writer.Exited? && src.hand.None? && dst.writer.Waiting? && src.queue != [] && Known(st, src.queue[0]) then
      var c, m := src.queue[0], Content(st, src.queue[0]);
      var rest := SetEntry(st, i, src.(queue := src.queue[1..], h := src.h.(movedOut := src.h.movedOut + [m])));
      if |dst.queue| < st.cap then
        SetEntry(SetCell(rest, c, st.heap[c], InQueue(j)), j,
                 dst.(queue := dst.queue + [c], h := dst.h.(movedIn := dst.h.movedIn + [m])))
      else Recycle(rest, c).(n := st.n.(discarded := st.n.discarded + 1))
    else st
  }

  function InstallStep(st: State, i: nat): State
    requires i < |st.entries|
  {
    var e := st.entries[i];
    if e.writer.Waiting? && e.pc !in st.subscribers
    then SetEntry(st, i, e.(writer := Running)).(subscribers := st.subscribers[e.pc := i])
    else st
  }

  // ---------------------------------------------------------------- WriteRTP

  predicate SnapshotOf(st: State, s: seq<nat>) {
    && (forall a, b :: 0 <= a < b < |s| ==> s[a] != s[b])
    && (forall k :: 0 <= k < |s| ==> s[k] in st.subscribers.Values)
    && (forall i :: i in st.subscribers.Values ==> i in s)
  }

  function Served(p: Producer): Producer
    requires p.Fanning? && p.todo != []
  {
    if |p.todo| == 1 then Idle else Fanning(p.m, p.todo[1..], None)
  }

  /** The offer met a full queue. */
  function DropStep(st: State, p: nat): State
    requires p < |st.producers| && st.producers[p].Fanning? && st.producers[p].todo != []
    requires st.producers[p].todo[0] < |st.entries|
  {
    var w := st.producers[p];
    var e := st.entries[w.todo[0]];
    SetEntry(st, w.todo[0], e.(dropped := e.dropped + 1, h := e.h.(offers := e.h.offers + [Offer(w.m, false)]))).(
      n := st.n.(dropped := st.n.dropped + 1), producers := st.producers[p := Served(w)])
  }

  /** Take a cell from the pool, or a new one, and copy the packet into it. */
  function CloneStep(st: State, p: nat, pick: Option<Cell>): State
    requires p < |st.producers| && st.producers[p].Fanning?
  {
    var w := st.producers[p];
    if pick.Some? && pick.value in st.pool && Known(st, pick.value) then
      SetCell(st, pick.value, Some(w.m), WithProducer(p)).(
        pool := st.pool - {pick.value}, producers := st.producers[p := w.(clone := pick)])
    else
      st.(heap := st.heap + [Some(w.m)], place := st.place + [WithProducer(p)],
          producers := st.producers[p := w.(clone := Some(|st.heap|))])
  }

  function EnqueueStep(st: State, p: nat, c: Cell): State
    requires p < |st.producers| && st.producers[p].Fanning? && st.producers[p].todo != []
    requires st.producers[p].todo[0] < |st.entries| && Known(st, c)
  {
    var w := st.producers[p];
    var i := w.todo[0];
    var e := st.entries[i];
    SetEntry(SetCell(st, c, st.heap[c], InQueue(i)), i, e.(queue := e.queue + [c], h := e.h.(offers := e.h.offers + [Offer(w.m, true)]))).(
      n := st.n.(forwarded := st.n.forwarded + 1), producers := st.producers[p := Served(w)])
  }

  /** Full before the clone: drop. Otherwise clone, then enqueue, or drop when the queue filled up meanwhile. */
  function ServeStep(st: State, p: nat, pick: Option<Cell>): State
    requires p < |st.producers|
  {
    var w := st.producers[p];
    if w.Idle? || w.todo == [] || w.todo[0] >= |st.entries| then st
    else
      var e := st.entries[w.todo[0]];
      if w.clone.None? then
        if |e.queue| >= st.cap then DropStep(st, p) else CloneStep(st, p, pick)
      else if !Known(st, w.clone.value) then st
      else if |e.queue| >= st.cap then Recycle(DropStep(st, p), w.clone.value)
      else EnqueueStep(st, p, w.clone.value)
  }

  function BeginStep(st: State, p: nat, m: Media, s: seq<nat>): State
    requires p < |st.producers|
  {
    if st.producers[p].Idle? && SnapshotOf(st, s) && s != [] then
      st.(producers := st.producers[p := Fanning(m, s, None)], inputs := st.inputs + [Input(m, s)],
          n := st.n.(promised := st.n.promised + |s|))
    else st
  }

  function Next(st: State, a: Action): State {
    match a
    case Attach(pc) =>
      if pc in st.subscribers then st
      else st.(entries := st.entries + [NewEntry(pc, Running)], subscribers := st.subscribers[pc := |st.entries|])
    case Detach(pc) => st.(subscribers := st.subscribers - {pc})
    case NewQueue(pc) => st.(entries := st.entries + [NewEntry(pc, Waiting)])
    case Move(i, j) => if i < |st.entries| && j < |st.entries| then MoveStep(st, i, j) else st
    case Install(i) => if i < |st.entries| then InstallStep(st, i) else st
    case Spawn => st.(producers := st.producers + [Idle])
    case Begin(p, m, s) => if p < |st.producers| then BeginStep(st, p, m, s) else st
    case Serve(p, pick) => if p < |st.producers| then ServeStep(st, p, pick) else st
    case Forget(c) =>
      if c in st.pool && Known(st, c) then st.(pool := st.pool - {c}, place := st.place[c := Collected]) else st
    case Cancel(i) => if i < |st.entries| then WriterStep(st, i, a) else st
    case Take(i) => if i < |st.entries| then WriterStep(st, i, a) else st
    case Finish(i) => if i < |st.entries| then WriterStep(st, i, a) else st
    case Notice(i) => if i < |st.entries| then WriterStep(st, i, a) else st
    case Exit(i) => if i < |st.entries| then WriterStep(st, i, a) else st
  }

  function Run(st: State, run: seq<Action>): State
    decreases |run|
  {
    if run == [] then st else Run(Next(st, run[0]), run[1..])
  }
}
