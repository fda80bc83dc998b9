/**
 A publisher swap against the subscribers it must re-codec, step by step: UpdatePublisher holds the lifecycle lock
 throughout but the forwarder's own lock only in short sections, so subscribers come and go in between.
 */
module Codec {
  import opened Prelude

  type Pc = nat
  type Mime = string

  /** A publisher track; a placeholder is not remote, and a codec that was never negotiated has an empty MIME. */
  datatype Publisher = Publisher(obj: nat, remote: bool, mime: Mime, audio: bool)

  /**
   A subscriber's egress track: its MIME, and which entry it is. History: how many swaps had happened when its codec
   was read, and how many copies of the map had been taken by swaps when it was inserted.
   */
  datatype Sub = Sub(mime: Mime, entry: nat, read: nat, copy: nat)

  /** AddSubscriber between reading the codec and inserting the entry; `epoch` is the swap count it read under. */
  datatype Adding = Adding(pc: Pc, mime: Mime, epoch: nat)

  datatype Item = Item(pc: Pc, sub: Sub)

  datatype Update =
    | Resting
    | Snapped(publisher: Publisher, items: seq<Item>)   // subscribers copied; the publisher not yet swapped
    | Reconciling(todo: seq<Item>)                      // swapped; these are still to be checked
    | Rebuilding(pc: Pc, rest: seq<Item>)               // the stale entry is out; the new one not yet in

  datatype State = State(
    publisher: Publisher, subs: map<Pc, Sub>, update: Update, adding: map<nat, Adding>, next: nat,
    publishers: seq<Publisher>,   // history: the publishers so far, the current one last
    copies: nat)                  // history: copies of the map taken by swaps so far
  {
    /** Swaps so far. */
    function Epoch(): nat { if publishers == [] then 0 else |publishers| - 1 }
  }

  datatype Action =
    | AddBegin(k: nat, pc: Pc) | AddEnd(k: nat, ok: bool) | Remove(pc: Pc)
    | UpdateBegin(publisher: Publisher, items: seq<Item>) | UpdateSwap | Check | Rebuild(ok: bool)

  predicate Authoritative(p: Publisher) { p.remote && p.mime != "" }

  /** The publisher's MIME, or one inferred from the kind when there is none yet. */
  function EgressMime(p: Publisher): Mime {
    if p.mime != "" then p.mime else if p.audio then "audio/opus" else "video/VP8"
  }

  /** Every entry of the map, once. */
  predicate Lists(items: seq<Item>, subs: map<Pc, Sub>) {
    && (forall n :: 0 <= n < |items| ==> items[n].pc in subs && subs[items[n].pc] == items[n].sub)
    && (forall pc :: pc in subs ==> Item(pc, subs[pc]) in items)
  }

  function Next(st: State, a: Action): State {
    match a
    case AddBegin(k, pc) =>
      if k in st.adding || pc in st.subs then st
      else st.(adding := st.adding[k := Adding(pc, EgressMime(st.publisher), st.Epoch())])
    case AddEnd(k, ok) =>
      if k !in st.adding then st
      else if !ok || st.adding[k].pc in st.subs then st.(adding := st.adding - {k})
      else
        var a := st.adding[k];
        st.(adding := st.adding - {k}, subs := st.subs[a.pc := Sub(a.mime, st.next, a.epoch, st.copies)], next := st.next + 1)
    case Remove(pc) => st.(subs := st.subs - {pc})
    case UpdateBegin(p, items) =>
      if st.update.Resting? && p.obj != st.publisher.obj && Lists(items, st.subs) then
        st.(update := Snapped(p, items), copies := st.copies + 1)
      else st
    case UpdateSwap =>
      if st.update.Snapped? then
        st.(publisher := st.update.publisher, publishers := st.publishers + [st.update.publisher],
            update := Reconciling(if Authoritative(st.update.publisher) then st.update.items else []))
      else st
    case Check => if st.update.Reconciling? then CheckStep(st, st.update.todo) else st
    case Rebuild(ok) => if st.update.Rebuilding? then RebuildStep(st, st.update.pc, st.update.rest, ok) else st
  }

  /** Skip an entry whose MIME already matches; otherwise stop it and take it out. */
  function CheckStep(st: State, todo: seq<Item>): State {
    if todo == [] then st.(update := Resting)
    else if todo[0].sub.mime == st.publisher.mime then st.(update := Reconciling(todo[1..]))
    else st.(subs := st.subs - {todo[0].pc}, update := Rebuilding(todo[0].pc, todo[1..]))
  }

  /** The rebuilt entry goes in, unless the rebuild failed or somebody subscribed this connection meanwhile. */
  function RebuildStep(st: State, pc: Pc, rest: seq<Item>, ok: bool): State {
    if ok && pc !in st.subs
    then st.(subs := st.subs[pc := Sub(st.publisher.mime, st.next, st.Epoch(), st.copies)], next := st.next + 1, update := Reconciling(rest))
    else st.(update := Reconciling(rest))
  }

  // ---------------------------------------------------------------- the invariant

  /** With an authoritative publisher an egress MIME has to be the publisher's. */
  predicate Fits(p: Publisher, mime: Mime) { Authoritative(p) ==> mime == p.mime }

  predicate Matches(p: Publisher, s: Sub) { Fits(p, s.mime) }

  /** Entry s was inserted after the last swap copied the map, and its codec read before that swap. */
  predicate Missed(st: State, s: Sub) { s.copy == st.copies && s.read < st.Epoch() }

  /** Entries and calls in flight carry the MIME of the publisher they read. */
  ghost predicate Reads(st: State) {
    && st.publishers != [] && st.publishers[|st.publishers| - 1] == st.publisher
    && (st.update.Rebuilding? || (st.update.Reconciling? && st.update.todo != []) ==> Authoritative(st.publisher))
    && (forall pc :: pc in st.subs ==>
          st.subs[pc].read <= st.Epoch() && st.subs[pc].mime == EgressMime(st.publishers[st.subs[pc].read]) &&
          st.subs[pc].copy <= st.copies)
    && (forall k :: k in st.adding ==>
          st.adding[k].epoch <= st.Epoch() && st.adding[k].mime == EgressMime(st.publishers[st.adding[k].epoch]))
  }

  /** What is true while a swap is under way: an entry that does not match is still to be checked, or was missed. */
  ghost predicate Inv(st: State) {
    match st.update
    case Resting => forall pc :: pc in st.subs ==> Matches(st.publisher, st.subs[pc]) || Missed(st, st.subs[pc])
    case Snapped(_, items) => forall pc :: pc in st.subs ==> st.subs[pc].copy == st.copies || Item(pc, st.subs[pc]) in items
    case Reconciling(todo) =>
      forall pc :: pc in st.subs ==> Matches(st.publisher, st.subs[pc]) || Missed(st, st.subs[pc]) || Item(pc, st.subs[pc]) in todo
    case Rebuilding(_, rest) =>
      forall pc :: pc in st.subs ==> Matches(st.publisher, st.subs[pc]) || Missed(st, st.subs[pc]) || Item(pc, st.subs[pc]) in rest
  }

  lemma {:induction false} ReadsNext(st: State, a: Action)
    requires Reads(st)
    ensures Reads(Next(st, a))
  {
    match a
    case AddBegin(_, _) => case Remove(_) => case UpdateBegin(_, _) => case Check =>
    case AddEnd(_, _) => ReadsAdd(st, a);
    case UpdateSwap => if st.update.Snapped? { ReadsSwap(st); }
    case Rebuild(_) => ReadsRebuild(st, a);
  }

  lemma ReadsAdd(st: State, a: Action)
    requires Reads(st) && a.AddEnd?
    ensures Reads(Next(st, a))
  {
  }

  lemma ReadsRebuild(st: State, a: Action)
    requires Reads(st) && a.Rebuild?
    ensures Reads(Next(st, a))
  {
  }

  lemma ReadsSwap(st: State)
    requires Reads(st) && st.update.Snapped?
    ensures Reads(Next(st, UpdateSwap))
  {
  }

  /** An entry inserted now matches, or was read before the last swap. */
  lemma ReadNowMatches(st: State, k: nat)
    requires Reads(st) && k in st.adding && st.adding[k].epoch == st.Epoch()
    ensures Authoritative(st.publisher) ==> st.adding[k].mime == st.publisher.mime
  {
  }

  lemma {:induction false} AddEndNext(st: State, a: Action)
    requires Inv(st) && Reads(st) && a.AddEnd?
    ensures Inv(Next(st, a))
  {
    if a.k in st.adding && st.adding[a.k].epoch == st.Epoch() { ReadNowMatches(st, a.k); }
    match st.update
    case Resting => case Snapped(_, _) => case Reconciling(_) => case Rebuilding(_, _) =>
  }

  lemma {:induction false} CheckNext(st: State)
    requires Inv(st) && st.update.Reconciling?
    ensures Inv(Next(st, Check))
  {
    var todo := st.update.todo;
    var v := Next(st, Check);
    if todo != [] {
      forall pc | pc in v.subs
        ensures Matches(v.publisher, v.subs[pc]) || Missed(v, v.subs[pc]) || Item(pc, v.subs[pc]) in todo[1..]
      {
        if Item(pc, v.subs[pc]) in todo {
          var n :| 0 <= n < |todo| && todo[n] == Item(pc, v.subs[pc]);
          if n > 0 { assert todo[1..][n - 1] == Item(pc, v.subs[pc]); }
        }
      }
    }
  }

  lemma {:induction false} SwapNext(st: State)
    requires Inv(st) && Reads(st) && st.update.Snapped?
    ensures Inv(Next(st, UpdateSwap))
  {
    var v := Next(st, UpdateSwap);
    forall pc | pc in v.subs
      ensures Matches(v.publisher, v.subs[pc]) || Missed(v, v.subs[pc]) || Item(pc, v.subs[pc]) in v.update.todo
    {
      assert v.subs[pc].read < v.Epoch();
    }
  }

  lemma {:induction false} InvNext(st: State, a: Action)
    requires Inv(st) && Reads(st)
    ensures Inv(Next(st, a))
  {
    match a
    case AddBegin(_, _) =>
    case AddEnd(_, _) => AddEndNext(st, a);
    case Remove(_) =>
    case UpdateBegin(p, items) =>
    case UpdateSwap => if st.update.Snapped? { SwapNext(st); }
    case Check => if st.update.Reconciling? { CheckNext(st); }
    case Rebuild(_) =>
  }

  // ---------------------------------------------------------------- runs

  function Run(st: State, run: seq<Action>): State
    decreases |run|
  {
    if run == [] then st else Run(Next(st, run[0]), run[1..])
  }

  function Initial(p: Publisher): State { State(p, map[], Resting, map[], 0, [p], 0) }

  lemma {:induction false} RunInv(st: State, run: seq<Action>)
    requires Inv(st) && Reads(st)
    ensures Inv(Run(st, run)) && Reads(Run(st, run))
    decreases |run|
  {
    if run != [] {
      InvNext(st, run[0]);
      ReadsNext(st, run[0]);
      RunInv(Next(st, run[0]), run[1..]);
    }
  }

  /**
   Over every run, AddSubscriber racing swaps at will: whenever no swap is under way and the publisher is
   authoritative, a subscriber's egress MIME differs from the publisher's if and only if it was inserted after the
   last swap had copied the map, with a codec read before that swap from a publisher of another MIME.
   */
  lemma {:induction false} MismatchIff(p: Publisher, run: seq<Action>, pc: Pc)
    requires var st := Run(Initial(p), run); st.update.Resting? && Authoritative(st.publisher) && pc in st.subs
    ensures var st := Run(Initial(p), run); var s := st.subs[pc];
            && s.read < |st.publishers|
            && (s.mime != st.publisher.mime <==>
                  s.copy == st.copies && s.read < st.Epoch() && EgressMime(st.publishers[s.read]) != st.publisher.mime)
  {
    RunInv(Initial(p), run);
  }

  /**
   Over every run an entry carries the MIME of the publisher it was read from, or, when that publisher had none yet,
   Opus for audio and VP8 for video.
   */
  lemma {:induction false} InferredCodec(p: Publisher, run: seq<Action>, pc: Pc)
    requires pc in Run(Initial(p), run).subs
    ensures var st := Run(Initial(p), run); var s := st.subs[pc];
            && s.read < |st.publishers|
            && var from := st.publishers[s.read];
               && (from.mime != "" ==> s.mime == from.mime)
               && (from.mime == "" && from.audio ==> s.mime == "audio/opus")
               && (from.mime == "" && !from.audio ==> s.mime == "video/VP8")
  {
    RunInv(Initial(p), run);
  }

  /** The step inserts an entry whose codec was read before the last swap, or that a swap about to happen did not see. */
  predicate AcrossSwap(st: State, a: Action) {
    && a.AddEnd? && a.ok && a.k in st.adding && st.adding[a.k].pc !in st.subs
    && (st.adding[a.k].epoch != st.Epoch() || st.update.Snapped?)
  }

  ghost predicate NeverAcross(st: State, run: seq<Action>)
    decreases |run|
  {
    run != [] ==> !AcrossSwap(st, run[0]) && NeverAcross(Next(st, run[0]), run[1..])
  }

  /** No entry was inserted after the copy of a swap with a codec read before it, nor will be by the swap under way. */
  ghost predicate NoneMissed(st: State) {
    forall pc :: pc in st.subs ==> !Missed(st, st.subs[pc]) && (st.update.Snapped? ==> st.subs[pc].copy < st.copies)
  }

  lemma {:induction false} NoneMissedNext(st: State, a: Action)
    requires NoneMissed(st) && Reads(st) && !AcrossSwap(st, a)
    ensures NoneMissed(Next(st, a))
  {
    match a
    case AddBegin(_, _) => case AddEnd(_, _) => case Remove(_) => case UpdateBegin(_, _) => case UpdateSwap => case Check =>
    case Rebuild(_) =>
  }

  lemma {:induction false} NoneMissedRun(st: State, run: seq<Action>)
    requires NoneMissed(st) && Inv(st) && Reads(st) && NeverAcross(st, run)
    ensures NoneMissed(Run(st, run))
    decreases |run|
  {
    if run != [] {
      NoneMissedNext(st, run[0]);
      InvNext(st, run[0]);
      ReadsNext(st, run[0]);
      NoneMissedRun(Next(st, run[0]), run[1..]);
    }
  }

  /** In particular all MIMEs agree at rest over every run in which no AddSubscriber is in flight across a swap. */
  lemma {:induction false} CodecReconciliation(p: Publisher, run: seq<Action>, pc: Pc)
    requires NeverAcross(Initial(p), run)
    requires var st := Run(Initial(p), run);
             st.update.Resting? && Authoritative(st.publisher) && pc in st.subs
    ensures var st := Run(Initial(p), run); st.subs[pc].mime == st.publisher.mime
  {
    RunInv(Initial(p), run);
    NoneMissedRun(Initial(p), run);
  }

  /** A subscriber added while the swap is between its copy of the map and the new publisher keeps the wrong codec. */
  lemma {:induction false} MissedBySwap(p: Publisher, r: Publisher, pc: Pc)
    requires p.obj != r.obj && Authoritative(r) && EgressMime(p) != r.mime
    ensures var run := [UpdateBegin(r, []), AddBegin(0, pc), AddEnd(0, true), UpdateSwap, Check];
            var st := Run(Initial(p), run);
            st.update.Resting? && st.publisher == r && pc in st.subs && st.subs[pc].mime == EgressMime(p)
  {
    var s0 := Initial(p);
    var s1 := Next(s0, UpdateBegin(r, []));
    var s2 := Next(s1, AddBegin(0, pc));
    var s3 := Next(s2, AddEnd(0, true));
    var s4 := Next(s3, UpdateSwap);
    var s5 := Next(s4, Check);
    assert Run(s4, [Check]) == s5;
    assert Run(s3, [UpdateSwap, Check]) == s5;
    assert Run(s2, [AddEnd(0, true), UpdateSwap, Check]) == s5;
    assert Run(s1, [AddBegin(0, pc), AddEnd(0, true), UpdateSwap, Check]) == s5;
    assert Run(s0, [UpdateBegin(r, []), AddBegin(0, pc), AddEnd(0, true), UpdateSwap, Check]) == s5;
  }

  // ---------------------------------------------------------------- one subscriber comes and goes

  lemma {:induction false} RunTwo(st: State, a: Action, b: Action)
    ensures Run(st, [a, b]) == Next(Next(st, a), b)
  {
    assert [a, b][1..] == [b] && [b][1..] == [];
    assert Run(Next(st, a), [b]) == Run(Next(Next(st, a), b), []);
  }

  /** AddSubscriber of a connection that has no entry makes one with the egress MIME of now, or nothing when it fails. */
  lemma {:induction false} AddMakesOne(st: State, k: nat, pc: Pc, ok: bool)
    requires k !in st.adding && pc !in st.subs
    ensures var v := Run(st, [AddBegin(k, pc), AddEnd(k, ok)]);
            if ok then v == st.(subs := v.subs, next := st.next + 1) && v.subs == st.subs[pc := Sub(EgressMime(st.publisher), st.next, st.Epoch(), st.copies)]
            else v == st
  {
    RunTwo(st, AddBegin(k, pc), AddEnd(k, ok));
    assert Next(st, AddBegin(k, pc)).adding - {k} == st.adding;
  }

  /** The first insert for a connection wins; a later one changes nothing. */
  lemma {:induction false} FirstInsertWins(st: State, k: nat, ok: bool)
    requires k in st.adding && st.adding[k].pc in st.subs
    ensures Next(st, AddEnd(k, ok)) == st.(adding := st.adding - {k})
    ensures forall j :: j !in st.adding ==> Next(st, AddBegin(j, st.adding[k].pc)) == st
  {
  }

  /** Removing the new subscriber leaves the subscribers as they were before it. */
  lemma {:induction false} RemoveUndoesAdd(st: State, k: nat, pc: Pc)
    requires k !in st.adding && pc !in st.subs
    ensures Next(Run(st, [AddBegin(k, pc), AddEnd(k, true)]), Remove(pc)) == st.(next := st.next + 1)
  {
    AddMakesOne(st, k, pc, true);
    var v := Run(st, [AddBegin(k, pc), AddEnd(k, true)]);
    assert v.subs - {pc} == st.subs;
  }

  /** Swaps do not overlap, and a swap to the current publisher is none. */
  lemma OneSwapAtATime(st: State, p: Publisher, items: seq<Item>)
    requires !st.update.Resting? || p.obj == st.publisher.obj
    ensures Next(st, UpdateBegin(p, items)) == st
  {
  }

  // ---------------------------------------------------------------- entries

  ghost predicate Numbered(st: State) {
    && (forall a :: a in st.subs ==> st.subs[a].entry < st.next)
    && (forall a, b :: a in st.subs && b in st.subs && st.subs[a].entry == st.subs[b].entry ==> a == b)
  }

  lemma {:induction false} NumberedNext(st: State, a: Action)
    requires Numbered(st)
    ensures Numbered(Next(st, a)) && st.next <= Next(st, a).next
    ensures forall pc :: pc in Next(st, a).subs ==>
              (pc in st.subs && Next(st, a).subs[pc] == st.subs[pc]) || Next(st, a).subs[pc].entry >= st.next
  {
    match a
    case AddBegin(_, _) => case Remove(_) => case UpdateBegin(_, _) => case UpdateSwap => case Check =>
    case AddEnd(_, _) => if Next(st, a).next > st.next { NumberedInsert(st, Next(st, a), st.adding[a.k].pc); }
    case Rebuild(_) => if Next(st, a).next > st.next { NumberedInsert(st, Next(st, a), st.update.pc); }
  }

  lemma NumberedInsert(st: State, v: State, pc: Pc)
    requires Numbered(st) && pc !in st.subs && pc in v.subs && v.subs == st.subs[pc := v.subs[pc]]
    requires v.subs[pc].entry == st.next && v.next == st.next + 1
    ensures Numbered(v)
  {
  }

  /**
   Over every run an entry belongs to one connection for good: a connection that has an entry now and had an older one
   has a new entry, and an entry that is still there has not changed.
   */
  lemma {:induction false} EntriesAreNew(st: State, run: seq<Action>)
    requires Numbered(st)
    ensures Numbered(Run(st, run)) && st.next <= Run(st, run).next
    ensures forall pc :: pc in Run(st, run).subs ==>
              (pc in st.subs && Run(st, run).subs[pc] == st.subs[pc]) || Run(st, run).subs[pc].entry >= st.next
    decreases |run|
  {
    if run != [] {
      NumberedNext(st, run[0]);
      EntriesAreNew(Next(st, run[0]), run[1..]);
    }
  }

  /** The items the swap has yet to check, after the one being rebuilt. */
  function Todo(u: Update): seq<Item> { if u.Reconciling? then u.todo else if u.Rebuilding? then u.rest else [] }

  /** pc has an entry with the publisher's MIME, and had one when the swap under way copied the map, if it did. */
  ghost predicate Spared(st: State, pc: Pc) {
    && pc in st.subs && st.subs[pc].mime == st.publisher.mime && !st.update.Snapped?
    && forall n :: 0 <= n < |Todo(st.update)| && Todo(st.update)[n].pc == pc ==> Todo(st.update)[n].sub.mime == st.publisher.mime
  }

  lemma {:induction false} SparedNext(st: State, a: Action, pc: Pc)
    requires Spared(st, pc) && a != Remove(pc) && !a.UpdateBegin?
    ensures Spared(Next(st, a), pc) && Next(st, a).subs[pc] == st.subs[pc] && Next(st, a).publisher == st.publisher
  {
    match a
    case AddBegin(_, _) =>
    case AddEnd(_, _) =>
    case Remove(other) => assert other != pc; assert Todo(Next(st, a).update) == Todo(st.update);
    case UpdateBegin(_, _) =>
    case UpdateSwap =>
    case Check => if st.update.Reconciling? && st.update.todo != [] { SparedCheck(st, pc); }
    case Rebuild(_) => assert Todo(Next(st, a).update) == Todo(st.update);
  }

  lemma {:induction false} SparedCheck(st: State, pc: Pc)
    requires Spared(st, pc) && st.update.Reconciling? && st.update.todo != []
    ensures Spared(Next(st, Check), pc) && Next(st, Check).subs[pc] == st.subs[pc]
  {
    var todo := Todo(st.update);
    assert todo[0].pc == pc ==> todo[0].sub.mime == st.publisher.mime;
    assert forall n :: 0 <= n < |todo| - 1 ==> todo[1..][n] == todo[n + 1];
    assert Todo(Next(st, Check).update) == todo[1..];
  }

  /** Once the publisher is swapped, the rest of the swap leaves an entry that already matches alone, whoever comes and goes. */
  lemma {:induction false} MatchingKept(st: State, run: seq<Action>, pc: Pc)
    requires Spared(st, pc) && forall n :: 0 <= n < |run| ==> run[n] != Remove(pc) && !run[n].UpdateBegin?
    ensures pc in Run(st, run).subs && Run(st, run).subs[pc] == st.subs[pc]
    decreases |run|
  {
    if run != [] {
      SparedNext(st, run[0], pc);
      MatchingKept(Next(st, run[0]), run[1..], pc);
    }
  }
}
