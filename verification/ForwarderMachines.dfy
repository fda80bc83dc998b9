/**
 The forwarder object's methods against the interleaved machines: what a method does with nobody in between is a run
 of the machine that has everybody in between.
 */
module ForwarderMachines {
  import opened Prelude
  import C = Codec
  import Q = FanoutQueue
  import P = Pump
  import opened ForwarderOps

  // ---------------------------------------------------------------- the publisher swap

  /** Same publisher, same subscribers with the same MIMEs. */
  ghost predicate Mirrors(st: C.State, p: C.Publisher, subs: map<C.Pc, Subscriber>) {
    && st.publisher == p && st.subs.Keys == subs.Keys
    && forall pc :: pc in subs ==> st.subs[pc].mime == subs[pc].mime
  }

  function Elements(order: seq<C.Pc>): set<C.Pc> { set pc | pc in order }

  predicate Distinct(order: seq<C.Pc>) { forall a, b :: 0 <= a < b < |order| ==> order[a] != order[b] }

  function Items(order: seq<C.Pc>, subs: map<C.Pc, C.Sub>): (items: seq<C.Item>)
    requires forall n :: 0 <= n < |order| ==> order[n] in subs
    ensures |items| == |order|
    ensures forall n :: 0 <= n < |order| ==> items[n] == C.Item(order[n], subs[order[n]])
  {
    seq(|order|, n requires 0 <= n < |order| => C.Item(order[n], subs[order[n]]))
  }

  /** The steps for the subscribers in `order`: a check each, and a rebuild where the MIME differs. */
  function ReconcileRun(order: seq<C.Pc>, subs: map<C.Pc, Subscriber>, mime: C.Mime, rebuilds: C.Pc -> bool): seq<C.Action> {
    if order == [] then [C.Check]
    else
      (if order[0] in subs && subs[order[0]].mime == mime then [C.Check] else [C.Check, C.Rebuild(rebuilds(order[0]))])
      + ReconcileRun(order[1..], subs, mime, rebuilds)
  }

  lemma {:induction false} RunAppend(st: C.State, a: seq<C.Action>, b: seq<C.Action>)
    ensures C.Run(st, a + b) == C.Run(C.Run(st, a), b)
    decreases |a|
  {
    if a == [] {
      assert a + b == b;
    } else {
      assert (a + b)[0] == a[0] && (a + b)[1..] == a[1..] + b;
      RunAppend(C.Next(st, a[0]), a[1..], b);
    }
  }

  lemma {:induction false} RunOne(st: C.State, a: C.Action)
    ensures C.Run(st, [a]) == C.Next(st, a)
  {
    assert C.Run(C.Next(st, a), []) == C.Next(st, a);
  }

  /** One turn of the swap's loop is a check, and a rebuild where the MIME differs. */
  lemma {:induction false} ReconcileOne(
    st: C.State, subs: map<C.Pc, Subscriber>, p: C.Publisher, rebuilds: C.Pc -> bool, todo: set<C.Pc>, pc: C.Pc, rest: seq<C.Item>)
    requires pc in subs && pc in todo && Mirrors(st, p, Reconciled(subs, p, rebuilds, todo)) && pc in st.subs
    requires st.update == C.Reconciling([C.Item(pc, st.subs[pc])] + rest)
    ensures var v := C.Run(st, if subs[pc].mime == p.mime then [C.Check] else [C.Check, C.Rebuild(rebuilds(pc))]);
            && Mirrors(v, p, Reconciled(subs, p, rebuilds, todo - {pc})) && v.update == C.Reconciling(rest)
            && (forall k :: k in st.subs && k != pc ==> k in v.subs && v.subs[k] == st.subs[k])
  {
    ReconcileMore(subs, p, rebuilds, todo, pc);
    var items := [C.Item(pc, st.subs[pc])] + rest;
    assert items[1..] == rest;
    RunOne(st, C.Check);
    if subs[pc].mime != p.mime {
      var s1 := C.Next(st, C.Check);
      assert s1.update == C.Rebuilding(pc, rest);
      RunOne(s1, C.Rebuild(rebuilds(pc)));
      RunAppend(st, [C.Check], [C.Rebuild(rebuilds(pc))]);
      assert [C.Check] + [C.Rebuild(rebuilds(pc))] == [C.Check, C.Rebuild(rebuilds(pc))];
    }
  }

  lemma {:induction false} ReconcileIsRun(
    st: C.State, subs: map<C.Pc, Subscriber>, p: C.Publisher, rebuilds: C.Pc -> bool, order: seq<C.Pc>)
    requires Distinct(order) && (forall n :: 0 <= n < |order| ==> order[n] in subs && order[n] in st.subs)
    requires Mirrors(st, p, Reconciled(subs, p, rebuilds, Elements(order))) && st.update == C.Reconciling(Items(order, st.subs))
    ensures var v := C.Run(st, ReconcileRun(order, subs, p.mime, rebuilds));
            Mirrors(v, p, Reconciled(subs, p, rebuilds, {})) && v.update.Resting?
    decreases |order|
  {
    if order == [] {
      RunOne(st, C.Check);
      assert Elements(order) == {};
    } else {
      var pc, rest := order[0], Items(order[1..], st.subs);
      assert Items(order, st.subs) == [C.Item(pc, st.subs[pc])] + rest;
      var first := if subs[pc].mime == p.mime then [C.Check] else [C.Check, C.Rebuild(rebuilds(pc))];
      ReconcileOne(st, subs, p, rebuilds, Elements(order), pc, rest);
      var v := C.Run(st, first);
      assert Elements(order) - {pc} == Elements(order[1..]);
      assert Items(order[1..], v.subs) == rest;
      ReconcileIsRun(v, subs, p, rebuilds, order[1..]);
      RunAppend(st, first, ReconcileRun(order[1..], subs, p.mime, rebuilds));
    }
  }

  lemma {:induction false} ListsAll(order: seq<C.Pc>, subs: map<C.Pc, C.Sub>)
    requires Elements(order) == subs.Keys
    ensures (forall n :: 0 <= n < |order| ==> order[n] in subs) && C.Lists(Items(order, subs), subs)
  {
    assert forall n :: 0 <= n < |order| ==> order[n] in Elements(order);
    var items := Items(order, subs);
    forall pc | pc in subs
      ensures C.Item(pc, subs[pc]) in items
    {
      assert pc in Elements(order);
      var n :| 0 <= n < |order| && order[n] == pc;
      assert items[n] == C.Item(pc, subs[pc]);
    }
  }

  /** What a swap leaves of the subscribers. */
  function Swapped(subs: map<C.Pc, Subscriber>, p: C.Publisher, rebuilds: C.Pc -> bool): map<C.Pc, Subscriber> {
    if C.Authoritative(p) then Reconciled(subs, p, rebuilds, {}) else subs
  }

  /** The steps of a swap that visits the subscribers in `order`. */
  function SwapRun(order: seq<C.Pc>, subs: map<C.Pc, Subscriber>, p: C.Publisher, rebuilds: C.Pc -> bool, items: seq<C.Item>): seq<C.Action> {
    [C.UpdateBegin(p, items), C.UpdateSwap] + ReconcileRun(if C.Authoritative(p) then order else [], subs, p.mime, rebuilds)
  }

  /** The copy of the map and the swap itself. */
  lemma {:induction false} SwapBegun(st: C.State, p: C.Publisher, items: seq<C.Item>)
    requires st.update.Resting? && p.obj != st.publisher.obj && C.Lists(items, st.subs)
    ensures var v := C.Run(st, [C.UpdateBegin(p, items), C.UpdateSwap]);
            v.publisher == p && v.subs == st.subs && v.update == C.Reconciling(if C.Authoritative(p) then items else [])
  {
    var s1 := C.Next(st, C.UpdateBegin(p, items));
    RunOne(st, C.UpdateBegin(p, items));
    RunOne(s1, C.UpdateSwap);
    RunAppend(st, [C.UpdateBegin(p, items)], [C.UpdateSwap]);
    assert [C.UpdateBegin(p, items)] + [C.UpdateSwap] == [C.UpdateBegin(p, items), C.UpdateSwap];
  }

  /** UpdatePublisher without company is a run of the swap machine, whatever the publisher and the order of the map. */
  lemma {:induction false} UpdateIsRun(
    st: C.State, before: C.Publisher, subs: map<C.Pc, Subscriber>, p: C.Publisher, rebuilds: C.Pc -> bool, order: seq<C.Pc>)
    requires st.update.Resting? && Mirrors(st, before, subs) && p.obj != before.obj
    requires Distinct(order) && Elements(order) == subs.Keys
    ensures (forall n :: 0 <= n < |order| ==> order[n] in st.subs)
    ensures var v := C.Run(st, SwapRun(order, subs, p, rebuilds, Items(order, st.subs)));
            Mirrors(v, p, Swapped(subs, p, rebuilds)) && v.update.Resting?
  {
    ListsAll(order, st.subs);
    var items := Items(order, st.subs);
    SwapBegun(st, p, items);
    var s2 := C.Run(st, [C.UpdateBegin(p, items), C.UpdateSwap]);
    SwapFinishes(s2, subs, p, rebuilds, order);
    RunAppend(st, [C.UpdateBegin(p, items), C.UpdateSwap],
              ReconcileRun(if C.Authoritative(p) then order else [], subs, p.mime, rebuilds));
  }

  /** The rest of the swap. */
  lemma {:induction false} SwapFinishes(
    st: C.State, subs: map<C.Pc, Subscriber>, p: C.Publisher, rebuilds: C.Pc -> bool, order: seq<C.Pc>)
    requires Mirrors(st, p, subs) && Distinct(order) && Elements(order) == subs.Keys
    requires (forall n :: 0 <= n < |order| ==> order[n] in st.subs)
    requires st.update == C.Reconciling(if C.Authoritative(p) then Items(order, st.subs) else [])
    ensures var v := C.Run(st, ReconcileRun(if C.Authoritative(p) then order else [], subs, p.mime, rebuilds));
            Mirrors(v, p, Swapped(subs, p, rebuilds)) && v.update.Resting?
  {
    if C.Authoritative(p) {
      NoneReconciled(subs, p, rebuilds);
      ReconcileIsRun(st, subs, p, rebuilds, order);
    } else {
      NothingToCheck(st, subs, p, rebuilds);
    }
  }

  lemma NoneReconciled(subs: map<C.Pc, Subscriber>, p: C.Publisher, rebuilds: C.Pc -> bool)
    ensures Reconciled(subs, p, rebuilds, subs.Keys) == subs
  {
  }

  lemma {:induction false} NothingToCheck(st: C.State, subs: map<C.Pc, Subscriber>, p: C.Publisher, rebuilds: C.Pc -> bool)
    requires Mirrors(st, p, subs) && st.update == C.Reconciling([])
    ensures var v := C.Run(st, ReconcileRun([], subs, p.mime, rebuilds)); Mirrors(v, p, subs) && v.update.Resting?
  {
    RunOne(st, C.Check);
  }

  // ---------------------------------------------------------------- queues

  /** Same packets waiting, same drops. */
  predicate SameQueue(q: Q.Queue, s: Subscriber) { q.waiting == s.queue && q.dropped == s.dropped }

  /** What WriteRTP does to a subscriber is one offer to its bounded queue. */
  lemma OfferIsStep(cap: nat, q: Q.Queue, s: Subscriber, m: Media)
    requires SameQueue(q, s)
    ensures SameQueue(Q.QNext(cap, q, Q.Offered(m)), Offered(cap, s, m))
  {
  }

  function DrainRun(n: nat): seq<Q.Event> { if n == 0 then [] else [Q.Taken, Q.Finished] + DrainRun(n - 1) }

  /** What Drain does is the writer taking and finishing packet after packet. */
  lemma {:induction false} DrainIsRun(cap: nat, q: Q.Queue, s: Subscriber)
    requires SameQueue(q, s) && q.hand.None? && (q.writer.Running? || q.writer.Draining?)
    ensures var v := Q.QRun(cap, q, DrainRun(|s.queue|));
            && SameQueue(v, s.(queue := [])) && v.h.written == q.h.written + s.queue && v.writer == q.writer && v.hand.None?
    decreases |s.queue|
  {
    if s.queue == [] {
      assert q.h.written + [] == q.h.written;
    } else {
      var a := Q.QNext(cap, q, Q.Taken);
      var b := Q.QNext(cap, a, Q.Finished);
      var rest := s.(queue := s.queue[1..]);
      DrainIsRun(cap, b, rest);
      assert s.queue == [s.queue[0]] + s.queue[1..];
      assert q.h.written + [s.queue[0]] + s.queue[1..] == q.h.written + s.queue;
      var es := DrainRun(|s.queue|);
      assert es[0] == Q.Taken && es[1..][0] == Q.Finished && es[1..][1..] == DrainRun(|s.queue| - 1);
    }
  }

  // ---------------------------------------------------------------- the loop

  /** Nobody holds the lifecycle lock, and `running` means one pumping loop, which is the last. */
  ghost predicate Settled(st: P.State) {
    && st.holder.Nobody? && (st.running ==> st.remote && st.loops != [])
    && forall i :: 0 <= i < |st.loops| ==> st.loops[i] == if st.running && i == |st.loops| - 1 then P.Pumping else P.Gone
  }

  /** Start without company. */
  lemma StartIsStep(st: P.State)
    requires Settled(st)
    ensures Settled(P.Next(st, P.Start)) && P.Next(st, P.Start).running == (st.running || st.remote)
  {
  }

  /** The last loop leaves when its context is cancelled. */
  function Unwind(st: P.State): seq<P.Action> {
    if st.running && st.loops != [] then var i := |st.loops| - 1; [P.Leave(i), P.Clear(i), P.Done(i)] else []
  }

  lemma {:induction false} UnwindEnds(st: P.State, n: nat)
    requires n < |st.loops| && st.loops[n].Pumping? && n == |st.loops| - 1
    requires forall i :: 0 <= i < n ==> st.loops[i].Gone?
    ensures var v := P.Run(st, [P.Leave(n), P.Clear(n), P.Done(n)]);
            v == st.(running := false, loops := v.loops) && |v.loops| == |st.loops| && P.AllGone(v.loops)
  {
    var a := P.Next(st, P.Leave(n));
    var b := P.Next(a, P.Clear(n));
    var c := P.Next(b, P.Done(n));
    assert P.Run(c, []) == c;
    assert P.Run(b, [P.Done(n)]) == c;
    assert P.Run(a, [P.Clear(n), P.Done(n)]) == c;
    assert P.Run(st, [P.Leave(n), P.Clear(n), P.Done(n)]) == c;
  }

  lemma {:induction false} PumpAppend(st: P.State, a: seq<P.Action>, b: seq<P.Action>)
    ensures P.Run(st, a + b) == P.Run(P.Run(st, a), b)
    decreases |a|
  {
    if a == [] {
      assert a + b == b;
    } else {
      assert (a + b)[0] == a[0] && (a + b)[1..] == a[1..] + b;
      PumpAppend(P.Next(st, a[0]), a[1..], b);
    }
  }

  /** UpdatePublisher without company leaves a loop running exactly when the new publisher is remote. */
  lemma {:induction false} SwapIsRun(st: P.State, remote: bool)
    requires Settled(st)
    ensures var v := P.Run(st, [P.UpdateBegin(remote)] + Unwind(st) + [P.UpdateWait, P.UpdateSwap, P.UpdateEnd]);
            Settled(v) && v.remote == remote && v.running == remote
  {
    var s1 := P.Next(st, P.UpdateBegin(remote));
    assert P.Run(st, [P.UpdateBegin(remote)]) == P.Run(s1, []) == s1;
    PumpAppend(st, [P.UpdateBegin(remote)], Unwind(st));
    PumpAppend(st, [P.UpdateBegin(remote)] + Unwind(st), [P.UpdateWait, P.UpdateSwap, P.UpdateEnd]);
    var s2 := P.Run(s1, Unwind(st));
    if st.running { UnwindEnds(s1, |st.loops| - 1); }
    assert s2 == s1.(running := false, loops := s2.loops) && P.AllGone(s2.loops);
    SwapEnds(s2);
  }

  lemma {:induction false} SwapEnds(st: P.State)
    requires st.holder.Updating? && !st.running && P.AllGone(st.loops)
    ensures var v := P.Run(st, [P.UpdateWait, P.UpdateSwap, P.UpdateEnd]);
            Settled(v) && v.remote == v.running == st.holder.remote
  {
    var a := P.Next(st, P.UpdateWait);
    var b := P.Next(a, P.UpdateSwap);
    var c := P.Next(b, P.UpdateEnd);
    assert P.Run(b, [P.UpdateEnd]) == P.Run(c, []) == c;
    assert P.Run(a, [P.UpdateSwap, P.UpdateEnd]) == c;
    assert P.Run(st, [P.UpdateWait, P.UpdateSwap, P.UpdateEnd]) == c;
  }

  /** Stop without company: the loop leaves and nothing runs. */
  lemma {:induction false} StopIsRun(st: P.State)
    requires Settled(st)
    ensures var v := P.Run(st, [P.StopBegin] + Unwind(st) + [P.StopWait]);
            Settled(v) && !v.running && P.AllGone(v.loops) && v.remote == st.remote
  {
    var s1 := P.Next(st, P.StopBegin);
    assert P.Run(st, [P.StopBegin]) == P.Run(s1, []) == s1;
    PumpAppend(st, [P.StopBegin], Unwind(st));
    PumpAppend(st, [P.StopBegin] + Unwind(st), [P.StopWait]);
    var s2 := P.Run(s1, Unwind(st));
    if st.running { UnwindEnds(s1, |st.loops| - 1); }
    assert s2 == s1.(loops := s2.loops) && P.AllGone(s2.loops);
    assert P.Run(s2, [P.StopWait]) == P.Run(P.Next(s2, P.StopWait), []) == P.Next(s2, P.StopWait);
  }
}
