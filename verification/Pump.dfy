/**
 The forwarding loop's lifecycle: Start, Stop and UpdatePublisher, serialised by the lifecycle lock, against loops
 that also end by themselves. The forwarder's own lock is held only for single steps.
 */
module Pump {
  import opened Prelude

  /**
   One forwarding goroutine. Pumping: may read and call WriteRTP. Exiting: has decided to return and will clear
   `running`. Cleared: has cleared it, still counted by the wait group. Gone.
   */
  datatype Loop = Pumping | Exiting | Cleared | Gone

  /** Who holds the lifecycle lock, and where it is. */
  datatype Holder =
    | Nobody
    | Stopping(waits: bool)                      // running cleared; about to wait for the wait group
    | Updating(remote: bool, waits: bool)        // about to wait for the wait group
    | Swapping(remote: bool, wasRunning: bool)   // waited; about to swap the publisher
    | Swapped(remote: bool, wasRunning: bool)    // swapped; about to relaunch or settle

  datatype State = State(remote: bool, running: bool, loops: seq<Loop>, holder: Holder, written: nat)

  datatype Action =
    | Start | StopBegin | StopWait
    | UpdateBegin(remote: bool) | UpdateWait | UpdateSwap | UpdateEnd
    | Pump(i: nat) | Leave(i: nat) | Clear(i: nat) | Done(i: nat)

  function Initial(remote: bool): State { State(remote, false, [], Nobody, 0) }

  predicate AllGone(loops: seq<Loop>) { forall i :: 0 <= i < |loops| ==> loops[i].Gone? }

  function Launch(st: State): State { st.(running := true, loops := st.loops + [Pumping]) }

  function LoopStep(st: State, a: Action, i: nat): State
    requires i < |st.loops|
  {
    match a
    case Pump(_) => if st.loops[i].Pumping? then st.(written := st.written + 1) else st
    case Leave(_) => if st.loops[i].Pumping? then st.(loops := st.loops[i := Exiting]) else st
    case Clear(_) => if st.loops[i].Exiting? then st.(loops := st.loops[i := Cleared], running := false) else st
    case Done(_) => if st.loops[i].Cleared? then st.(loops := st.loops[i := Gone]) else st
    case _ => st
  }

  function LifecycleStep(st: State, a: Action): State {
    match a
    case Start =>
      if !st.holder.Nobody? || st.running then st
      else if !st.remote then st.(running := false)
      else Launch(st)
    case StopBegin => if st.holder.Nobody? then st.(running := false, holder := Stopping(st.running)) else st
    case StopWait =>
      if st.holder.Stopping? && (st.holder.waits ==> AllGone(st.loops)) then st.(holder := Nobody) else st
    case UpdateBegin(r) => if st.holder.Nobody? then st.(holder := Updating(r, st.running)) else st
    case UpdateWait =>
      if st.holder.Updating? && (st.holder.waits ==> AllGone(st.loops))
      then st.(holder := Swapping(st.holder.remote, st.holder.waits)) else st
    case UpdateSwap =>
      if st.holder.Swapping? then st.(remote := st.holder.remote, holder := Swapped(st.holder.remote, st.holder.wasRunning)) else st
    case UpdateEnd =>
      if !st.holder.Swapped? then st
      else if st.holder.remote then Launch(st).(holder := Nobody)
      else st.(running := false, holder := Nobody)
    case _ => st
  }

  function Next(st: State, a: Action): State {
    match a
    case Pump(i) => if i < |st.loops| then LoopStep(st, a, i) else st
    case Leave(i) => if i < |st.loops| then LoopStep(st, a, i) else st
    case Clear(i) => if i < |st.loops| then LoopStep(st, a, i) else st
    case Done(i) => if i < |st.loops| then LoopStep(st, a, i) else st
    case _ => LifecycleStep(st, a)
  }

  function Run(st: State, run: seq<Action>): State
    decreases |run|
  {
    if run == [] then st else Run(Next(st, run[0]), run[1..])
  }

  // ---------------------------------------------------------------- the invariant

  /** The loop may still write, or still has `running` to clear. */
  predicate Live(l: Loop) { l.Pumping? || l.Exiting? }

  ghost predicate SomeLive(st: State) { exists i :: 0 <= i < |st.loops| && Live(st.loops[i]) }

  ghost predicate Inv(st: State) {
    && (forall i, j :: 0 <= i < |st.loops| && 0 <= j < |st.loops| && Live(st.loops[i]) && Live(st.loops[j]) ==> i == j)
    && (st.running ==> st.remote)
    && (st.running ==> SomeLive(st))
    && match st.holder
       case Nobody => SomeLive(st) ==> st.running
       case Stopping(waits) => !st.running && (!waits ==> !SomeLive(st))
       case Updating(_, waits) => (SomeLive(st) ==> st.running) && (!waits ==> !SomeLive(st))
       case Swapping(_, _) => !SomeLive(st)
       case Swapped(r, _) => !SomeLive(st) && st.remote == r
  }

  lemma {:induction false} LoopInv(st: State, a: Action, i: nat)
    requires Inv(st) && i < |st.loops|
    ensures Inv(LoopStep(st, a, i))
  {
    var v := LoopStep(st, a, i);
    if Live(st.loops[i]) {
      assert SomeLive(st);
      if Live(v.loops[i]) { assert SomeLive(v); }
    }
    assert forall k :: 0 <= k < |st.loops| && k != i ==> v.loops[k] == st.loops[k];
  }

  lemma {:induction false} LaunchInv(st: State)
    requires !SomeLive(st) && st.remote
    ensures Inv(Launch(st).(holder := Nobody))
  {
    var v := Launch(st);
    assert Live(v.loops[|st.loops|]);
    assert forall i :: 0 <= i < |st.loops| ==> v.loops[i] == st.loops[i];
  }

  lemma {:induction false} LifecycleInv(st: State, a: Action)
    requires Inv(st)
    ensures Inv(LifecycleStep(st, a))
  {
    match a
    case Start => if st.holder.Nobody? && !st.running && st.remote { LaunchInv(st); }
    case UpdateEnd => if st.holder.Swapped? && st.holder.remote { LaunchInv(st); }
    case StopBegin => case StopWait => case UpdateBegin(_) => case UpdateWait => case UpdateSwap =>
    case _ =>
  }

  lemma {:induction false} NextInv(st: State, a: Action)
    requires Inv(st)
    ensures Inv(Next(st, a))
  {
    match a
    case Pump(i) => if i < |st.loops| { LoopInv(st, a, i); }
    case Leave(i) => if i < |st.loops| { LoopInv(st, a, i); }
    case Clear(i) => if i < |st.loops| { LoopInv(st, a, i); }
    case Done(i) => if i < |st.loops| { LoopInv(st, a, i); }
    case _ => LifecycleInv(st, a);
  }

  lemma {:induction false} RunInv(st: State, run: seq<Action>)
    requires Inv(st)
    ensures Inv(Run(st, run))
    decreases |run|
  {
    if run != [] {
      NextInv(st, run[0]);
      RunInv(Next(st, run[0]), run[1..]);
    }
  }

  /** Over every interleaving at most one loop can call WriteRTP; `running` means one is there and the publisher is remote. */
  lemma {:induction false} OnePump(remote: bool, run: seq<Action>, i: nat, j: nat)
    requires var st := Run(Initial(remote), run); i < |st.loops| && j < |st.loops| && Live(st.loops[i]) && Live(st.loops[j])
    ensures i == j
    ensures Run(Initial(remote), run).holder.Nobody? ==> Run(Initial(remote), run).running
  {
    RunInv(Initial(remote), run);
  }

  lemma {:induction false} RunningMeans(remote: bool, run: seq<Action>)
    requires Run(Initial(remote), run).running
    ensures Run(Initial(remote), run).remote
    ensures exists i :: 0 <= i < |Run(Initial(remote), run).loops| && Live(Run(Initial(remote), run).loops[i])
  {
    RunInv(Initial(remote), run);
  }

  /** A loop that is past pumping never pumps again. */
  lemma {:induction false} NoReturn(st: State, run: seq<Action>, i: nat)
    requires i < |st.loops| && !st.loops[i].Pumping?
    ensures i < |Run(st, run).loops| && !Run(st, run).loops[i].Pumping?
    decreases |run|
  {
    if run != [] { NoReturn(Next(st, run[0]), run[1..], i); }
  }

  // ---------------------------------------------------------------- what Start promises

  /** The state in which some loop can still call WriteRTP. */
  ghost predicate Pumped(st: State) { exists i :: 0 <= i < |st.loops| && st.loops[i].Pumping? }

  /** A loop has decided to return but not yet cleared `running`. */
  predicate InExitWindow(st: State) { exists i :: 0 <= i < |st.loops| && st.loops[i].Exiting? }

  /** Start on a remote publisher leaves a loop that can pump, if and only if no loop is in its exit window. */
  lemma {:induction false} StartPumpsIff(remote: bool, run: seq<Action>)
    requires Run(Initial(remote), run).holder.Nobody? && Run(Initial(remote), run).remote
    ensures Pumped(Next(Run(Initial(remote), run), Start)) <==> !InExitWindow(Run(Initial(remote), run))
  {
    RunInv(Initial(remote), run);
    var st := Run(Initial(remote), run);
    if !st.running {
      assert Next(st, Start).loops[|st.loops|].Pumping?;
    }
    if InExitWindow(st) {
      var i :| 0 <= i < |st.loops| && st.loops[i].Exiting?;
      assert Live(st.loops[i]) && SomeLive(st);
    }
  }

  /** The window is reachable, and then nothing pumps although Start reported success. */
  lemma {:induction false} StartSwallowed()
    ensures var st := Run(Initial(true), [Start, Leave(0), Start, Clear(0), Done(0)]);
            st.remote && !st.running && AllGone(st.loops) && st.holder.Nobody?
  {
    var s1 := Next(Initial(true), Start);
    assert s1.loops == [Pumping];
    var s2 := Next(s1, Leave(0));
    assert s2.loops == [Exiting] && Next(s2, Start) == s2;
    var s4 := Next(s2, Clear(0));
    assert s4.loops == [Cleared];
    var s5 := Next(s4, Done(0));
    assert s5.loops == [Gone];
    assert Run(s4, [Done(0)]) == s5;
    assert Run(s2, [Clear(0), Done(0)]) == s5;
    assert Run(s2, [Start, Clear(0), Done(0)]) == s5;
    assert Run(s1, [Leave(0), Start, Clear(0), Done(0)]) == s5;
    assert Run(Initial(true), [Start, Leave(0), Start, Clear(0), Done(0)]) == s5;
  }

  // ---------------------------------------------------------------- what Stop promises

  /** Stop clears `running` at once. */
  lemma StopBegins(remote: bool, run: seq<Action>)
    requires Run(Initial(remote), run).holder.Nobody?
    ensures var a := Next(Run(Initial(remote), run), StopBegin);
            !a.running && a.holder.Stopping? && a.loops == Run(Initial(remote), run).loops
  {
  }

  /** It returns only when no loop can write any more, and when all are gone it does return. */
  lemma {:induction false} StopLeavesNone(remote: bool, run: seq<Action>)
    requires Run(Initial(remote), run).holder.Stopping?
    ensures var st := Run(Initial(remote), run); var v := Next(st, StopWait);
            && (v.holder.Nobody? ==> !v.running && !SomeLive(v))
            && (AllGone(st.loops) ==> v.holder.Nobody?)
  {
    RunInv(Initial(remote), run);
  }

  /** The step launches a loop. */
  predicate Launches(a: Action) { a.Start? || a.UpdateEnd? }

  /** Once no loop can write, none does until somebody launches one. */
  lemma {:induction false} SilentUntilLaunch(st: State, run: seq<Action>)
    requires !Pumped(st) && forall k :: 0 <= k < |run| ==> !Launches(run[k])
    ensures Run(st, run).written == st.written && !Pumped(Run(st, run))
    decreases |run|
  {
    if run != [] {
      SilentStep(st, run[0]);
      SilentUntilLaunch(Next(st, run[0]), run[1..]);
    }
  }

  lemma {:induction false} SilentStep(st: State, a: Action)
    requires !Pumped(st) && !Launches(a)
    ensures Next(st, a).written == st.written && !Pumped(Next(st, a))
  {
    var v := Next(st, a);
    forall i | 0 <= i < |v.loops|
      ensures !v.loops[i].Pumping?
    {
      assert i < |st.loops| && !st.loops[i].Pumping?;
    }
  }

  /** A loop that can write does, whoever else is at work. */
  lemma PumpWrites(st: State, i: nat)
    requires i < |st.loops| && st.loops[i].Pumping?
    ensures Next(st, Pump(i)) == st.(written := st.written + 1)
  {
  }

  /** A swap that has waited goes through: its publisher is in, and a loop runs exactly when that is remote. */
  lemma {:induction false} UpdateGoesThrough(remote: bool, run: seq<Action>)
    requires Run(Initial(remote), run).holder.Updating? && AllGone(Run(Initial(remote), run).loops)
    ensures var st := Run(Initial(remote), run);
            var v := Next(Next(Next(st, UpdateWait), UpdateSwap), UpdateEnd);
            v.holder.Nobody? && v.remote == v.running == st.holder.remote && (Pumped(v) <==> v.running)
  {
    var st := Run(Initial(remote), run);
    var v := Next(Next(Next(st, UpdateWait), UpdateSwap), UpdateEnd);
    if st.holder.remote { assert v.loops[|st.loops|].Pumping?; }
  }
}
