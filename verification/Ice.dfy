/**
 ICE candidates that arrive before the remote description: queued under pc.mu and flushed after the description is
 set. Setting the description does not take pc.mu, so it may fall between a queuer's check and its append.
 */
module Ice {
  import opened Prelude

  type Candidate = nat

  /** pc.mu, as far as the queue is concerned: free, or held by a caller that saw no remote description. */
  datatype Lock = Free | Queuing(c: Candidate)

  /** The negotiation step that sets the description and then flushes. */
  datatype Gate = Quiet | FlushDue | Handing(buffer: seq<Candidate>)

  datatype State = State(
    usable: bool, remote: bool, mu: Lock, pending: seq<Candidate>, gate: Gate,
    handed: seq<Candidate>,    // history: queued candidates passed on to pion, in order
    direct: seq<Candidate>)    // history: candidates passed on without queuing

  datatype Action =
    | QueueCheck(c: Candidate) | QueueAppend | Direct(c: Candidate)
    | SetRemote(ok: bool) | FlushTake | HandOne | HandDone
    | Close | Fail

  const Initial := State(true, false, Free, [], Quiet, [], [])

  function Next(st: State, a: Action): State {
    match a
    case QueueCheck(c) => if st.mu.Free? && st.usable && !st.remote then st.(mu := Queuing(c)) else st
    case QueueAppend => if st.mu.Queuing? then st.(mu := Free, pending := st.pending + [st.mu.c]) else st
    case Direct(c) => if st.mu.Free? && st.usable && st.remote then st.(direct := st.direct + [c]) else st
    case SetRemote(ok) => if st.gate.Quiet? && ok then st.(remote := true, gate := FlushDue) else st
    case FlushTake => if st.gate.FlushDue? && st.mu.Free? then st.(pending := [], gate := Handing(st.pending)) else st
    case HandOne =>
      if st.gate.Handing? && st.gate.buffer != [] && st.mu.Free? then
        st.(gate := Handing(st.gate.buffer[1..]), handed := if st.usable then st.handed + [st.gate.buffer[0]] else st.handed)
      else st
    case HandDone => if st.gate.Handing? && st.gate.buffer == [] then st.(gate := Quiet) else st
    case Close => if st.mu.Free? then st.(usable := false, pending := []) else st
    case Fail => if st.mu.Free? then st.(usable := false) else st
  }

  function Run(st: State, run: seq<Action>): State
    decreases |run|
  {
    if run == [] then st else Run(Next(st, run[0]), run[1..])
  }

  // ---------------------------------------------------------------- what arrives

  /** The candidates that arrive in the run while the lock is free, the connection usable and no description set, in order. */
  ghost function Early(st: State, run: seq<Action>): seq<Candidate>
    decreases |run|
  {
    if run == [] then []
    else
      (if run[0].QueueCheck? && st.mu.Free? && st.usable && !st.remote then [run[0].c] else [])
      + Early(Next(st, run[0]), run[1..])
  }

  /** Those that arrive when a description is set. */
  ghost function Late(st: State, run: seq<Action>): seq<Candidate>
    decreases |run|
  {
    if run == [] then []
    else
      (if run[0].Direct? && st.mu.Free? && st.usable && st.remote then [run[0].c] else []) + Late(Next(st, run[0]), run[1..])
  }

  function Buffer(g: Gate): seq<Candidate> { if g.Handing? then g.buffer else [] }

  /** The candidate whose append is under way. */
  function Held(mu: Lock): seq<Candidate> { if mu.Queuing? then [mu.c] else [] }

  /** Every early candidate, in order: handed over, held by the flush, waiting, about to be appended. */
  function Kept(st: State): seq<Candidate> { st.handed + Buffer(st.gate) + st.pending + Held(st.mu) }

  predicate Inv(st: State) {
    && (!st.remote ==> st.gate.Quiet?)
    && (st.remote && !st.gate.FlushDue? ==> st.pending == [] && st.mu.Free?)
  }

  lemma NextInv(st: State, a: Action)
    requires Inv(st)
    ensures Inv(Next(st, a))
  {
  }

  lemma {:induction false} RunInv(st: State, run: seq<Action>)
    requires Inv(st)
    ensures Inv(Run(st, run))
    decreases |run|
  {
    if run != [] {
      NextInv(st, run[0]);
      RunInv(Next(st, run[0]), run[1..]);
    }
  }

  /** A step loses no candidate and adds one exactly when one arrives. */
  lemma {:induction false} KeptNext(st: State, a: Action)
    requires Inv(st) && Next(st, a).usable
    ensures st.usable && Kept(Next(st, a)) == Kept(st) + Early(st, [a]) && Next(st, a).direct == st.direct + Late(st, [a])
  {
    assert Early(Next(st, a), [a][1..]) == [] && Late(Next(st, a), [a][1..]) == [];
    match a
    case QueueCheck(_) => case QueueAppend => case Direct(_) => case SetRemote(_) => case HandDone => case Close => case Fail =>
    case FlushTake => assert st.handed + [] + st.pending + Held(st.mu) == st.handed + st.pending + [] + Held(st.mu);
    case HandOne =>
      if st.gate.Handing? && st.gate.buffer != [] {
        assert st.gate.buffer == [st.gate.buffer[0]] + st.gate.buffer[1..];
        assert st.handed + st.gate.buffer == (st.handed + [st.gate.buffer[0]]) + st.gate.buffer[1..];
      }
  }

  /** Once unusable, never usable again, and nothing more reaches pion. */
  lemma {:induction false} StaysUnusable(st: State, run: seq<Action>)
    requires !st.usable
    ensures var v := Run(st, run); !v.usable && v.handed == st.handed && v.direct == st.direct
    decreases |run|
  {
    if run != [] { StaysUnusable(Next(st, run[0]), run[1..]); }
  }

  lemma {:induction false} KeptRun(st: State, run: seq<Action>)
    requires Inv(st) && Run(st, run).usable
    ensures Kept(Run(st, run)) == Kept(st) + Early(st, run) && Run(st, run).direct == st.direct + Late(st, run)
    decreases |run|
  {
    if run != [] {
      var v := Next(st, run[0]);
      if !v.usable { StaysUnusable(v, run[1..]); }
      NextInv(st, run[0]);
      KeptNext(st, run[0]);
      KeptRun(v, run[1..]);
      assert Early(v, [run[0]][1..]) == [] && Late(v, [run[0]][1..]) == [];
      assert Early(st, run) == Early(st, [run[0]]) + Early(v, run[1..]);
      assert Late(st, run) == Late(st, [run[0]]) + Late(v, run[1..]);
    }
  }

  /**
   In every run of a usable connection the candidates that arrived before a description are, in order, those handed
   over, those the running flush still holds, those waiting and the one being appended; later ones went to pion at
   once, in order. When a description is set and its flush is through, every early one has been handed over, the queue
   is empty and no caller is about to append to it.
   */
  lemma {:induction false} NotStranded(run: seq<Action>)
    requires Run(Initial, run).usable
    ensures var st := Run(Initial, run);
            && Early(Initial, run) == st.handed + Buffer(st.gate) + st.pending + Held(st.mu)
            && Late(Initial, run) == st.direct
            && (st.remote && st.gate.Quiet? ==> Early(Initial, run) == st.handed && st.pending == [] && st.mu.Free?)
  {
    RunInv(Initial, run);
    KeptRun(Initial, run);
    var st := Run(Initial, run);
    assert Kept(Initial) == [];
    if st.remote && st.gate.Quiet? { assert st.handed + [] + [] + [] == st.handed; }
  }

  /** After Close nothing waits, nothing reaches pion and nothing is queued, whoever still calls. */
  lemma {:induction false} CloseEndsIt(st: State, run: seq<Action>)
    requires st.mu.Free?
    ensures var v := Run(Next(st, Close), run); !v.usable && v.pending == [] && v.handed == st.handed && v.direct == st.direct
  {
    StaysUnusable(Next(st, Close), run);
    StaysClosed(Next(st, Close), run);
  }

  lemma {:induction false} StaysClosed(st: State, run: seq<Action>)
    requires !st.usable && st.pending == [] && st.mu.Free?
    ensures Run(st, run).pending == []
    decreases |run|
  {
    if run != [] { StaysClosed(Next(st, run[0]), run[1..]); }
  }

  /** After a flush the queue stays as it is: nothing is queued any more and nothing is handed over twice. */
  lemma {:induction false} StaysEmpty(st: State, run: seq<Action>)
    requires Inv(st) && st.remote && Buffer(st.gate) == [] && st.pending == [] && st.mu.Free?
    ensures var v := Run(st, run); Early(st, run) == [] && v.handed == st.handed && v.pending == []
    decreases |run|
  {
    if run != [] {
      NextInv(st, run[0]);
      StaysEmpty(Next(st, run[0]), run[1..]);
    }
  }

  // ---------------------------------------------------------------- the two loops

  const RetryAttempts: nat := 3

  /** Up to three attempts; the first success ends the call, and otherwise the last failure is reported. */
  method AddWithRetry(attempt: nat -> bool) returns (ok: bool, tries: nat)
    ensures 1 <= tries <= RetryAttempts
    ensures ok <==> attempt(0) || attempt(1) || attempt(2)
    ensures ok ==> attempt(tries - 1)
    ensures !ok ==> tries == RetryAttempts
    ensures forall k :: 0 <= k < tries - 1 ==> !attempt(k)
  {
    tries := 0;
    ok := false;
    while tries < RetryAttempts
      invariant 0 <= tries <= RetryAttempts && !ok
      invariant forall k :: 0 <= k < tries ==> !attempt(k)
    {
      tries := tries + 1;
      if attempt(tries - 1) {
        return true, tries;
      }
    }
  }

  class Queue {
    var usable: bool
    var remote: bool                // pion has a remote description
    var pending: seq<Candidate>
    var handed: seq<Candidate>
    var direct: seq<Candidate>

    constructor ()
      ensures usable && !remote && pending == [] && handed == [] && direct == [] && Matches(Initial)
    {
      usable, remote, pending, handed, direct := true, false, [], [], [];
    }

    /** The machine's state with nobody in between. */
    ghost predicate Matches(st: State)
      reads this
    {
      st.mu.Free? && usable == st.usable && remote == st.remote && pending == st.pending && handed == st.handed && direct == st.direct
    }

    /** AddICECandidateWithRetry up to the first attempt: queued while no description is set, else passed on, else refused. */
    method AddCandidate(c: Candidate, ghost st: State) returns (ok: bool, ghost v: State)
      requires Matches(st)
      modifies this`pending, this`direct
      ensures ok == usable
      ensures pending == if usable && !remote then old(pending) + [c] else old(pending)
      ensures direct == if usable && remote then old(direct) + [c] else old(direct)
      ensures Matches(v) && v == Run(st, if st.remote then [Direct(c)] else [QueueCheck(c), QueueAppend])
    {
      RunTwo(st, QueueCheck(c), QueueAppend);
      RunTwo(st, Direct(c), Direct(c));
      ok := usable;
      if usable && !remote {
        pending := pending + [c];
      } else if usable {
        direct := direct + [c];
      }
      v := Run(st, if st.remote then [Direct(c)] else [QueueCheck(c), QueueAppend]);
    }

    /** Set the description, and flush if pion accepts it. */
    method SetRemoteDescription(accepted: bool, ghost st: State) returns (ghost v: State)
      requires Matches(st) && st.gate.Quiet? && usable
      modifies this`remote, this`pending, this`handed
      ensures remote == (old(remote) || accepted)
      ensures pending == if accepted then [] else old(pending)
      ensures handed == if accepted then old(handed) + old(pending) else old(handed)
      ensures Matches(v) && v.gate.Quiet?
    {
      v := Next(st, SetRemote(accepted));
      if accepted {
        remote := true;
        v := Flush(v);
      }
    }

    /** flushICECandidates: take the whole queue, then hand its candidates over one by one. */
    method Flush(ghost st: State) returns (ghost v: State)
      requires Matches(st) && st.gate.FlushDue? && usable
      modifies this`pending, this`handed
      ensures pending == [] && handed == old(handed) + old(pending)
      ensures Matches(v) && v == Run(st, [FlushTake] + Hands(|st.pending|) + [HandDone]) && v.gate.Quiet?
    {
      var queued := pending;
      pending := [];
      ghost var start := handed;
      v := Next(st, FlushTake);
      var n := 0;
      while n < |queued|
        invariant 0 <= n <= |queued| && pending == []
        invariant handed == start + queued[..n]
        invariant v == Next(st, FlushTake).(gate := Handing(queued[n..]), handed := handed)
        invariant v == Run(Next(st, FlushTake), Hands(n))
      {
        assert queued[n..][1..] == queued[n + 1..] && queued[..n + 1] == queued[..n] + [queued[n]];
        handed := handed + [queued[n]];
        HandsMore(Next(st, FlushTake), n);
        v := Next(v, HandOne);
        n := n + 1;
      }
      assert queued[..n] == queued;
      v := Next(v, HandDone);
      FlushRun(st, n);
    }
  }

  function Hands(n: nat): seq<Action> { seq(n, _ => HandOne) }

  /** A description that pion accepts delivers everything that waits, in order. */
  lemma {:induction false} DescriptionDelivers(st: State)
    requires st.usable && st.mu.Free? && st.gate.Quiet?
    ensures var v := Run(st, [SetRemote(true), FlushTake] + Hands(|st.pending|) + [HandDone]);
            v == st.(remote := true, pending := [], handed := st.handed + st.pending)
  {
    var s1 := Next(st, SetRemote(true));
    var s2 := Next(s1, FlushTake);
    RunTwo(st, SetRemote(true), FlushTake);
    RunAppend(st, [SetRemote(true), FlushTake], Hands(|st.pending|));
    RunAppend(st, [SetRemote(true), FlushTake] + Hands(|st.pending|), [HandDone]);
    HandsAll(s2, |st.pending|);
    var s3 := Run(s2, Hands(|st.pending|));
    assert Run(s3, [HandDone]) == Run(Next(s3, HandDone), []) == Next(s3, HandDone);
  }

  lemma {:induction false} HandsAll(st: State, n: nat)
    requires st.usable && st.mu.Free? && st.gate.Handing? && |st.gate.buffer| == n
    ensures Run(st, Hands(n)) == st.(gate := Handing([]), handed := st.handed + st.gate.buffer)
    decreases n
  {
    if n == 0 {
      assert st.gate.buffer == [] && st.handed + [] == st.handed;
    } else {
      var q, h := st.gate.buffer, st.handed;
      var v := st.(gate := Handing(q[1..]), handed := h + [q[0]]);
      assert Hands(n)[0] == HandOne && Hands(n)[1..] == Hands(n - 1);
      assert Run(st, Hands(n)) == Run(v, Hands(n - 1));
      HandsAll(v, n - 1);
      assert h + [q[0]] + q[1..] == h + q;
    }
  }

  lemma {:induction false} RunTwo(st: State, a: Action, b: Action)
    ensures Run(st, [a]) == Next(st, a) && Run(st, [a, b]) == Next(Next(st, a), b)
  {
    assert [a][1..] == [] && [a, b][1..] == [b] && [b][1..] == [];
    assert Run(Next(st, a), [b]) == Run(Next(Next(st, a), b), []);
  }

  lemma {:induction false} RunAppend(st: State, a: seq<Action>, b: seq<Action>)
    ensures Run(st, a + b) == Run(Run(st, a), b)
    decreases |a|
  {
    if a == [] {
      assert a + b == b;
    } else {
      assert (a + b)[0] == a[0] && (a + b)[1..] == a[1..] + b;
      RunAppend(Next(st, a[0]), a[1..], b);
    }
  }

  lemma {:induction false} HandsMore(st: State, n: nat)
    ensures Run(st, Hands(n + 1)) == Next(Run(st, Hands(n)), HandOne)
  {
    assert Hands(n + 1) == Hands(n) + [HandOne];
    RunAppend(st, Hands(n), [HandOne]);
    assert Run(Run(st, Hands(n)), [HandOne]) == Next(Run(st, Hands(n)), HandOne);
  }

  lemma {:induction false} FlushRun(st: State, n: nat)
    ensures Run(st, [FlushTake] + Hands(n) + [HandDone]) == Next(Run(Next(st, FlushTake), Hands(n)), HandDone)
  {
    RunAppend(st, [FlushTake] + Hands(n), [HandDone]);
    RunAppend(st, [FlushTake], Hands(n));
    assert Run(st, [FlushTake]) == Next(st, FlushTake);
    var s := Run(Next(st, FlushTake), Hands(n));
    assert Run(s, [HandDone]) == Next(s, HandDone);
  }
}
