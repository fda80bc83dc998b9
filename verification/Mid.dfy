/**
 Media-section IDs on the one peer connection both sides offer on: browser publish sections count from 0, the
 server's egress sections from 100, pion numbers what is left past the greatest number it sees, and a MID is a
 decimal string.
 */
module Mid {
  import opened Prelude

  const Base: nat := 100
  const MaxUint64: nat := 0xFFFF_FFFF_FFFF_FFFF

  // ---------------------------------------------------------------- decimal strings

  const Digits: string := "0123456789"

  predicate IsDigit(c: char) { '0' <= c <= '9' }

  function DigitOf(c: char): (d: nat)
    requires IsDigit(c)
    ensures d < 10
  {
    (c - '0') as int
  }

  /** strconv.FormatUint(n, 10). */
  function Format(n: nat): string {
    if n < 10 then [Digits[n]] else Format(n / 10) + [Digits[n % 10]]
  }

  /** The value of a string of digits. */
  function Value(s: string): nat
    requires forall i :: 0 <= i < |s| ==> IsDigit(s[i])
  {
    if s == [] then 0 else 10 * Value(s[..|s| - 1]) + DigitOf(s[|s| - 1])
  }

  /** strconv.ParseUint(s, 10, 64): digits only, at least one, and no overflow. */
  function Parse(s: string): Option<nat> {
    if s == [] || !(forall i :: 0 <= i < |s| ==> IsDigit(s[i])) then None
    else if Value(s) > MaxUint64 then None
    else Some(Value(s))
  }

  predicate IsEgressMid(s: string) { Parse(s).Some? && Parse(s).value >= Base }

  lemma {:induction false} FormatValue(n: nat)
    ensures Format(n) != [] && (forall i :: 0 <= i < |Format(n)| ==> IsDigit(Format(n)[i]))
    ensures Value(Format(n)) == n
  {
    if n >= 10 {
      FormatValue(n / 10);
      assert Format(n)[..|Format(n)| - 1] == Format(n / 10);
      DigitValue(n % 10);
    } else {
      DigitValue(n);
      assert Value([]) == 0 && [Digits[n]][..0] == [];
    }
  }

  lemma DigitValue(d: nat)
    requires d < 10
    ensures IsDigit(Digits[d]) && DigitOf(Digits[d]) == d
  {
  }

  /** Parsing undoes formatting for every 64-bit number, and the partition test agrees with the number. */
  lemma {:induction false} ParseFormat(n: nat)
    ensures Parse(Format(n)) == if n <= MaxUint64 then Some(n) else None
    ensures n <= MaxUint64 ==> (IsEgressMid(Format(n)) <==> n >= Base)
  {
    FormatValue(n);
  }

  lemma {:induction false} FormatInjective(a: nat, b: nat)
    requires Format(a) == Format(b)
    ensures a == b
  {
    FormatValue(a);
    FormatValue(b);
  }

  // ---------------------------------------------------------------- transceivers

  /** History: who gave a transceiver its MID, and the number. */
  datatype Source = Unset | Browser | Pion(k: nat) | Server(k: nat)

  /** A transceiver: its sender object, its MID ("" until assigned), whether it is a publish slot, whether it sends. */
  datatype Transceiver = Transceiver(sender: nat, mid: string, slot: bool, sending: bool, origin: Source)

  /** AddTrack between its steps. pc.mu is held throughout, so there is one at a time; pion numbers sections without it. */
  datatype Adding =
    | Quiet
    | Attached(i: nat)            // pion has put the track on transceiver i
    | Detaching(i: nat)           // i does not suit; about to detach
    | Rehoming                    // detached; about to add a transceiver for the track
    | Carried(i: nat)             // i carries the track; about to reserve a MID
    | Numbering(i: nat, k: nat)   // i had no MID and number k was taken; about to set it

  datatype State = State(ts: seq<Transceiver>, next: nat, senders: nat, add: Adding)

  const Initial := State([], 0, 0, Quiet)

  datatype Action =
    | Attach(reuse: Option<nat>)       // reuse: the idle transceiver pion picks, if any
    | Ensure | Detach(ok: bool) | Rehome(ok: bool) | TakeNumber | SetNumber
    | Release(i: nat)                  // RemoveTrack removes a sender
    | Slot                             // a publish placeholder is created
    | Publish(mid: string)             // a browser section arrives and gets a transceiver of its own
    | Bind(i: nat, mid: string)        // a browser section arrives and pion puts it on transceiver i
    | Assign(i: nat, k: nat)           // CreateOffer numbers transceiver i
  {
    /** Not a step of AddTrack or RemoveTrack: needs no pc.mu. */
    predicate IsPion() { Slot? || Publish? || Bind? || Assign? }
  }

  function SetOne(st: State, i: nat, t: Transceiver, add: Adding): State
    requires i < |st.ts|
  {
    st.(ts := st.ts[i := t], add := add)
  }

  function AddOne(st: State, mid: string, origin: Source, slot: bool, sending: bool, add: Adding): State {
    st.(ts := st.ts + [Transceiver(st.senders, mid, slot, sending, origin)], senders := st.senders + 1, add := add)
  }

  /** pion's AddTrack: put the track on an idle transceiver, or on a new one. */
  function AttachStep(st: State, reuse: Option<nat>): State {
    if reuse.Some? && reuse.value < |st.ts| && !st.ts[reuse.value].sending then
      SetOne(st, reuse.value, st.ts[reuse.value].(sender := st.senders, sending := true), Attached(reuse.value)).(senders := st.senders + 1)
    else AddOne(st, "", Unset, false, true, Attached(|st.ts|))
  }

  predicate Suits(t: Transceiver) { (t.mid == "" || IsEgressMid(t.mid)) && !t.slot }

  /** ensureEgressTransceiverLocked stays on a transceiver that suits, and otherwise moves to a fresh one. */
  function EnsureStep(st: State, i: nat): State
    requires i < |st.ts|
  {
    st.(add := if Suits(st.ts[i]) then Carried(i) else Detaching(i))
  }

  function NextNumber(next: nat): nat { if next < Base then Base else next }

  /** reserveEgressMIDLocked takes the next number for a transceiver that has no MID. */
  function TakeStep(st: State, i: nat): State
    requires i < |st.ts|
  {
    if st.ts[i].mid != "" then st.(add := Quiet)
    else st.(next := NextNumber(st.next) + 1, add := Numbering(i, NextNumber(st.next)))
  }

  /** SetMid: refused only when this transceiver has got a MID meanwhile. */
  function NumberStep(st: State, i: nat, k: nat): State
    requires i < |st.ts|
  {
    if st.ts[i].mid != "" then st.(add := Quiet) else SetOne(st, i, st.ts[i].(mid := Format(k), origin := Server(k)), Quiet)
  }

  predicate Used(st: State, mid: string) { exists i :: 0 <= i < |st.ts| && st.ts[i].mid == mid }

  /** A MID a browser may mint: not taken, and outside the egress partition. */
  predicate BrowserMid(st: State, mid: string) { mid != "" && !Used(st, mid) && !IsEgressMid(mid) }

  /** Transceiver j has a number of at least n. */
  predicate NumberedFrom(st: State, j: nat, n: nat)
    requires j < |st.ts|
  {
    Parse(st.ts[j].mid).Some? && Parse(st.ts[j].mid).value >= n
  }

  /** Some transceiver has. */
  predicate AnyFrom(st: State, n: nat) { exists j :: 0 <= j < |st.ts| && NumberedFrom(st, j, n) }

  /** k is one past the greatest number set so far, which is how pion numbers; it starts at 0. */
  predicate PastGreatest(st: State, k: nat) { !AnyFrom(st, k) && (k == 0 || AnyFrom(st, k - 1)) }

  /** The step is pion numbering transceiver i. */
  predicate Numbers(st: State, a: Action, i: nat) {
    a.Assign? && a.i == i && i < |st.ts| && st.ts[i].mid == "" && PastGreatest(st, a.k)
  }

  /** The step is pion putting a browser section on transceiver i. */
  predicate Binds(st: State, a: Action, i: nat) {
    a.Bind? && a.i == i && i < |st.ts| && st.ts[i].mid == "" && BrowserMid(st, a.mid)
  }

  function PionStep(st: State, a: Action): State
    requires a.IsPion()
  {
    match a
    case Slot => AddOne(st, "", Unset, true, false, st.add)
    case Publish(mid) => if BrowserMid(st, mid) then AddOne(st, mid, Browser, false, false, st.add) else st
    case Bind(i, mid) => if Binds(st, a, i) then SetOne(st, i, st.ts[i].(mid := mid, origin := Browser), st.add) else st
    case Assign(i, k) => if Numbers(st, a, i) then SetOne(st, i, st.ts[i].(mid := Format(k), origin := Pion(k)), st.add) else st
  }

  function Next(st: State, a: Action): State {
    match a
    case Attach(reuse) => if st.add.Quiet? then AttachStep(st, reuse) else st
    case Ensure => if st.add.Attached? && st.add.i < |st.ts| then EnsureStep(st, st.add.i) else st
    case Detach(ok) =>
      if !(st.add.Detaching? && st.add.i < |st.ts|) then st
      else if ok then SetOne(st, st.add.i, st.ts[st.add.i].(sending := false), Rehoming)
      else st.(add := Quiet)
    case Rehome(ok) =>
      if !st.add.Rehoming? then st else if ok then AddOne(st, "", Unset, false, true, Carried(|st.ts|)) else st.(add := Quiet)
    case TakeNumber => if st.add.Carried? && st.add.i < |st.ts| then TakeStep(st, st.add.i) else st
    case SetNumber => if st.add.Numbering? && st.add.i < |st.ts| then NumberStep(st, st.add.i, st.add.k) else st
    case Release(i) =>
      if st.add.Quiet? && i < |st.ts| then SetOne(st, i, st.ts[i].(sending := false), Quiet) else st
    case _ => PionStep(st, a)
  }

  function Run(st: State, run: seq<Action>): State
    decreases |run|
  {
    if run == [] then st else Run(Next(st, run[0]), run[1..])
  }

  // ---------------------------------------------------------------- who has which MID

  /** The MID is what its source says. */
  predicate SourceOk(next: nat, t: Transceiver) {
    match t.origin
    case Unset => t.mid == ""
    case Browser => t.mid != "" && !IsEgressMid(t.mid)
    case Pion(k) => t.mid == Format(k) && k <= MaxUint64
    case Server(k) => t.mid == Format(k) && Base <= k < next && k <= MaxUint64
  }

  /** Two transceivers with one MID: one was numbered by pion, the other by the server, with the same number. */
  predicate SharedOnlyWithPion(a: Transceiver, b: Transceiver) {
    a.mid != "" && a.mid == b.mid ==>
      (a.origin.Pion? && b.origin == Server(a.origin.k)) || (a.origin.Server? && b.origin == Pion(a.origin.k))
  }

  ghost predicate TransceiversOk(st: State) {
    && (forall i :: 0 <= i < |st.ts| ==> SourceOk(st.next, st.ts[i]) && st.ts[i].sender < st.senders)
    && (forall i, j :: 0 <= i < j < |st.ts| ==> SharedOnlyWithPion(st.ts[i], st.ts[j]))
    && (forall i, j :: 0 <= i < j < |st.ts| ==> st.ts[i].sender != st.ts[j].sender)
  }

  /** The track is on a sending transceiver, once accepted outside the publish slots; a taken number is not set yet. */
  ghost predicate AddingOk(st: State) {
    match st.add
    case Quiet | Rehoming => true
    case Attached(i) => i < |st.ts| && st.ts[i].sending
    case Detaching(i) => i < |st.ts| && st.ts[i].sending
    case Carried(i) => i < |st.ts| && st.ts[i].sending && !st.ts[i].slot
    case Numbering(i, k) =>
      && i < |st.ts| && st.ts[i].sending && !st.ts[i].slot && Base <= k < st.next
      && forall j :: 0 <= j < |st.ts| ==> st.ts[j].origin != Server(k)
  }

  /** All numbers so far, handed out or set, are below b. */
  ghost predicate Below(st: State, b: nat) {
    Base <= b && st.next <= b && !AnyFrom(st, b)
  }

  ghost predicate Inv(st: State, b: nat) { TransceiversOk(st) && AddingOk(st) && Below(st, b) && b <= MaxUint64 }

  /** A number from a source is that source's. */
  lemma {:induction false} NumberOf(next: nat, t: Transceiver)
    requires SourceOk(next, t) && (t.origin.Pion? || t.origin.Server?)
    ensures Parse(t.mid) == Some(t.origin.k) && t.mid != "" && (IsEgressMid(t.mid) <==> t.origin.k >= Base)
  {
    ParseFormat(t.origin.k);
    FormatValue(t.origin.k);
  }

  /** A number past all others is nobody's. */
  lemma {:induction false} PastIsUnused(st: State, k: nat)
    requires k <= MaxUint64 && !AnyFrom(st, k)
    ensures !Used(st, Format(k)) && Format(k) != ""
  {
    ParseFormat(k);
    FormatValue(k);
    forall j | 0 <= j < |st.ts|
      ensures st.ts[j].mid != Format(k)
    {
      assert !NumberedFrom(st, j, k);
    }
  }

  /** pion's number is past everything, so at most one past the bound. */
  lemma {:induction false} PionBelow(st: State, b: nat, k: nat)
    requires Below(st, b) && PastGreatest(st, k)
    ensures k <= b
  {
    if k > 0 {
      var n := k - 1;
      var j :| 0 <= j < |st.ts| && NumberedFrom(st, j, n);
      assert !NumberedFrom(st, j, b);
    }
  }

  lemma SetOneOk(st: State, i: nat, t: Transceiver, senders: nat, add: Adding)
    requires TransceiversOk(st) && i < |st.ts| && st.senders <= senders && SourceOk(st.next, t)
    requires t.sender == st.ts[i].sender || st.senders <= t.sender < senders
    requires (t.mid == st.ts[i].mid && t.origin == st.ts[i].origin) ||
             forall j :: 0 <= j < |st.ts| && j != i ==> SharedOnlyWithPion(t, st.ts[j]) && SharedOnlyWithPion(st.ts[j], t)
    ensures TransceiversOk(State(st.ts[i := t], st.next, senders, add))
  {
  }

  lemma AddOneOk(st: State, mid: string, origin: Source, slot: bool, sending: bool, add: Adding)
    requires TransceiversOk(st) && (mid == "" || !Used(st, mid))
    requires SourceOk(st.next, Transceiver(st.senders, mid, slot, sending, origin))
    ensures TransceiversOk(AddOne(st, mid, origin, slot, sending, add))
  {
  }

  /** Taking a number leaves the transceivers as they are. */
  lemma TakenOk(st: State, next: nat, add: Adding)
    requires TransceiversOk(st) && st.next <= next
    ensures TransceiversOk(st.(next := next, add := add))
  {
  }

  lemma {:induction false} AttachInv(st: State, b: nat, reuse: Option<nat>)
    requires Inv(st, b) && st.add.Quiet?
    ensures Inv(AttachStep(st, reuse), b)
  {
    var v := AttachStep(st, reuse);
    if reuse.Some? && reuse.value < |st.ts| && !st.ts[reuse.value].sending {
      SetOneOk(st, reuse.value, st.ts[reuse.value].(sender := st.senders, sending := true), st.senders + 1, Attached(reuse.value));
    } else {
      AddOneOk(st, "", Unset, false, true, Attached(|st.ts|));
      assert Parse("").None?;
    }
    forall j | 0 <= j < |v.ts|
      ensures !NumberedFrom(v, j, b)
    {
      if j < |st.ts| { assert !NumberedFrom(st, j, b); }
    }
  }

  lemma {:induction false} TakeInv(st: State, b: nat, i: nat)
    requires Inv(st, b) && st.add == Carried(i) && b < MaxUint64
    ensures Inv(TakeStep(st, i), b + 1)
  {
    var v := TakeStep(st, i);
    if st.ts[i].mid == "" { TakenOk(st, NextNumber(st.next) + 1, Numbering(i, NextNumber(st.next))); }
    BelowMore(st, b);
    BelowSame(st, v, b + 1);
  }

  /** Setting a taken number can only repeat one that pion gave. */
  lemma {:induction false} NumberInv(st: State, b: nat, i: nat, k: nat)
    requires Inv(st, b) && st.add == Numbering(i, k)
    ensures Inv(NumberStep(st, i, k), b)
    ensures st.ts[i].mid == "" ==> IsEgressMid(NumberStep(st, i, k).ts[i].mid) && NumberStep(st, i, k).ts[i].origin == Server(k)
  {
    ParseFormat(k);
    FormatValue(k);
    if st.ts[i].mid == "" {
      var t := st.ts[i].(mid := Format(k), origin := Server(k));
      forall j | 0 <= j < |st.ts| && j != i
        ensures SharedOnlyWithPion(t, st.ts[j]) && SharedOnlyWithPion(st.ts[j], t)
      {
        if st.ts[j].mid == Format(k) { SameNumber(st, j, k); }
      }
      SetOneOk(st, i, t, st.senders, Quiet);
    }
    assert !NumberedFrom(st, i, b);
    BelowKept(st, NumberStep(st, i, k), b, i);
  }

  /** Whoever has the MID of an egress number k that the server has not set got it from pion. */
  lemma {:induction false} SameNumber(st: State, j: nat, k: nat)
    requires TransceiversOk(st) && j < |st.ts| && st.ts[j].mid == Format(k) && Base <= k <= MaxUint64 && st.ts[j].origin != Server(k)
    ensures st.ts[j].origin == Pion(k)
  {
    ParseFormat(k);
    FormatValue(k);
    assert SourceOk(st.next, st.ts[j]);
    if st.ts[j].origin.Pion? || st.ts[j].origin.Server? { FormatInjective(st.ts[j].origin.k, k); }
  }

  /** Only transceiver i changed, and its number is below b. */
  lemma {:induction false} BelowKept(st: State, v: State, b: nat, i: nat)
    requires Below(st, b) && v.next <= b && i < |st.ts| == |v.ts| && !NumberedFrom(v, i, b)
    requires forall j :: 0 <= j < |st.ts| && j != i ==> v.ts[j] == st.ts[j]
    ensures Below(v, b)
  {
    forall j | 0 <= j < |v.ts|
      ensures !NumberedFrom(v, j, b)
    {
      if j != i { assert !NumberedFrom(st, j, b); }
    }
  }

  lemma {:induction false} AssignInv(st: State, b: nat, i: nat, k: nat)
    requires Inv(st, b) && b < MaxUint64 && Numbers(st, Assign(i, k), i)
    ensures Inv(PionStep(st, Assign(i, k)), b + 1)
  {
    PionBelow(st, b, k);
    PastIsUnused(st, k);
    ParseFormat(k);
    var t := st.ts[i].(mid := Format(k), origin := Pion(k));
    SetOneOk(st, i, t, st.senders, st.add);
    BelowMore(st, b);
    BelowKept(st, PionStep(st, Assign(i, k)), b + 1, i);
  }

  lemma {:induction false} BelowMore(st: State, b: nat)
    requires Below(st, b)
    ensures Below(st, b + 1)
  {
    var c := b + 1;
    forall j | 0 <= j < |st.ts|
      ensures !NumberedFrom(st, j, c)
    {
      assert !NumberedFrom(st, j, b);
    }
  }

  lemma {:induction false} BindInv(st: State, b: nat, i: nat, mid: string)
    requires Inv(st, b) && Binds(st, Bind(i, mid), i)
    ensures Inv(PionStep(st, Bind(i, mid)), b)
  {
    SetOneOk(st, i, st.ts[i].(mid := mid, origin := Browser), st.senders, st.add);
    BelowKept(st, PionStep(st, Bind(i, mid)), b, i);
  }

  /** A new transceiver whose number, if any, is below b. */
  lemma {:induction false} AddInv(st: State, b: nat, mid: string, origin: Source, slot: bool, sending: bool)
    requires Inv(st, b) && (mid == "" || BrowserMid(st, mid)) && origin == (if mid == "" then Unset else Browser)
    ensures Inv(AddOne(st, mid, origin, slot, sending, st.add), b)
  {
    var v := AddOne(st, mid, origin, slot, sending, st.add);
    AddOneOk(st, mid, origin, slot, sending, st.add);
    forall j | 0 <= j < |v.ts|
      ensures !NumberedFrom(v, j, b)
    {
      if j < |st.ts| { assert !NumberedFrom(st, j, b); }
    }
  }

  lemma {:induction false} PionInv(st: State, b: nat, a: Action)
    requires Inv(st, b) && b < MaxUint64 && a.IsPion()
    ensures Inv(PionStep(st, a), b + 1) && PionStep(st, a).add == st.add && PionStep(st, a).next == st.next
  {
    match a
    case Slot => AddInv(st, b, "", Unset, true, false); Later(PionStep(st, a), b);
    case Publish(mid) =>
      if BrowserMid(st, mid) { AddInv(st, b, mid, Browser, false, false); }
      Later(PionStep(st, a), b);
    case Bind(i, mid) =>
      if Binds(st, a, i) { BindInv(st, b, i, mid); }
      Later(PionStep(st, a), b);
    case Assign(i, k) =>
      if Numbers(st, a, i) { AssignInv(st, b, i, k); } else { Later(st, b); }
  }

  lemma {:induction false} Later(st: State, b: nat)
    requires Inv(st, b) && b < MaxUint64
    ensures Inv(st, b + 1)
  {
    BelowMore(st, b);
  }

  lemma {:induction false} RehomeInv(st: State, b: nat, a: Action)
    requires Inv(st, b) && (a.Ensure? || a.Detach? || a.Rehome? || a.Release?)
    ensures Inv(Next(st, a), b)
  {
    match a
    case Ensure => assert Next(st, a).ts == st.ts; BelowSame(st, Next(st, a), b);
    case Detach(ok) => if st.add.Detaching? && ok { ReleaseInv(st, b, st.add.i, Rehoming); } else { BelowSame(st, Next(st, a), b); }
    case Rehome(ok) =>
      if st.add.Rehoming? && ok {
        AddInv(st, b, "", Unset, false, true);
        BelowSame(AddOne(st, "", Unset, false, true, st.add), Next(st, a), b);
      } else {
        BelowSame(st, Next(st, a), b);
      }
    case Release(i) => if st.add.Quiet? && i < |st.ts| { ReleaseInv(st, b, i, Quiet); }
  }

  lemma {:induction false} BelowSame(st: State, v: State, b: nat)
    requires Below(st, b) && v.ts == st.ts && v.next <= b
    ensures Below(v, b)
  {
    forall j | 0 <= j < |v.ts|
      ensures !NumberedFrom(v, j, b)
    {
      assert !NumberedFrom(st, j, b);
    }
  }

  lemma {:induction false} ReleaseInv(st: State, b: nat, i: nat, add: Adding)
    requires TransceiversOk(st) && Below(st, b) && b <= MaxUint64 && i < |st.ts| && (add.Quiet? || add.Rehoming?)
    ensures Inv(SetOne(st, i, st.ts[i].(sending := false), add), b)
  {
    SetOneOk(st, i, st.ts[i].(sending := false), st.senders, add);
    assert !NumberedFrom(st, i, b);
    BelowKept(st, SetOne(st, i, st.ts[i].(sending := false), add), b, i);
  }

  lemma {:induction false} NextInv(st: State, b: nat, a: Action)
    requires Inv(st, b) && b < MaxUint64
    ensures Inv(Next(st, a), b + 1)
  {
    match a
    case Attach(reuse) =>
      if st.add.Quiet? { AttachInv(st, b, reuse); }
      Later(Next(st, a), b);
    case TakeNumber => if st.add.Carried? { TakeInv(st, b, st.add.i); } else { Later(st, b); }
    case SetNumber =>
      if st.add.Numbering? { NumberInv(st, b, st.add.i, st.add.k); }
      Later(Next(st, a), b);
    case Slot => PionInv(st, b, a);
    case Publish(_) => PionInv(st, b, a);
    case Bind(_, _) => PionInv(st, b, a);
    case Assign(_, _) => PionInv(st, b, a);
    case _ => RehomeInv(st, b, a); Later(Next(st, a), b);
  }

  /** What every step keeps, every run keeps. */
  lemma {:induction false} RunKeeps(keeps: (State, nat) -> bool, st: State, b: nat, run: seq<Action>)
    requires forall s: State, n: nat, a: Action :: keeps(s, n) && n < MaxUint64 ==> keeps(Next(s, a), n + 1)
    requires keeps(st, b) && b + |run| <= MaxUint64
    ensures keeps(Run(st, run), b + |run|)
    decreases |run|
  {
    if run != [] {
      RunKeeps(keeps, Next(st, run[0]), b + 1, run[1..]);
    }
  }

  lemma {:induction false} RunInv(st: State, b: nat, run: seq<Action>)
    requires Inv(st, b) && b + |run| <= MaxUint64
    ensures Inv(Run(st, run), b + |run|)
  {
    forall s: State, n: nat, a: Action | Inv(s, n) && n < MaxUint64
      ensures Inv(Next(s, a), n + 1)
    {
      NextInv(s, n, a);
    }
    RunKeeps((s, n: nat) => Inv(s, n), st, b, run);
  }

  lemma {:induction false} ReachedInv(run: seq<Action>)
    requires Base + |run| <= MaxUint64
    ensures Inv(Run(Initial, run), Base + |run|)
  {
    RunInv(Initial, Base, run);
  }

  // ---------------------------------------------------------------- when two transceivers share a MID

  /** A MID once set stays, and so does its source. */
  lemma {:induction false} MidStays(st: State, run: seq<Action>, i: nat)
    requires i < |st.ts| && st.ts[i].mid != ""
    ensures i < |Run(st, run).ts| && Run(st, run).ts[i].mid == st.ts[i].mid && Run(st, run).ts[i].origin == st.ts[i].origin
    decreases |run|
  {
    if run != [] {
      MidKept(st, run[0], i);
      MidStays(Next(st, run[0]), run[1..], i);
    }
  }

  lemma MidKept(st: State, a: Action, i: nat)
    requires i < |st.ts| && st.ts[i].mid != ""
    ensures i < |Next(st, a).ts| && Next(st, a).ts[i].mid == st.ts[i].mid && Next(st, a).ts[i].origin == st.ts[i].origin
  {
  }

  /** The step is the server setting number k on transceiver i. */
  predicate Reserves(st: State, a: Action, i: nat, k: nat) {
    a.SetNumber? && st.add == Numbering(i, k) && i < |st.ts| && st.ts[i].mid == ""
  }

  /** Only pion's numbering makes a source pion, and only a reservation makes it the server. */
  lemma OriginNext(st: State, a: Action, i: nat)
    requires i < |Next(st, a).ts|
    ensures var o := Next(st, a).ts[i].origin;
            && (o.Pion? ==> (i < |st.ts| && st.ts[i].origin == o) || (Numbers(st, a, i) && o == Pion(a.k)))
            && (o.Server? ==> (i < |st.ts| && st.ts[i].origin == o) || Reserves(st, a, i, o.k))
  {
  }

  /** Step m of the run is pion giving transceiver i the number k. */
  predicate GivesAt(run: seq<Action>, m: nat, i: nat, k: nat)
    requires m < |run|
  {
    run[m] == Assign(i, k) && Numbers(Run(Initial, run[..m]), run[m], i)
  }

  /** Step n of the run is the server setting number k on transceiver j. */
  predicate ReservesAt(run: seq<Action>, n: nat, j: nat, k: nat)
    requires n < |run|
  {
    Reserves(Run(Initial, run[..n]), run[n], j, k)
  }

  lemma {:induction false} RunMore(st: State, run: seq<Action>, a: Action)
    ensures Run(st, run + [a]) == Next(Run(st, run), a)
    decreases |run|
  {
    if run == [] {
      assert [] + [a] == [a];
      assert Run(Next(st, a), []) == Next(st, a);
    } else {
      assert (run + [a])[0] == run[0] && (run + [a])[1..] == run[1..] + [a];
      RunMore(Next(st, run[0]), run[1..], a);
    }
  }

  lemma {:induction false} RunTo(run: seq<Action>, n: nat)
    requires n < |run|
    ensures Run(Initial, run[..n + 1]) == Next(Run(Initial, run[..n]), run[n])
  {
    assert run[..n + 1] == run[..n] + [run[n]];
    RunMore(Initial, run[..n], run[n]);
  }

  lemma {:induction false} RunSplit(st: State, run: seq<Action>, n: nat)
    requires n <= |run|
    ensures Run(st, run) == Run(Run(st, run[..n]), run[n..])
    decreases n
  {
    if n == 0 {
      assert run[..0] == [] && run[0..] == run;
    } else {
      assert run[..n][1..] == run[1..][..n - 1] && run[n..] == run[1..][n - 1..];
      RunSplit(Next(st, run[0]), run[1..], n - 1);
    }
  }

  /** Where a source comes from: the step that made it. */
  lemma {:induction false} OriginFound(run: seq<Action>, i: nat) returns (n: nat)
    requires i < |Run(Initial, run).ts| && (Run(Initial, run).ts[i].origin.Pion? || Run(Initial, run).ts[i].origin.Server?)
    ensures n < |run|
    ensures var o := Run(Initial, run).ts[i].origin;
            if o.Pion? then GivesAt(run, n, i, o.k) else ReservesAt(run, n, i, o.k)
    decreases |run|
  {
    var last := |run| - 1;
    assert run != [] && run[..last + 1] == run;
    RunTo(run, last);
    var before := run[..last];
    var st := Run(Initial, before);
    OriginNext(st, run[last], i);
    if i < |st.ts| && st.ts[i].origin == Run(Initial, run).ts[i].origin {
      n := OriginFound(before, i);
      assert before[..n] == run[..n];
    } else {
      n := last;
    }
  }

  /** After pion gave a number, or the server set one, it is there to the end. */
  lemma {:induction false} GivenStays(run: seq<Action>, n: nat, end: nat, i: nat, k: nat)
    requires n < end <= |run| && (GivesAt(run, n, i, k) || ReservesAt(run, n, i, k))
    ensures var v := Run(Initial, run[..end]);
            && i < |v.ts| && v.ts[i].mid == Format(k) && v.ts[i].mid != ""
            && v.ts[i].origin == if GivesAt(run, n, i, k) then Pion(k) else Server(k)
  {
    FormatValue(k);
    var st := Run(Initial, run[..n + 1]);
    RunTo(run, n);
    assert i < |st.ts| && st.ts[i].mid == Format(k);
    assert run[..end][..n + 1] == run[..n + 1];
    RunSplit(Initial, run[..end], n + 1);
    MidStays(st, run[..end][n + 1..], i);
  }

  ghost predicate Shared(st: State) {
    exists i, j :: 0 <= i < j < |st.ts| && st.ts[i].mid != "" && st.ts[i].mid == st.ts[j].mid
  }

  /** pion gives a transceiver some number, and later the server sets the same number on another. */
  ghost predicate Collides(run: seq<Action>) {
    exists m: nat, n: nat, i: nat, j: nat, k: nat :: m < n < |run| && GivesAt(run, m, i, k) && ReservesAt(run, n, j, k)
  }

  /** A number the server has set is never pion's next one. */
  lemma {:induction false} PionComesFirst(run: seq<Action>, m: nat, n: nat, i: nat, j: nat, k: nat)
    requires m < |run| && n < |run| && GivesAt(run, m, i, k) && ReservesAt(run, n, j, k) && k <= MaxUint64
    ensures m < n && i != j
  {
    ParseFormat(k);
    if n < m {
      GivenStays(run, n, m, j, k);
      var st := Run(Initial, run[..m]);
      assert NumberedFrom(st, j, k);
    } else if m < n {
      GivenStays(run, m, n, i, k);
    }
  }

  lemma {:induction false} CollisionFound(run: seq<Action>, i: nat, j: nat)
    requires Base + |run| <= MaxUint64
    requires var st := Run(Initial, run);
             i < |st.ts| && j < |st.ts| && i != j && st.ts[i].mid != "" && st.ts[i].mid == st.ts[j].mid && st.ts[i].origin.Pion?
    ensures Collides(run)
  {
    ReachedInv(run);
    var st := Run(Initial, run);
    assert SharedOnlyWithPion(st.ts[if i < j then i else j], st.ts[if i < j then j else i]);
    var k := st.ts[i].origin.k;
    var m := OriginFound(run, i);
    var n := OriginFound(run, j);
    assert SourceOk(st.next, st.ts[i]);
    PionComesFirst(run, m, n, i, j, k);
  }

  /**
   Over every interleaving of AddTrack with pion's numbering, up to the point where the 64-bit counter is used up: two
   transceivers share a MID if and only if pion gave a transceiver a number and a later reservation set that number on
   another one.
   */
  lemma {:induction false} SharedMidIff(run: seq<Action>)
    requires Base + |run| <= MaxUint64
    ensures Shared(Run(Initial, run)) <==> Collides(run)
  {
    ReachedInv(run);
    var st := Run(Initial, run);
    if Shared(st) {
      var i, j :| 0 <= i < j < |st.ts| && st.ts[i].mid != "" && st.ts[i].mid == st.ts[j].mid;
      assert SharedOnlyWithPion(st.ts[i], st.ts[j]);
      if st.ts[i].origin.Pion? { CollisionFound(run, i, j); } else { CollisionFound(run, j, i); }
    }
    if Collides(run) {
      var m: nat, n: nat, i: nat, j: nat, k: nat :| m < n < |run| && GivesAt(run, m, i, k) && ReservesAt(run, n, j, k);
      CollisionShares(run, m, n, i, j, k);
    }
  }

  lemma {:induction false} CollisionShares(run: seq<Action>, m: nat, n: nat, i: nat, j: nat, k: nat)
    requires m < n < |run| && GivesAt(run, m, i, k) && ReservesAt(run, n, j, k)
    ensures Shared(Run(Initial, run))
  {
    assert run[..|run|] == run;
    GivenStays(run, m, |run|, i, k);
    GivenStays(run, n, |run|, j, k);
    GivenStays(run, m, n, i, k);
    SharedBy(Run(Initial, run), i, j);
  }

  lemma {:induction false} SharedBy(st: State, i: nat, j: nat)
    requires i < |st.ts| && j < |st.ts| && i != j && st.ts[i].mid != "" && st.ts[i].mid == st.ts[j].mid
    ensures Shared(st)
  {
    if i < j { assert st.ts[i].mid == st.ts[j].mid; } else { assert st.ts[j].mid == st.ts[i].mid; }
  }

  /** pion gives a number of at least 100 exactly when a number of at least 99 is set, as after any reservation. */
  lemma {:induction false} PionEntersPartitionIff(st: State, k: nat)
    requires PastGreatest(st, k)
    ensures k >= Base <==> AnyFrom(st, Base - 1)
  {
    if k >= Base {
      var n := k - 1;
      var j :| 0 <= j < |st.ts| && NumberedFrom(st, j, n);
      assert NumberedFrom(st, j, Base - 1);
    }
    if AnyFrom(st, Base - 1) {
      var j :| 0 <= j < |st.ts| && NumberedFrom(st, j, Base - 1);
      assert !NumberedFrom(st, j, k);
    }
  }

  /** What a caller can tell before the call: an undisturbed reservation repeats a MID exactly when pion has given it out. */
  lemma {:induction false} ReservationSharesIff(st: State, b: nat, i: nat)
    requires Inv(st, b) && b < MaxUint64 && st.add == Carried(i) && st.ts[i].mid == "" && !Shared(st)
    ensures var k := NextNumber(st.next);
            Shared(Next(Next(st, TakeNumber), SetNumber)) <==> exists j :: 0 <= j < |st.ts| && st.ts[j].origin == Pion(k)
  {
    var k := NextNumber(st.next);
    FormatValue(k);
    ReservedOne(st, i);
    var v := Next(Next(st, TakeNumber), SetNumber);
    if Shared(v) {
      var x, y :| 0 <= x < y < |v.ts| && v.ts[x].mid != "" && v.ts[x].mid == v.ts[y].mid;
      assert x == i || y == i;
      var j := if x == i then y else x;
      assert SourceOk(st.next, st.ts[j]);
      SameNumber(st, j, k);
    }
    forall j | 0 <= j < |st.ts| && st.ts[j].origin == Pion(k)
      ensures Shared(v)
    {
      assert SourceOk(st.next, st.ts[j]);
      SharedBy(v, i, j);
    }
  }

  lemma {:induction false} ReservedOne(st: State, i: nat)
    requires st.add == Carried(i) && i < |st.ts| && st.ts[i].mid == ""
    ensures var k := NextNumber(st.next);
            Next(Next(st, TakeNumber), SetNumber).ts == st.ts[i := st.ts[i].(mid := Format(k), origin := Server(k))]
  {
    assert Next(st, TakeNumber).add == Numbering(i, NextNumber(st.next));
  }

  /** In particular MIDs never repeat while pion numbers nothing from 100 on. */
  lemma {:induction false} EgressPartition(run: seq<Action>)
    requires Base + |run| <= MaxUint64
    requires forall m: nat, i: nat, k: nat :: m < |run| && GivesAt(run, m, i, k) ==> k < Base
    ensures !Shared(Run(Initial, run))
  {
    SharedMidIff(run);
    forall n: nat, j: nat, k: nat | n < |run| && ReservesAt(run, n, j, k)
      ensures k >= Base
    {
      ReachedInv(run[..n]);
    }
  }

  /** One undisturbed AddTrack on a fresh transceiver. */
  function Undisturbed(st: State): State {
    Next(Next(Next(Next(st, Attach(None)), Ensure), TakeNumber), SetNumber)
  }

  lemma {:induction false} UndisturbedAdds(st: State)
    requires st.add.Quiet?
    ensures var k := NextNumber(st.next);
            Undisturbed(st) == State(st.ts + [Transceiver(st.senders, Format(k), false, true, Server(k))], k + 1, st.senders + 1, Quiet)
  {
    var n := |st.ts|;
    var a := Next(st, Attach(None));
    assert a.ts[n] == Transceiver(st.senders, "", false, true, Unset);
    var b := Next(a, Ensure);
    assert b == a.(add := Carried(n));
    var c := Next(b, TakeNumber);
    assert c.ts == a.ts && c.add == Numbering(n, NextNumber(st.next));
  }

  /** CreateOffer numbers the newborn transceiver past the one egress MID, and the reservation skips it. */
  lemma {:induction false} PionNumbersNewborn(one: State)
    requires one == State([Transceiver(0, Format(Base), false, true, Server(Base))], Base + 1, 1, Quiet)
    ensures var two := Next(Next(Next(Next(one, Attach(None)), Ensure), Assign(1, Base + 1)), TakeNumber);
            two == State(one.ts + [Transceiver(1, Format(Base + 1), false, true, Pion(Base + 1))], Base + 1, 2, Quiet)
  {
    var k := Base + 1;
    ParseFormat(Base);
    FormatValue(k);
    assert Parse("").None?;
    var b := Next(Next(one, Attach(None)), Ensure);
    assert b == State(one.ts + [Transceiver(1, "", false, true, Unset)], k, 2, Carried(1));
    assert NumberedFrom(b, 0, Base) && !NumberedFrom(b, 0, k) && !NumberedFrom(b, 1, k);
    assert PastGreatest(b, k);
    assert Next(b, Assign(1, k)).ts == one.ts + [Transceiver(1, Format(k), false, true, Pion(k))];
  }

  /**
   The collision: after one reservation (100), CreateOffer numbers the next newborn transceiver (101) before its
   reservation does, and the reservation after that takes 101 as well.
   */
  lemma {:induction false} MidsRepeat()
    ensures var one := Undisturbed(Initial);
            var two := Next(Next(Next(Next(one, Attach(None)), Ensure), Assign(1, Base + 1)), TakeNumber);
            var three := Undisturbed(two);
            three.add.Quiet? && |three.ts| == 3 && three.ts[1].mid == three.ts[2].mid == Format(Base + 1)
  {
    UndisturbedAdds(Initial);
    var one := Undisturbed(Initial);
    PionNumbersNewborn(one);
    UndisturbedAdds(Next(Next(Next(Next(one, Attach(None)), Ensure), Assign(1, Base + 1)), TakeNumber));
  }

  // ---------------------------------------------------------------- where AddTrack lands

  function Carrier(a: Adding): Option<nat> { if a.Carried? || a.Numbering? then Some(a.i) else None }

  /** The run takes an AddTrack whose track is carried by transceiver i to its end. */
  ghost predicate Completes(st: State, run: seq<Action>, i: nat)
    decreases |run|
  {
    && Carrier(st.add) == Some(i) && run != []
    && var v := Next(st, run[0]);
       if v.add.Quiet? then run[1..] == [] else Completes(v, run[1..], i)
  }

  /** The step puts a browser section on i, or is pion numbering i while no number from 99 on is set. */
  predicate GoesLow(st: State, a: Action, i: nat) { Binds(st, a, i) || (Numbers(st, a, i) && !AnyFrom(st, Base - 1)) }

  /** Some step of the run does. */
  ghost predicate GetsLow(st: State, run: seq<Action>, i: nat)
    decreases |run|
  {
    run != [] && (GoesLow(st, run[0], i) || GetsLow(Next(st, run[0]), run[1..], i))
  }

  /** pion's number for i is in the partition exactly when it does not go low. */
  lemma {:induction false} NumberedWell(st: State, b: nat, a: Action, i: nat)
    requires Inv(st, b) && Numbers(st, a, i)
    ensures Next(st, a).ts[i].mid != "" && (IsEgressMid(Next(st, a).ts[i].mid) <==> !GoesLow(st, a, i))
  {
    PionBelow(st, b, a.k);
    PionEntersPartitionIff(st, a.k);
    ParseFormat(a.k);
    FormatValue(a.k);
  }

  /** While a track is carried by i, a step ends the call on an egress MID, or gives i a low MID, or goes on. */
  lemma {:induction false} CarriedStep(st: State, b: nat, a: Action, i: nat)
    requires Inv(st, b) && b < MaxUint64 && Carrier(st.add) == Some(i) && Suits(st.ts[i])
    ensures var v := Next(st, a);
            && i < |v.ts|
            && (if GoesLow(st, a, i) then Carrier(v.add) == Some(i) && v.ts[i].mid != "" && !IsEgressMid(v.ts[i].mid)
                else if v.add.Quiet? then IsEgressMid(v.ts[i].mid) else Carrier(v.add) == Some(i) && Suits(v.ts[i]))
  {
    match a
    case SetNumber => if st.add.Numbering? { NumberInv(st, b, i, st.add.k); }
    case Assign(_, _) => if Numbers(st, a, i) { NumberedWell(st, b, a, i); }
    case TakeNumber =>
    case Slot => case Publish(_) => case Bind(_, _) =>
    case Attach(_) => case Ensure => case Detach(_) => case Rehome(_) => case Release(_) =>
  }

  /** An accepted track stays sending, outside the publish slots, until its call is over. */
  lemma CarriedSends(st: State, a: Action, i: nat)
    requires Carrier(st.add) == Some(i) && i < |st.ts| && st.ts[i].sending && !st.ts[i].slot
    ensures i < |Next(st, a).ts| && Next(st, a).ts[i].sending && !Next(st, a).ts[i].slot
  {
  }

  lemma {:induction false} SendsToTheEnd(st: State, run: seq<Action>, i: nat)
    requires Completes(st, run, i) && i < |st.ts| && st.ts[i].sending && !st.ts[i].slot
    ensures i < |Run(st, run).ts| && Run(st, run).ts[i].sending && !Run(st, run).ts[i].slot
    decreases |run|
  {
    var v := Next(st, run[0]);
    CarriedSends(st, run[0], i);
    if v.add.Quiet? {
      assert run[1..] == [];
    } else {
      SendsToTheEnd(v, run[1..], i);
    }
  }

  lemma {:induction false} LandsFrom(st: State, b: nat, run: seq<Action>, i: nat)
    requires Inv(st, b) && b + |run| <= MaxUint64 && Completes(st, run, i) && Suits(st.ts[i])
    ensures i < |Run(st, run).ts| && (IsEgressMid(Run(st, run).ts[i].mid) <==> !GetsLow(st, run, i))
    decreases |run|
  {
    var v := Next(st, run[0]);
    CarriedStep(st, b, run[0], i);
    if GoesLow(st, run[0], i) {
      MidStays(v, run[1..], i);
    } else if v.add.Quiet? {
      assert run[1..] == [];
    } else {
      NextInv(st, b, run[0]);
      LandsFrom(v, b + 1, run[1..], i);
    }
  }

  /**
   Over every run: from the moment AddTrack has accepted transceiver i for its track (kept it, or made it) to the end of
   the call, with pion numbering and browser sections arriving in between, the track ends sending outside the publish
   slots; and on a MID of at least 100 if and only if in between pion neither put a browser section on that transceiver
   nor numbered it while no number from 99 on was set.
   */
  lemma {:induction false} AddTrackLandsIff(before: seq<Action>, rest: seq<Action>, i: nat)
    requires Base + |before| + |rest| <= MaxUint64
    requires var st := Run(Initial, before);
             st.add == Carried(i) && i < |st.ts| && Suits(st.ts[i]) && Completes(st, rest, i)
    ensures var v := Run(Run(Initial, before), rest);
            && i < |v.ts| && v.ts[i].sending && !v.ts[i].slot
            && (IsEgressMid(v.ts[i].mid) <==> !GetsLow(Run(Initial, before), rest, i))
  {
    ReachedInv(before);
    LandsFrom(Run(Initial, before), Base + |before|, rest, i);
    SendsToTheEnd(Run(Initial, before), rest, i);
  }

  /** Acceptance is always of a transceiver that suits: one without a MID or with an egress MID. */
  lemma AcceptsSuited(st: State, a: Action)
    requires !st.add.Carried? && Next(st, a).add.Carried?
    ensures Next(st, a).add.i < |Next(st, a).ts| && Suits(Next(st, a).ts[Next(st, a).add.i])
  {
  }

  /** The race on a fresh connection: CreateOffer gives the newborn transceiver MID 0, and that assignment stands. */
  lemma {:induction false} OfferGeneratorRaces()
    ensures var st := Run(Initial, [Attach(None), Ensure, Assign(0, 0), TakeNumber]);
            st.add.Quiet? && |st.ts| == 1 && st.ts[0].sending && st.ts[0].mid == Format(0) && !IsEgressMid(st.ts[0].mid)
  {
    ParseFormat(0);
    FormatValue(0);
    var s1 := Next(Initial, Attach(None));
    assert s1 == State([Transceiver(0, "", false, true, Unset)], 0, 1, Attached(0));
    var s2 := Next(s1, Ensure);
    assert s2 == s1.(add := Carried(0));
    assert Parse("").None? && !NumberedFrom(s2, 0, 0);
    var s3 := Next(s2, Assign(0, 0));
    assert s3.ts == [Transceiver(0, Format(0), false, true, Pion(0))];
    var s4 := Next(s3, TakeNumber);
    assert Run(s3, [TakeNumber]) == s4;
    assert Run(s2, [Assign(0, 0), TakeNumber]) == s4;
    assert Run(s1, [Ensure, Assign(0, 0), TakeNumber]) == s4;
    assert Run(Initial, [Attach(None), Ensure, Assign(0, 0), TakeNumber]) == s4;
  }

  // ---------------------------------------------------------------- whole calls, undisturbed

  /** The steps of AddTrack from the moment pion has attached the track, when every pion call succeeds. */
  function FinishAdd(st: State): State {
    var a := Next(st, Ensure);
    var b := if a.add.Detaching? then Next(Next(a, Detach(true)), Rehome(true)) else a;
    var c := Next(b, TakeNumber);
    if c.add.Numbering? then Next(c, SetNumber) else c
  }

  /** pion attaches the track to the idle transceiver it picks, with a sender of its own, or makes one. */
  lemma AttachesTrack(st: State, reuse: Option<nat>)
    requires st.add.Quiet?
    ensures var v := Next(st, Attach(reuse));
            && v.add.Attached? && v.next == st.next && v.senders == st.senders + 1
            && v.add.i == (if reuse.Some? && reuse.value < |st.ts| && !st.ts[reuse.value].sending then reuse.value else |st.ts|)
            && v.ts[v.add.i].sending && v.ts[v.add.i].sender == st.senders
            && v.ts[v.add.i].mid == (if v.add.i < |st.ts| then st.ts[v.add.i].mid else "")
            && |v.ts| == (if v.add.i < |st.ts| then |st.ts| else |st.ts| + 1)
            && forall k :: 0 <= k < |st.ts| && k != v.add.i ==> v.ts[k] == st.ts[k]
  {
  }

  /** A track that pion puts on an idle egress transceiver stays there, and its MID stays what it was: no number is used up. */
  lemma {:induction false} ReuseKeepsMid(st: State, i: nat)
    requires st.add.Quiet? && i < |st.ts| && !st.ts[i].sending && !st.ts[i].slot && IsEgressMid(st.ts[i].mid)
    ensures FinishAdd(Next(st, Attach(Some(i)))) ==
              st.(ts := st.ts[i := st.ts[i].(sender := st.senders, sending := true)], senders := st.senders + 1)
  {
    var a := Next(st, Attach(Some(i)));
    assert Suits(a.ts[i]);
    assert Next(a, Ensure) == a.(add := Carried(i));
    assert st.ts[i].mid != "";
  }

  /**
   A track that pion puts on an idle publish slot or on a transceiver with a browser's MID is moved to a transceiver of
   its own with the next number; the one it was on is idle again and keeps its MID.
   */
  lemma {:induction false} MovesOff(st: State, i: nat)
    requires st.add.Quiet? && i < |st.ts| && !st.ts[i].sending && !Suits(st.ts[i])
    ensures var k := NextNumber(st.next);
            FinishAdd(Next(st, Attach(Some(i)))) ==
              State(st.ts[i := st.ts[i].(sender := st.senders)] + [Transceiver(st.senders + 1, Format(k), false, true, Server(k))],
                    k + 1, st.senders + 2, Quiet)
  {
    var n := |st.ts|;
    var a := Next(st, Attach(Some(i)));
    assert a.ts == st.ts[i := st.ts[i].(sender := st.senders, sending := true)];
    assert Next(a, Ensure) == a.(add := Detaching(i));
    var b := Next(Next(a, Ensure), Detach(true));
    assert b.ts == st.ts[i := st.ts[i].(sender := st.senders)] && b.add == Rehoming;
    var c := Next(b, Rehome(true));
    assert c.ts == b.ts + [Transceiver(st.senders + 1, "", false, true, Unset)] && c.add == Carried(n);
    var d := Next(c, TakeNumber);
    assert d.ts == c.ts && d.add == Numbering(n, NextNumber(st.next));
    assert Next(d, SetNumber).ts == b.ts + [Transceiver(st.senders + 1, Format(NextNumber(st.next)), false, true, Server(NextNumber(st.next)))];
  }

  /** A refused detach leaves the track where pion put it, a refused transceiver leaves it nowhere, and the call is over. */
  lemma {:induction false} RefusalsEnd(st: State, i: nat)
    requires st.add == Attached(i) && i < |st.ts| && !Suits(st.ts[i])
    ensures Next(Next(st, Ensure), Detach(false)) == st.(add := Quiet)
    ensures Next(Next(Next(st, Ensure), Detach(true)), Rehome(false)) == st.(ts := st.ts[i := st.ts[i].(sending := false)], add := Quiet)
  {
    assert Next(st, Ensure) == st.(add := Detaching(i));
  }

  /** A reservation always ends the call, also when pion has numbered the transceiver before it. */
  lemma {:induction false} ReservationEnds(st: State, i: nat)
    requires st.add == Carried(i) && i < |st.ts|
    ensures var v := Next(st, TakeNumber);
            if st.ts[i].mid != "" then v == st.(add := Quiet) else v.ts == st.ts && v.add == Numbering(i, NextNumber(st.next))
    ensures forall k: nat :: Next(st.(add := Numbering(i, k)), SetNumber).add.Quiet?
  {
  }

  /** A removed sender makes its transceiver idle, which pion may then pick for the next track; nothing else changes. */
  lemma {:induction false} ReleasedIsReusable(st: State, i: nat)
    requires st.add.Quiet? && i < |st.ts| && !st.ts[i].slot && IsEgressMid(st.ts[i].mid)
    ensures var v := Next(st, Release(i));
            && v == st.(ts := st.ts[i := st.ts[i].(sending := false)])
            && FinishAdd(Next(v, Attach(Some(i)))) ==
                 st.(ts := st.ts[i := st.ts[i].(sender := st.senders, sending := true)], senders := st.senders + 1)
  {
    var v := Next(st, Release(i));
    ReuseKeepsMid(v, i);
    assert v.ts[i := v.ts[i].(sender := st.senders, sending := true)] == st.ts[i := st.ts[i].(sender := st.senders, sending := true)];
  }

  // ---------------------------------------------------------------- as it runs

  /** Transceivers never go away; pion's own steps change only MIDs. */
  predicate SameSenders(a: seq<Transceiver>, b: seq<Transceiver>) {
    |a| <= |b| && forall k :: 0 <= k < |a| ==> b[k].sender == a[k].sender && b[k].sending == a[k].sending && b[k].slot == a[k].slot
  }

  /** Every transceiver has a sender of its own, and the track being added is on a sending transceiver. */
  ghost predicate Sound(st: State) {
    && (forall i :: 0 <= i < |st.ts| ==> st.ts[i].sender < st.senders)
    && (forall i, j :: 0 <= i < j < |st.ts| ==> st.ts[i].sender != st.ts[j].sender)
    && match st.add
       case Quiet | Rehoming => true
       case Attached(i) => i < |st.ts| && st.ts[i].sending
       case Detaching(i) => i < |st.ts| && st.ts[i].sending
       case Carried(i) => i < |st.ts| && st.ts[i].sending && !st.ts[i].slot
       case Numbering(i, _) => i < |st.ts| && st.ts[i].sending && !st.ts[i].slot
  }

  lemma {:induction false} SoundNext(st: State, a: Action)
    requires Sound(st)
    ensures Sound(Next(st, a))
  {
    if a.IsPion() { SoundPion(st, a); } else { SoundCall(st, a); }
  }

  lemma SoundPion(st: State, a: Action)
    requires Sound(st) && a.IsPion()
    ensures Sound(PionStep(st, a))
  {
  }

  lemma {:induction false} SoundCall(st: State, a: Action)
    requires Sound(st) && !a.IsPion()
    ensures Sound(Next(st, a))
  {
    match a
    case Attach(_) => case Ensure => case Detach(_) => case Rehome(_) => case TakeNumber => case SetNumber => case Release(_) =>
  }

  /** There is one number past the greatest. */
  lemma {:induction false} OnlyOnePast(st: State, a: nat, b: nat)
    requires PastGreatest(st, a) && PastGreatest(st, b)
    ensures a == b
  {
    NotPast(st, a, b);
    NotPast(st, b, a);
  }

  lemma {:induction false} NotPast(st: State, a: nat, b: nat)
    requires PastGreatest(st, a) && PastGreatest(st, b)
    ensures a <= b
  {
    if a > 0 {
      var n := a - 1;
      var j :| 0 <= j < |st.ts| && NumberedFrom(st, j, n);
      assert !NumberedFrom(st, j, b);
    }
  }

  class Transceivers {
    var ts: seq<Transceiver>
    var nextEgressMID: nat
    var senders: nat
    ghost var add: Adding
    ghost var trace: seq<Action>

    const others: nat -> seq<Action>   // what pion and the browser do at each point
    var clock: nat

    ghost function S(): State
      reads this
    {
      State(ts, nextEgressMID, senders, add)
    }

    /** The object is where the machine is after `trace`. */
    ghost predicate Valid()
      reads this
    {
      S() == Run(Initial, trace) && Sound(S())
    }

    constructor (others: nat -> seq<Action>)
      ensures Valid() && trace == [] && add.Quiet?
    {
      ts, nextEgressMID, senders, clock := [], 0, 0, 0;
      add, trace := Quiet, [];
      this.others := others;
    }

    ghost method Note(st: State, a: Action)
      requires st == Run(Initial, trace) && Sound(st) && S() == Next(st, a)
      modifies this`trace
      ensures Valid() && trace == old(trace) + [a]
    {
      RunMore(Initial, trace, a);
      SoundNext(st, a);
      trace := trace + [a];
    }

    /** A browser section arrives with a transceiver of its own, or on one that has no MID. */
    method BrowserSection(i: Option<nat>, mid: string)
      modifies this`ts, this`senders
      ensures S() == PionStep(old(S()), if i.None? then Publish(mid) else Bind(i.value, mid)) && SameSenders(old(ts), ts)
    {
      if mid == "" || IsEgressMid(mid) || (exists k :: 0 <= k < |ts| && ts[k].mid == mid) {
        return;
      }
      if i.None? {
        ts, senders := ts + [Transceiver(senders, mid, false, false, Browser)], senders + 1;
      } else if i.value < |ts| && ts[i.value].mid == "" {
        ts := ts[i.value := ts[i.value].(mid := mid, origin := Browser)];
      }
    }

    /** CreateOffer numbers a transceiver that has no MID, one past the greatest number it sees. */
    method AssignNumber(i: nat, k: nat)
      modifies this`ts
      ensures S() == PionStep(old(S()), Assign(i, k)) && SameSenders(old(ts), ts)
    {
      if i >= |ts| || ts[i].mid != "" {
        return;
      }
      var past := GreatestPlusOne();
      if PastGreatest(S(), k) { OnlyOnePast(S(), past, k); }
      if past == k {
        ts := ts[i := ts[i].(mid := Format(k), origin := Pion(k))];
      }
    }

    /** The scan for the greatest number. */
    method GreatestPlusOne() returns (past: nat)
      ensures PastGreatest(S(), past)
    {
      past := 0;
      var n := 0;
      while n < |ts|
        invariant 0 <= n <= |ts|
        invariant forall j :: 0 <= j < n ==> !NumberedFrom(S(), j, past)
        invariant past == 0 || AnyFrom(S(), past - 1)
      {
        if Parse(ts[n].mid).Some? && Parse(ts[n].mid).value >= past {
          ghost var before := past;
          past := Parse(ts[n].mid).value + 1;
          assert NumberedFrom(S(), n, past - 1);
          assert forall j :: 0 <= j < n ==> (NumberedFrom(S(), j, past) ==> NumberedFrom(S(), j, before));
        }
        n := n + 1;
      }
    }

    /** pion numbers a section, a browser section arrives, or a placeholder is made. */
    method PionOnce(a: Action)
      requires Valid() && a.IsPion()
      modifies this
      ensures Valid() && add == old(add) && nextEgressMID == old(nextEgressMID) && trace == old(trace) + [a]
      ensures SameSenders(old(ts), ts)
    {
      ghost var st := S();
      match a {
        case Slot => ts, senders := ts + [Transceiver(senders, "", true, false, Unset)], senders + 1;
        case Publish(mid) => BrowserSection(None, mid);
        case Bind(i, mid) => BrowserSection(Some(i), mid);
        case Assign(i, k) => AssignNumber(i, k);
      }
      Note(st, a);
    }

    /** A point of AddTrack where pion may run: it needs no pc.mu. */
    method Yield()
      requires Valid()
      modifies this
      ensures Valid() && add == old(add) && nextEgressMID == old(nextEgressMID) && old(trace) <= trace
      ensures SameSenders(old(ts), ts)
    {
      var acts := others(clock);
      clock := clock + 1;
      var n := 0;
      while n < |acts|
        invariant 0 <= n <= |acts| && Valid() && add == old(add) && nextEgressMID == old(nextEgressMID) && old(trace) <= trace
        invariant SameSenders(old(ts), ts)
      {
        if acts[n].IsPion() {
          PionOnce(acts[n]);
        }
        n := n + 1;
      }
    }

    /** The transceiver of a sender, as the loops over GetTransceivers find it. */
    method Find(sender: nat, ghost i: nat) returns (k: nat)
      requires Sound(S()) && i < |ts| && ts[i].sender == sender
      ensures k == i
    {
      k := 0;
      while ts[k].sender != sender
        invariant 0 <= k <= i
        decreases i - k
      {
        k := k + 1;
      }
    }

    /** pion's own AddTrack. */
    method AttachTrack(reuse: Option<nat>) returns (sender: nat)
      requires add.Quiet?
      modifies this`ts, this`senders, this`add
      ensures S() == AttachStep(old(S()), reuse) && add.Attached? && add.i < |ts| && ts[add.i].sender == sender
    {
      sender := senders;
      if reuse.Some? && reuse.value < |ts| && !ts[reuse.value].sending {
        add := Attached(reuse.value);
        ts := ts[reuse.value := ts[reuse.value].(sender := senders, sending := true)];
      } else {
        add := Attached(|ts|);
        ts := ts + [Transceiver(senders, "", false, true, Unset)];
      }
      senders := senders + 1;
    }

    /** Keep the sender where it is, or move the track to a fresh transceiver. */
    method EnsureEgressTransceiver(sender: nat, removeOk: bool, addOk: bool) returns (ok: bool, now: nat, ghost i: nat)
      requires Valid() && add.Attached? && add.i < |ts| && ts[add.i].sender == sender
      modifies this
      ensures Valid() && old(trace) <= trace && nextEgressMID == old(nextEgressMID) && (removeOk && addOk ==> ok)
      ensures if ok then add == Carried(i) && i < |ts| && ts[i].sender == now && Suits(ts[i]) else add.Quiet?
    {
      ghost var st := S();
      i, now := add.i, sender;
      var k := Find(sender, i);
      ok := (ts[k].mid == "" || IsEgressMid(ts[k].mid)) && !ts[k].slot;
      add := if ok then Carried(i) else Detaching(i);
      Note(st, Ensure);
      if !ok {
        ok, now, i := MoveTrack(k, removeOk, addOk);
      }
    }

    method MoveTrack(k: nat, removeOk: bool, addOk: bool) returns (ok: bool, now: nat, ghost i: nat)
      requires Valid() && add == Detaching(k) && k < |ts|
      modifies this
      ensures Valid() && old(trace) <= trace && nextEgressMID == old(nextEgressMID) && (removeOk && addOk ==> ok)
      ensures if ok then add == Carried(i) && i < |ts| && ts[i].sender == now && Suits(ts[i]) else add.Quiet?
    {
      Yield();
      ghost var st := S();
      ok, now, i := removeOk, 0, 0;
      if ok {
        ts := ts[k := ts[k].(sending := false)];
      }
      add := if ok then Rehoming else Quiet;
      Note(st, Detach(ok));
      if ok {
        ok, now, i := AddTransceiver(addOk);
      }
    }

    method AddTransceiver(addOk: bool) returns (ok: bool, now: nat, ghost i: nat)
      requires Valid() && add.Rehoming?
      modifies this
      ensures Valid() && old(trace) <= trace && nextEgressMID == old(nextEgressMID) && ok == addOk
      ensures if ok then add == Carried(i) && i < |ts| && ts[i].sender == now && Suits(ts[i]) else add.Quiet?
    {
      Yield();
      ghost var st := S();
      ok, now, i := addOk, senders, |ts|;
      add := Quiet;
      if ok {
        add := Carried(|ts|);
        ts, senders := ts + [Transceiver(senders, "", false, true, Unset)], senders + 1;
      }
      Note(st, Rehome(ok));
    }

    /** Number the sender's transceiver when it has no MID; pion may be faster before and after the number is taken. */
    method ReserveEgressMID(sender: nat, ghost i: nat)
      requires Valid() && add == Carried(i) && i < |ts| && ts[i].sender == sender
      modifies this
      ensures Valid() && add.Quiet? && old(trace) <= trace && nextEgressMID <= NextNumber(old(nextEgressMID)) + 1
      ensures SameSenders(old(ts), ts)
    {
      Yield();
      ghost var st := S();
      var k := Find(sender, i);
      if ts[k].mid != "" {
        add := Quiet;
        Note(st, TakeNumber);
        return;
      }
      if nextEgressMID < Base {
        nextEgressMID := Base;
      }
      var mid := nextEgressMID;
      nextEgressMID := nextEgressMID + 1;
      add := Numbering(i, mid);
      Note(st, TakeNumber);
      SetMid(k, mid);
    }

    method SetMid(k: nat, mid: nat)
      requires Valid() && add == Numbering(k, mid) && k < |ts|
      modifies this
      ensures Valid() && add.Quiet? && old(trace) <= trace && nextEgressMID == old(nextEgressMID)
      ensures SameSenders(old(ts), ts)
    {
      Yield();
      ghost var st := S();
      add := Quiet;
      if ts[k].mid == "" {
        ts := ts[k := ts[k].(mid := Format(mid), origin := Server(mid))];
      }
      Note(st, SetNumber);
    }

    /**
     AddTrack: attach, ensure, reserve, with pion numbering sections anywhere in between. The object stays a run of
     the machine, so what is proved of runs holds of it; a call pion does not refuse ends on the carrier it accepted.
     */
    method AddTrack(reuse: Option<nat>, removeOk: bool, addOk: bool) returns (ok: bool, ghost carrier: nat, ghost accepted: nat)
      requires Valid() && add.Quiet?
      modifies this
      ensures Valid() && add.Quiet? && old(trace) <= trace && nextEgressMID <= NextNumber(old(nextEgressMID)) + 1
      ensures removeOk && addOk ==> ok
      ensures ok ==> accepted <= |trace| && Run(Initial, trace[..accepted]).add == Carried(carrier)
      ensures ok ==> carrier < |ts| && ts[carrier].sending && !ts[carrier].slot
    {
      ghost var st := S();
      var sender := AttachTrack(reuse);
      Note(st, Attach(reuse));
      Yield();
      ok, sender, carrier := EnsureEgressTransceiver(sender, removeOk, addOk);
      accepted := |trace|;
      ghost var t := trace;
      assert trace[..accepted] == trace;
      if ok {
        ReserveEgressMID(sender, carrier);
      }
      assert trace[..accepted] == t;
    }
  }
}
