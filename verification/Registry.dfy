/**
 The forwarder registry when publish_track (signaling) and OnTrack (media) race. A slot is one published track: its
 participant and its kind. Each handler runs as a sequence of steps, one per lock it takes, and any number of
 handlers interleave freely.
 */
module Registry {
  import opened Prelude

  type Id = string
  datatype Kind = Audio | Video
  datatype Slot = Slot(participant: string, kind: Kind)

  /** The tracks, the ID each is signaled under, and the ID each has on the wire. */
  datatype Config = Config(slots: set<Slot>, sig: Slot -> Id, wire: Slot -> Id)

  /** IDs name one track each; a browser may use the signaled ID on the wire, but never another track's. */
  predicate Distinct(c: Config) {
    forall s, t ::
      (s in c.slots && t in c.slots && (c.sig(s) == c.sig(t) || c.wire(s) == c.wire(t) || c.sig(s) == c.wire(t)))
      ==> s == t
  }

  /** A forwarder: the publisher and kind of its domain track, and whether it reads that slot's real remote track. */
  datatype Forwarder = Forwarder(owner: Slot, remote: bool)

  /** handlePublishTrack, between its steps. */
  datatype Publishing =
    | Unpublished
    | Registered            // in the room; about to look for a forwarder under the signaled ID
    | Scanning              // found none; about to scan for an orphan
    | Removing(orphan: Id)  // found one; about to stop it and take it out
    | Adopting              // about to bind its remote track under the signaled ID
    | Placing               // found none; about to create a placeholder
    | Published

  /** handleTrack and the OnTrack callback, between their steps. */
  datatype Arriving =
    | Absent
    | Named(id: Id)      // ID chosen; about to look for a forwarder under it
    | Swapping(id: Id)   // found a placeholder; about to swap its publisher
    | Arrived(id: Id)

  datatype State = State(
    forwarders: map<Id, Forwarder>,
    publishing: map<Slot, Publishing>,   // Unpublished where there is no entry
    arriving: map<Slot, Arriving>,       // Absent where there is no entry
    raced: set<Slot>)   // history: scanned while the arriving track had chosen its wire ID and not stored it

  const Initial := State(map[], map[], map[], {})

  datatype Action = Publish(s: Slot, pick: Id) | Arrive(s: Slot)

  function PublishingOf(st: State, s: Slot): Publishing { if s in st.publishing then st.publishing[s] else Unpublished }
  function ArrivingOf(st: State, s: Slot): Arriving { if s in st.arriving then st.arriving[s] else Absent }

  /** Room.GetTrack(id) != nil. */
  predicate InRoom(c: Config, st: State, id: Id) {
    exists t :: t in c.slots && !PublishingOf(st, t).Unpublished? && c.sig(t) == id
  }

  /** handleTrack's choice: exact wire match, else the participant's published track of that kind, else the wire ID. */
  function ChooseId(c: Config, st: State, s: Slot): Id {
    if InRoom(c, st, c.wire(s)) then c.wire(s)
    else if !PublishingOf(st, s).Unpublished? then c.sig(s)
    else c.wire(s)
  }

  /** What adoptOrphanForwarder accepts. */
  predicate IsOrphan(c: Config, st: State, s: Slot, id: Id) {
    id in st.forwarders && id != c.sig(s) && st.forwarders[id] == Forwarder(s, true) && !InRoom(c, st, id)
  }

  /** getOrCreateForwarder: create, swap a placeholder for a remote track, or leave what is there. */
  function GetOrCreate(fs: map<Id, Forwarder>, id: Id, fw: Forwarder): map<Id, Forwarder> {
    if id !in fs || (fw.remote && !fs[id].remote) then fs[id := fw] else fs
  }

  function At(st: State, s: Slot, p: Publishing): State { st.(publishing := st.publishing[s := p]) }

  predicate RaceNow(c: Config, st: State, s: Slot) {
    c.wire(s) != c.sig(s) && PublishingOf(st, s).Scanning? && ArrivingOf(st, s) == Named(c.wire(s))
  }

  function PublishStep(c: Config, st: State, s: Slot, pick: Id): State {
    match PublishingOf(st, s)
    case Unpublished => At(st, s, Registered)
    case Registered => At(st, s, if c.sig(s) in st.forwarders then Published else Scanning)
    case Scanning => ScanStep(c, st, s, pick)
    case Removing(id) => At(st.(forwarders := st.forwarders - {id}), s, Adopting)
    case Adopting => At(st.(forwarders := GetOrCreate(st.forwarders, c.sig(s), Forwarder(s, true))), s, Published)
    case Placing => At(st.(forwarders := GetOrCreate(st.forwarders, c.sig(s), Forwarder(s, false))), s, Published)
    case Published => st
  }

  /** The scan visits the registry in any order: it ends on some orphan, or on none only if there is none. */
  function ScanStep(c: Config, st: State, s: Slot, pick: Id): State {
    if IsOrphan(c, st, s, pick) then At(st, s, Removing(pick))
    else if exists id :: id in st.forwarders && IsOrphan(c, st, s, id) then st
    else At(if RaceNow(c, st, s) then st.(raced := st.raced + {s}) else st, s, Placing)
  }

  function Goes(st: State, s: Slot, a: Arriving): State { st.(arriving := st.arriving[s := a]) }

  function ArriveStep(c: Config, st: State, s: Slot): State {
    match ArrivingOf(st, s)
    case Absent => Goes(st, s, Named(ChooseId(c, st, s)))
    case Named(id) =>
      if id !in st.forwarders then Goes(st.(forwarders := st.forwarders[id := Forwarder(s, true)]), s, Arrived(id))
      else Goes(st, s, if st.forwarders[id].remote then Arrived(id) else Swapping(id))
    case Swapping(id) =>
      Goes(st.(forwarders := if id in st.forwarders then st.forwarders[id := Forwarder(s, true)] else st.forwarders),
           s, Arrived(id))
    case Arrived(_) => st
  }

  function Next(c: Config, st: State, a: Action): State {
    if a.s !in c.slots then st
    else match a
      case Publish(s, pick) => PublishStep(c, st, s, pick)
      case Arrive(s) => ArriveStep(c, st, s)
  }

  function Run(c: Config, st: State, run: seq<Action>): State
    decreases |run|
  {
    if run == [] then st else Run(c, Next(c, st, run[0]), run[1..])
  }

  // ---------------------------------------------------------------- one slot's view of the registry

  datatype View = View(atSig: Option<Forwarder>, atWire: Option<Forwarder>, p: Publishing, a: Arriving, raced: bool)

  function Under(fs: map<Id, Forwarder>, id: Id): Option<Forwarder> { if id in fs then Some(fs[id]) else None }

  function See(c: Config, st: State, s: Slot): View {
    View(Under(st.forwarders, c.sig(s)), Under(st.forwarders, c.wire(s)), PublishingOf(st, s), ArrivingOf(st, s), s in st.raced)
  }

  /** The wire ID differs from the signaled one: what the handlers and the two forwarders may look like together. */
  predicate Apart(s: Slot, g: Id, w: Id, v: View) {
    && (v.atWire.Some? ==> v.atWire.value == Forwarder(s, true) && v.a == Arrived(w))
    && (v.p.Removing? ==> v.p.orphan == w && v.a == Arrived(w))
    && (v.p.Adopting? ==> v.a == Arrived(w))
    && (v.p.Published? ==> v.atSig.Some?)
    && (v.raced ==> (v.a == Named(w) || v.a == Arrived(w)) && (v.p.Placing? || v.p.Published?))
    && match v.a
       case Absent => v.atSig == if v.p.Published? then Some(Forwarder(s, false)) else None
       case Named(id) =>
         && v.atSig == (if v.p.Published? then Some(Forwarder(s, false)) else None)
         && if id == g then !v.p.Unpublished? else id == w && (v.p.Placing? || v.p.Published? ==> v.raced)
       case Swapping(id) => id == g && v.p.Published? && v.atSig == Some(Forwarder(s, false))
       case Arrived(id) =>
         if id == g then !v.p.Unpublished? && v.atSig == Some(Forwarder(s, true))
         else
           && id == w
           && v.atSig == (if v.p.Published? then Some(Forwarder(s, !v.raced)) else None)
           && (v.p.Placing? ==> v.raced)
           && (v.atWire.Some? <==> (v.raced || !(v.p.Adopting? || v.p.Published?)))
  }

  /** The browser uses the signaled ID on the wire. */
  predicate Together(s: Slot, g: Id, v: View) {
    && v.atWire == v.atSig && !v.raced && !v.p.Removing? && !v.p.Adopting?
    && (v.a.Absent? || v.a.id == g)
    && (v.a.Swapping? ==> v.p.Published?)
    && v.atSig == if v.a.Arrived? then Some(Forwarder(s, true))
                  else if v.p.Published? then Some(Forwarder(s, false)) else None
  }

  predicate SlotInv(c: Config, s: Slot, v: View) {
    if c.wire(s) == c.sig(s) then Together(s, c.sig(s), v) else Apart(s, c.sig(s), c.wire(s), v)
  }

  ghost predicate Inv(c: Config, st: State) {
    && (forall s :: s in c.slots ==> SlotInv(c, s, See(c, st, s)))
    && (forall id :: id in st.forwarders ==> exists s :: s in c.slots && (id == c.sig(s) || id == c.wire(s)))
  }

  /** What a publish step does to its own slot's view. */
  function PublishView(s: Slot, g: Id, w: Id, v: View): View {
    match v.p
    case Unpublished => v.(p := Registered)
    case Registered => v.(p := if v.atSig.Some? then Published else Scanning)
    case Scanning =>
      if w != g && v.atWire.Some? then v.(p := Removing(w)) else v.(p := Placing, raced := v.raced || (w != g && v.a == Named(w)))
    case Removing(_) => v.(p := Adopting, atWire := None)
    case Adopting =>
      v.(p := Published, atSig := if v.atSig.Some? && v.atSig.value.remote then v.atSig else Some(Forwarder(s, true)))
    case Placing =>
      var f := if v.atSig.Some? then v.atSig else Some(Forwarder(s, false));
      if w == g then v.(p := Published, atSig := f, atWire := f) else v.(p := Published, atSig := f)
    case Published => v
  }

  function ArriveView(s: Slot, g: Id, w: Id, v: View): View {
    match v.a
    case Absent => v.(a := Named(if w == g || v.p.Unpublished? then w else g))
    case Named(id) =>
      var f := if id == g then v.atSig else v.atWire;
      if f.None? then Stored(s, g, w, v, id).(a := Arrived(id))
      else v.(a := if f.value.remote then Arrived(id) else Swapping(id))
    case Swapping(id) => Stored(s, g, w, v, id).(a := Arrived(id))
    case Arrived(_) => v
  }

  function Stored(s: Slot, g: Id, w: Id, v: View, id: Id): View {
    v.(atSig := if id == g then Some(Forwarder(s, true)) else v.atSig,
       atWire := if id == w then Some(Forwarder(s, true)) else v.atWire)
  }

  lemma {:induction false} PublishViewInv(c: Config, s: Slot, v: View)
    requires SlotInv(c, s, v)
    ensures SlotInv(c, s, PublishView(s, c.sig(s), c.wire(s), v))
  {
    match v.p
    case Unpublished => case Registered => case Scanning => case Removing(_) => case Adopting => case Placing =>
    case Published =>
  }

  lemma {:induction false} ArriveViewInv(c: Config, s: Slot, v: View)
    requires SlotInv(c, s, v)
    ensures SlotInv(c, s, ArriveView(s, c.sig(s), c.wire(s), v))
  {
    match v.a
    case Absent => case Named(_) => case Swapping(_) => case Arrived(_) =>
  }

  // ---------------------------------------------------------------- steps stay within their slot

  /** An orphan accepted for a slot is that slot's wire-ID forwarder, which is one whenever it stands. */
  lemma {:induction false} OrphanIsWire(c: Config, st: State, s: Slot, id: Id)
    requires Inv(c, st) && Distinct(c) && s in c.slots
    ensures IsOrphan(c, st, s, id) <==> id == c.wire(s) && id != c.sig(s) && id in st.forwarders
  {
    assert SlotInv(c, s, See(c, st, s));
    if IsOrphan(c, st, s, id) {
      var t :| t in c.slots && (id == c.sig(t) || id == c.wire(t));
      assert SlotInv(c, t, See(c, st, t));
    }
  }

  lemma ChosenId(c: Config, st: State, s: Slot)
    requires Distinct(c) && s in c.slots
    ensures ChooseId(c, st, s) == if c.wire(s) == c.sig(s) || PublishingOf(st, s).Unpublished? then c.wire(s) else c.sig(s)
  {
  }

  ghost predicate Elsewhere(c: Config, st: State, v: State, s: Slot) {
    && (forall id :: id != c.sig(s) && id != c.wire(s) ==> Under(v.forwarders, id) == Under(st.forwarders, id))
    && (forall t :: t != s ==> PublishingOf(v, t) == PublishingOf(st, t) && ArrivingOf(v, t) == ArrivingOf(st, t))
    && (forall t :: t != s ==> (t in v.raced <==> t in st.raced))
  }

  lemma {:induction false} Frame(c: Config, st: State, v: State, s: Slot)
    requires Inv(c, st) && Distinct(c) && s in c.slots && Elsewhere(c, st, v, s) && SlotInv(c, s, See(c, v, s))
    ensures Inv(c, v)
  {
    forall t | t in c.slots
      ensures SlotInv(c, t, See(c, v, t))
    {
      if t != s { assert See(c, v, t) == See(c, st, t); }
    }
    forall id | id in v.forwarders
      ensures exists t :: t in c.slots && (id == c.sig(t) || id == c.wire(t))
    {
      if id != c.sig(s) && id != c.wire(s) {
        assert Under(v.forwarders, id) == Under(st.forwarders, id);
        assert id in st.forwarders;
      }
    }
  }

  lemma {:induction false} PublishSeen(c: Config, st: State, s: Slot, pick: Id)
    requires Distinct(c) && s in c.slots && !PublishingOf(st, s).Scanning?
    requires PublishingOf(st, s).Removing? ==> c.wire(s) != c.sig(s) && PublishingOf(st, s).orphan == c.wire(s)
    requires PublishingOf(st, s).Adopting? ==> c.wire(s) != c.sig(s)
    ensures var v := PublishStep(c, st, s, pick);
            Elsewhere(c, st, v, s) && See(c, v, s) == PublishView(s, c.sig(s), c.wire(s), See(c, st, s))
  {
    match PublishingOf(st, s)
    case Unpublished => case Registered => case Removing(_) => case Adopting => case Placing => case Published =>
  }

  lemma {:induction false} ScanSeen(c: Config, st: State, s: Slot, pick: Id)
    requires Inv(c, st) && Distinct(c) && s in c.slots && PublishingOf(st, s).Scanning?
    ensures var v := PublishStep(c, st, s, pick);
            v == st || (Elsewhere(c, st, v, s) && See(c, v, s) == PublishView(s, c.sig(s), c.wire(s), See(c, st, s)))
  {
    ScanEffect(c, st, s, pick);
  }

  /** The scan stops at the wire-ID forwarder if it stands, and otherwise finds nothing. */
  lemma {:induction false} ScanEffect(c: Config, st: State, s: Slot, pick: Id)
    requires Inv(c, st) && Distinct(c) && s in c.slots && PublishingOf(st, s).Scanning?
    ensures var v, stands := PublishStep(c, st, s, pick), c.wire(s) != c.sig(s) && c.wire(s) in st.forwarders;
            if !stands then v == At(if RaceNow(c, st, s) then st.(raced := st.raced + {s}) else st, s, Placing)
            else if pick == c.wire(s) then v == At(st, s, Removing(c.wire(s)))
            else v == st
  {
    OrphanIsWire(c, st, s, pick);
    OrphanIsWire(c, st, s, c.wire(s));
    forall id | IsOrphan(c, st, s, id)
      ensures id == c.wire(s) && id != c.sig(s) && id in st.forwarders
    {
      OrphanIsWire(c, st, s, id);
    }
  }

  lemma {:induction false} ArriveSeen(c: Config, st: State, s: Slot)
    requires Distinct(c) && s in c.slots
    requires var a := ArrivingOf(st, s); a.Absent? || a.id == c.sig(s) || a.id == c.wire(s)
    requires ArrivingOf(st, s).Swapping? ==> ArrivingOf(st, s).id in st.forwarders
    ensures var v := ArriveStep(c, st, s);
            Elsewhere(c, st, v, s) && See(c, v, s) == ArriveView(s, c.sig(s), c.wire(s), See(c, st, s))
  {
    ChosenId(c, st, s);
    match ArrivingOf(st, s)
    case Absent => case Named(_) => case Swapping(_) => case Arrived(_) =>
  }

  lemma {:induction false} NextInv(c: Config, st: State, a: Action)
    requires Inv(c, st) && Distinct(c)
    ensures Inv(c, Next(c, st, a))
  {
    if a.s in c.slots {
      assert SlotInv(c, a.s, See(c, st, a.s));
      if a.Arrive? {
        ArriveSeen(c, st, a.s);
        ArriveViewInv(c, a.s, See(c, st, a.s));
      } else {
        if PublishingOf(st, a.s).Scanning? { ScanSeen(c, st, a.s, a.pick); } else { PublishSeen(c, st, a.s, a.pick); }
        PublishViewInv(c, a.s, See(c, st, a.s));
      }
      if Next(c, st, a) != st { Frame(c, st, Next(c, st, a), a.s); }
    }
  }
}
