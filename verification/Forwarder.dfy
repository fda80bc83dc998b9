/**
 The forwarder object between concurrent steps: the subscriber map, its bounded queues and its counters, changed by
 the methods' own loops. A queue is the sequence of packets waiting in it; a writer is a call that empties it.
 */
module ForwarderOps {
  import opened Prelude
  import opened Codec

  type Media = nat

  datatype Subscriber = Subscriber(mime: Mime, queue: seq<Media>, dropped: nat)

  // ---------------------------------------------------------------- sums over the subscriber map

  ghost function Sum(m: map<Pc, nat>): nat
    decreases |m|
  {
    if m == map[] then 0 else var k :| k in m; m[k] + Sum(m - {k})
  }

  lemma {:induction false} SumWithout(m: map<Pc, nat>, k: Pc)
    requires k in m
    ensures Sum(m) == m[k] + Sum(m - {k})
    decreases |m|
  {
    var j :| j in m && Sum(m) == m[j] + Sum(m - {j});
    if j != k {
      assert k in m - {j} && j in m - {k};
      assert m - {j} - {k} == m - {k} - {j};
      SumWithout(m - {j}, k);
      SumWithout(m - {k}, j);
    }
  }

  lemma {:induction false} SumWith(m: map<Pc, nat>, k: Pc, x: nat)
    ensures k in m ==> Sum(m[k := x]) + m[k] == Sum(m) + x
    ensures k !in m ==> Sum(m[k := x]) == Sum(m) + x
  {
    SumWithout(m[k := x], k);
    assert m[k := x] - {k} == m - {k};
    if k in m { SumWithout(m, k); } else { assert m - {k} == m; }
  }

  function Depths(subs: map<Pc, Subscriber>): map<Pc, nat> { map pc | pc in subs :: |subs[pc].queue| }

  function Drops(subs: map<Pc, Subscriber>): map<Pc, nat> { map pc | pc in subs :: subs[pc].dropped }

  /** Adding or replacing one subscriber. */
  lemma {:induction false} SumsWith(subs: map<Pc, Subscriber>, pc: Pc, s: Subscriber)
    ensures var m := subs[pc := s];
            && Sum(Depths(m)) == Sum(Depths(subs)) + |s.queue| - (if pc in subs then |subs[pc].queue| else 0)
            && Sum(Drops(m)) == Sum(Drops(subs)) + s.dropped - (if pc in subs then subs[pc].dropped else 0)
  {
    assert Depths(subs[pc := s]) == Depths(subs)[pc := |s.queue|];
    assert Drops(subs[pc := s]) == Drops(subs)[pc := s.dropped];
    SumWith(Depths(subs), pc, |s.queue|);
    SumWith(Drops(subs), pc, s.dropped);
  }

  lemma {:induction false} SumsWithout(subs: map<Pc, Subscriber>, pc: Pc)
    requires pc in subs
    ensures Sum(Depths(subs)) == Sum(Depths(subs - {pc})) + |subs[pc].queue|
    ensures Sum(Drops(subs)) == Sum(Drops(subs - {pc})) + subs[pc].dropped
  {
    assert Depths(subs - {pc}) == Depths(subs) - {pc};
    assert Drops(subs - {pc}) == Drops(subs) - {pc};
    SumWithout(Depths(subs), pc);
    SumWithout(Drops(subs), pc);
  }

  // ---------------------------------------------------------------- specifications of the loops

  /** One subscriber is offered a packet. */
  function Offered(cap: nat, s: Subscriber, m: Media): Subscriber {
    if |s.queue| < cap then s.(queue := s.queue + [m]) else s.(dropped := s.dropped + 1)
  }

  /** The subscribers outside `todo` have been offered the packet. */
  function OfferedOutside(cap: nat, subs: map<Pc, Subscriber>, m: Media, todo: set<Pc>): map<Pc, Subscriber> {
    map pc | pc in subs :: if pc in todo then subs[pc] else Offered(cap, subs[pc], m)
  }

  /** The subscribers outside `todo` that have room. */
  function Roomy(cap: nat, subs: map<Pc, Subscriber>, todo: set<Pc>): set<Pc> {
    set pc | pc in subs && pc !in todo && |subs[pc].queue| < cap
  }

  lemma OfferNone(cap: nat, subs: map<Pc, Subscriber>, m: Media)
    ensures OfferedOutside(cap, subs, m, subs.Keys) == subs && Roomy(cap, subs, subs.Keys) == {}
  {
  }

  lemma OfferMore(cap: nat, subs: map<Pc, Subscriber>, m: Media, todo: set<Pc>, pc: Pc)
    requires pc in subs && pc in todo
    ensures OfferedOutside(cap, subs, m, todo)[pc := Offered(cap, subs[pc], m)] == OfferedOutside(cap, subs, m, todo - {pc})
  {
  }

  /** Everybody is offered the packet once: it is queued behind what waits, or dropped and counted where there is no room. */
  lemma OfferedToEach(cap: nat, subs: map<Pc, Subscriber>, m: Media)
    ensures var v := OfferedOutside(cap, subs, m, {});
            && v.Keys == subs.Keys
            && forall pc :: pc in subs ==>
                 && v[pc].mime == subs[pc].mime
                 && v[pc].queue == (if |subs[pc].queue| < cap then subs[pc].queue + [m] else subs[pc].queue)
                 && v[pc].dropped == if |subs[pc].queue| < cap then subs[pc].dropped else subs[pc].dropped + 1
  {
  }

  lemma {:induction false} RoomMore(cap: nat, subs: map<Pc, Subscriber>, todo: set<Pc>, pc: Pc)
    requires pc in subs && pc in todo
    ensures |Roomy(cap, subs, todo - {pc})| == |Roomy(cap, subs, todo)| + if |subs[pc].queue| < cap then 1 else 0
  {
    if |subs[pc].queue| < cap {
      assert Roomy(cap, subs, todo - {pc}) == Roomy(cap, subs, todo) + {pc};
    } else {
      assert Roomy(cap, subs, todo - {pc}) == Roomy(cap, subs, todo);
    }
  }

  function ResetOutside(subs: map<Pc, Subscriber>, todo: set<Pc>): map<Pc, Subscriber> {
    map pc | pc in subs :: if pc in todo then subs[pc] else subs[pc].(dropped := 0)
  }

  lemma ResetMore(subs: map<Pc, Subscriber>, todo: set<Pc>, pc: Pc)
    requires pc in subs && pc in todo
    ensures ResetOutside(subs, todo)[pc := subs[pc].(dropped := 0)] == ResetOutside(subs, todo - {pc})
  {
  }

  /** The subscribers a swap to publisher p leaves: matching ones as they were, the others rebuilt or detached. */
  function Reconciled(subs: map<Pc, Subscriber>, p: Publisher, rebuilds: Pc -> bool, todo: set<Pc>): map<Pc, Subscriber> {
    map pc | pc in subs && (pc in todo || subs[pc].mime == p.mime || rebuilds(pc)) ::
      if pc in todo || subs[pc].mime == p.mime then subs[pc] else Subscriber(p.mime, [], 0)
  }

  lemma ReconcileMore(subs: map<Pc, Subscriber>, p: Publisher, rebuilds: Pc -> bool, todo: set<Pc>, pc: Pc)
    requires pc in subs && pc in todo
    ensures var now := Reconciled(subs, p, rebuilds, todo);
            && pc in now && now[pc] == subs[pc]
            && Reconciled(subs, p, rebuilds, todo - {pc}) ==
                 if subs[pc].mime == p.mime then now
                 else if rebuilds(pc) then (now - {pc})[pc := Subscriber(p.mime, [], 0)] else now - {pc}
  {
  }

  // ---------------------------------------------------------------- the forwarder

  class TrackForwarder {
    var publisher: Publisher
    var subscribers: map<Pc, Subscriber>
    var queueSize: nat
    var running: bool
    var packetsForwarded: nat
    var packetsWritten: nat
    var packetsDropped: nat

    /** Queues are bounded, forwarded packets are written or waiting, and live drop counts are all accounted for. */
    ghost predicate Valid()
      reads this
    {
      && (forall pc :: pc in subscribers ==> |subscribers[pc].queue| <= queueSize)
      && packetsForwarded == packetsWritten + Sum(Depths(subscribers))
      && Sum(Drops(subscribers)) <= packetsDropped
      && (running ==> publisher.remote)
      && Agree(publisher, subscribers)
    }

    constructor (p: Publisher, configured: int)
      ensures Valid() && publisher == p && subscribers == map[] && !running
      ensures queueSize == if configured <= 0 then 64 else configured
    {
      publisher, subscribers, running := p, map[], false;
      queueSize := if configured <= 0 then 64 else configured;
      packetsForwarded, packetsWritten, packetsDropped := 0, 0, 0;
    }

    /** Every subscriber is offered the packet once; room decides; n subscribers add n to forwarded plus dropped. */
    method WriteRTP(m: Media)
      requires Valid()
      modifies this`subscribers, this`packetsForwarded, this`packetsDropped
      ensures Valid()
      ensures subscribers == OfferedOutside(queueSize, old(subscribers), m, {})
      ensures packetsForwarded == old(packetsForwarded) + |Roomy(queueSize, old(subscribers), {})|
      ensures packetsForwarded + packetsDropped == old(packetsForwarded) + old(packetsDropped) + |old(subscribers)|
    {
      var entries := subscribers;
      var todo := entries.Keys;
      OfferNone(queueSize, entries, m);
      while todo != {}
        invariant todo <= entries.Keys && Valid()
        invariant subscribers == OfferedOutside(queueSize, entries, m, todo)
        invariant packetsForwarded == old(packetsForwarded) + |Roomy(queueSize, entries, todo)|
        invariant packetsForwarded + packetsDropped + |todo| == old(packetsForwarded) + old(packetsDropped) + |entries|
        decreases |todo|
      {
        var pc :| pc in todo;
        OfferNext(pc, m, entries, todo);
        todo := todo - {pc};
      }
    }

    /** One turn of the loop. */
    method OfferNext(pc: Pc, m: Media, ghost entries: map<Pc, Subscriber>, ghost todo: set<Pc>)
      requires Valid() && pc in todo && pc in entries && subscribers == OfferedOutside(queueSize, entries, m, todo)
      modifies this`subscribers, this`packetsForwarded, this`packetsDropped
      ensures Valid() && subscribers == OfferedOutside(queueSize, entries, m, todo - {pc})
      ensures packetsForwarded - |Roomy(queueSize, entries, todo - {pc})| == old(packetsForwarded) - |Roomy(queueSize, entries, todo)|
      ensures packetsForwarded + packetsDropped == old(packetsForwarded) + old(packetsDropped) + 1
    {
      OfferMore(queueSize, entries, m, todo, pc);
      RoomMore(queueSize, entries, todo, pc);
      OfferOne(pc, m);
    }

    method OfferOne(pc: Pc, m: Media)
      requires Valid() && pc in subscribers
      modifies this`subscribers, this`packetsForwarded, this`packetsDropped
      ensures Valid() && subscribers == old(subscribers)[pc := Offered(queueSize, old(subscribers[pc]), m)]
      ensures var room := old(|subscribers[pc].queue|) < queueSize;
              && packetsForwarded == old(packetsForwarded) + (if room then 1 else 0)
              && packetsDropped == old(packetsDropped) + (if room then 0 else 1)
    {
      if |subscribers[pc].queue| == queueSize {
        Drop(pc);
      } else {
        Enqueue(pc, m);
      }
    }

    method Drop(pc: Pc)
      requires Valid() && pc in subscribers
      modifies this`subscribers, this`packetsDropped
      ensures Valid() && packetsDropped == old(packetsDropped) + 1
      ensures subscribers == old(subscribers)[pc := old(subscribers[pc]).(dropped := old(subscribers[pc].dropped) + 1)]
    {
      SumsWith(subscribers, pc, subscribers[pc].(dropped := subscribers[pc].dropped + 1));
      subscribers := subscribers[pc := subscribers[pc].(dropped := subscribers[pc].dropped + 1)];
      packetsDropped := packetsDropped + 1;
    }

    method Enqueue(pc: Pc, m: Media)
      requires Valid() && pc in subscribers && |subscribers[pc].queue| < queueSize
      modifies this`subscribers, this`packetsForwarded
      ensures Valid() && packetsForwarded == old(packetsForwarded) + 1
      ensures subscribers == old(subscribers)[pc := old(subscribers[pc]).(queue := old(subscribers[pc].queue) + [m])]
    {
      SumsWith(subscribers, pc, subscribers[pc].(queue := subscribers[pc].queue + [m]));
      subscribers := subscribers[pc := subscribers[pc].(queue := subscribers[pc].queue + [m])];
      packetsForwarded := packetsForwarded + 1;
    }

    /** The writer after cancellation: everything still queued is written, in order. */
    method Drain(pc: Pc) returns (written: seq<Media>)
      requires Valid() && pc in subscribers
      modifies this`subscribers, this`packetsWritten
      ensures Valid() && written == old(subscribers[pc].queue)
      ensures subscribers == old(subscribers)[pc := old(subscribers[pc]).(queue := [])]
      ensures packetsWritten == old(packetsWritten) + |written|
    {
      ghost var before := subscribers[pc];
      written := [];
      assert old(subscribers)[pc := before] == old(subscribers);
      while subscribers[pc].queue != []
        invariant Valid() && pc in subscribers
        invariant subscribers == old(subscribers)[pc := before.(queue := subscribers[pc].queue)]
        invariant written + subscribers[pc].queue == before.queue
        invariant packetsWritten == old(packetsWritten) + |written|
        decreases |subscribers[pc].queue|
      {
        written := DrainOne(pc, written, old(subscribers), before);
      }
    }

    /** One packet of the drain. */
    method DrainOne(pc: Pc, written: seq<Media>, ghost all: map<Pc, Subscriber>, ghost before: Subscriber) returns (more: seq<Media>)
      requires Valid() && pc in subscribers && subscribers[pc].queue != []
      requires subscribers == all[pc := before.(queue := subscribers[pc].queue)] && written + subscribers[pc].queue == before.queue
      modifies this`subscribers, this`packetsWritten
      ensures Valid() && pc in subscribers && |subscribers[pc].queue| < old(|subscribers[pc].queue|)
      ensures subscribers == all[pc := before.(queue := subscribers[pc].queue)] && more + subscribers[pc].queue == before.queue
      ensures |more| == |written| + 1 && packetsWritten == old(packetsWritten) + 1
    {
      var m := WriteOne(pc);
      more := written + [m];
    }

    /** One turn of the writer. */
    method WriteOne(pc: Pc) returns (m: Media)
      requires Valid() && pc in subscribers && subscribers[pc].queue != []
      modifies this`subscribers, this`packetsWritten
      ensures Valid() && packetsWritten == old(packetsWritten) + 1
      ensures m == old(subscribers[pc].queue[0])
      ensures subscribers == old(subscribers)[pc := old(subscribers[pc]).(queue := old(subscribers[pc].queue[1..]))]
    {
      m := subscribers[pc].queue[0];
      SumsWith(subscribers, pc, subscribers[pc].(queue := subscribers[pc].queue[1..]));
      subscribers := subscribers[pc := subscribers[pc].(queue := subscribers[pc].queue[1..])];
      packetsWritten := packetsWritten + 1;
    }

    method AddSubscriber(pc: Pc, usable: bool, addOk: bool) returns (ok: bool)
      requires Valid()
      modifies this`subscribers
      ensures Valid() && ok == (usable && (pc in old(subscribers) || addOk))
      ensures subscribers == if ok && pc !in old(subscribers)
                             then old(subscribers)[pc := Subscriber(EgressMime(publisher), [], 0)] else old(subscribers)
      ensures ok && pc !in old(subscribers) ==>
                && (publisher.mime != "" ==> subscribers[pc].mime == publisher.mime)
                && (publisher.mime == "" && publisher.audio ==> subscribers[pc].mime == "audio/opus")
                && (publisher.mime == "" && !publisher.audio ==> subscribers[pc].mime == "video/VP8")
    {
      if !usable {
        return false;
      }
      if pc in subscribers {
        return true;
      }
      var mime := publisher.mime;
      if mime == "" {
        mime := if publisher.audio then "audio/opus" else "video/VP8";
      }
      if !addOk {
        return false;
      }
      SumsWith(subscribers, pc, Subscriber(mime, [], 0));
      subscribers := subscribers[pc := Subscriber(mime, [], 0)];
      return true;
    }

    /** Unregister, let the writer drain, and report whether the subscriber was there. */
    method RemoveSubscriber(pc: Pc) returns (ok: bool, drained: seq<Media>)
      requires Valid()
      modifies this`subscribers, this`packetsWritten
      ensures Valid() && ok == (pc in old(subscribers)) && subscribers == old(subscribers) - {pc}
      ensures drained == if ok then old(subscribers[pc].queue) else []
      ensures packetsWritten == old(packetsWritten) + |drained|
    {
      if pc !in subscribers {
        assert subscribers - {pc} == subscribers;
        return false, [];
      }
      drained := Drain(pc);
      SumsWithout(subscribers, pc);
      subscribers := subscribers - {pc};
      return true, drained;
    }

    /** Stop one stale entry and put a rebuilt one in its place, or leave the subscriber detached. */
    method ReconcileSubscriber(pc: Pc, p: Publisher, rebuilt: bool)
      requires Counted() && pc in subscribers
      modifies this`subscribers, this`packetsWritten
      ensures Counted()
      ensures subscribers == if rebuilt then (old(subscribers) - {pc})[pc := Subscriber(p.mime, [], 0)] else old(subscribers) - {pc}
    {
      SumsWithout(subscribers, pc);
      packetsWritten := packetsWritten + |subscribers[pc].queue|;
      subscribers := subscribers - {pc};
      if !rebuilt {
        return;
      }
      SumsWith(subscribers, pc, Subscriber(p.mime, [], 0));
      subscribers := subscribers[pc := Subscriber(p.mime, [], 0)];
    }

    /** The part of Valid that a swap keeps at every point. */
    ghost predicate Counted()
      reads this
    {
      && (forall pc :: pc in subscribers ==> |subscribers[pc].queue| <= queueSize)
      && packetsForwarded == packetsWritten + Sum(Depths(subscribers))
      && Sum(Drops(subscribers)) <= packetsDropped
    }

    /**
     Swap the publisher. With an authoritative one, subscribers whose MIME matches are untouched, and of the others
     exactly those whose rebuild failed are detached; afterwards every MIME matches.
     */
    method UpdatePublisher(p: Publisher, rebuilds: Pc -> bool)
      requires Valid()
      modifies this`publisher, this`subscribers, this`running, this`packetsWritten
      ensures Valid()
      ensures p.obj == old(publisher.obj) ==> publisher == old(publisher) && subscribers == old(subscribers) && running == old(running)
      ensures p.obj != old(publisher.obj) ==>
                && publisher == p && running == p.remote && Kept(old(subscribers), rebuilds)
                && subscribers == if Authoritative(p) then Reconciled(old(subscribers), p, rebuilds, {}) else old(subscribers)
    {
      if publisher.obj == p.obj {
        return;
      }
      running := false;
      publisher := p;
      if Authoritative(p) {
        ReconcileAll(p, rebuilds);
      }
      running := p.remote;
    }

    /** Matching subscribers are as they were, the others rebuilt with the publisher's MIME, or gone where that failed. */
    ghost predicate Kept(before: map<Pc, Subscriber>, rebuilds: Pc -> bool)
      reads this
    {
      if !publisher.remote || publisher.mime == "" then subscribers == before
      else
        && (forall pc :: pc in subscribers <==> pc in before && (before[pc].mime == publisher.mime || rebuilds(pc)))
        && forall pc :: pc in subscribers ==>
             subscribers[pc] == if before[pc].mime == publisher.mime then before[pc] else Subscriber(publisher.mime, [], 0)
    }

    method ReconcileAll(p: Publisher, rebuilds: Pc -> bool)
      requires Counted()
      modifies this`subscribers, this`packetsWritten
      ensures Counted() && subscribers == Reconciled(old(subscribers), p, rebuilds, {})
    {
      var subs := subscribers;
      var todo := subs.Keys;
      assert Reconciled(subs, p, rebuilds, todo) == subs;
      while todo != {}
        invariant todo <= subs.Keys && Counted()
        invariant subscribers == Reconciled(subs, p, rebuilds, todo)
        decreases |todo|
      {
        var pc :| pc in todo;
        ReconcileMore(subs, p, rebuilds, todo, pc);
        if subs[pc].mime != p.mime {
          ReconcileSubscriber(pc, p, rebuilds(pc));
        }
        todo := todo - {pc};
      }
    }

    /** The diagnostic count of mismatched subscribers is zero exactly when the codecs agree. */
    method CheckCodecInvariant() returns (mismatched: nat)
      ensures mismatched == 0 <==> Agree(publisher, subscribers)
    {
      mismatched := 0;
      if !publisher.remote || publisher.mime == "" {
        return;
      }
      var todo := subscribers.Keys;
      while todo != {}
        invariant todo <= subscribers.Keys
        invariant mismatched == 0 <==> forall pc :: pc in subscribers && pc !in todo ==> subscribers[pc].mime == publisher.mime
        decreases |todo|
      {
        var pc :| pc in todo;
        if subscribers[pc].mime != publisher.mime {
          mismatched := mismatched + 1;
        }
        todo := todo - {pc};
      }
    }

    method Start()
      requires Valid()
      modifies this`running
      ensures Valid() && running == (old(running) || publisher.remote)
    {
      if running {
        return;
      }
      running := publisher.remote;
    }

    /** Everything queued is written and every subscriber is gone. */
    method Stop()
      requires Valid()
      modifies this`running, this`subscribers, this`packetsWritten
      ensures Valid() && !running && subscribers == map[] && packetsWritten == packetsForwarded
    {
      running := false;
      var todo := subscribers.Keys;
      while todo != {}
        invariant todo == subscribers.Keys && Valid() && !running
        decreases |todo|
      {
        var pc :| pc in todo;
        var _, _ := RemoveSubscriber(pc);
        todo := todo - {pc};
      }
      assert subscribers == map[] && Depths(subscribers) == map[];
    }

    /** The sum over live subscribers, which the forwarder's own counter bounds. */
    method TotalDropped() returns (total: nat)
      requires Valid()
      ensures total == Sum(Drops(subscribers)) && total <= packetsDropped
    {
      total := 0;
      var rest := subscribers;
      while rest != map[]
        invariant total + Sum(Drops(rest)) == Sum(Drops(subscribers))
        decreases |rest|
      {
        var pc :| pc in rest;
        SumsWithout(rest, pc);
        total := total + rest[pc].dropped;
        rest := rest - {pc};
      }
      assert Drops(rest) == map[];
    }

    method MaxQueueDepth() returns (max: nat)
      requires Valid()
      ensures max <= queueSize && forall pc :: pc in subscribers ==> |subscribers[pc].queue| <= max
      ensures subscribers != map[] ==> exists pc :: pc in subscribers && |subscribers[pc].queue| == max
      ensures subscribers == map[] ==> max == 0
    {
      max := 0;
      var todo := subscribers.Keys;
      while todo != {}
        invariant todo <= subscribers.Keys && max <= queueSize
        invariant forall pc :: pc in subscribers && pc !in todo ==> |subscribers[pc].queue| <= max
        invariant max == 0 || exists pc :: pc in subscribers && |subscribers[pc].queue| == max
        decreases |todo|
      {
        var pc :| pc in todo;
        if |subscribers[pc].queue| > max {
          max := |subscribers[pc].queue|;
        }
        todo := todo - {pc};
      }
      if max == 0 && subscribers != map[] {
        var pc :| pc in subscribers;
        assert |subscribers[pc].queue| == max;
      }
    }

    method ResetDropped()
      requires Valid()
      modifies this`subscribers
      ensures Valid() && Sum(Drops(subscribers)) == 0
      ensures subscribers == ResetOutside(old(subscribers), {})
      ensures subscribers.Keys == old(subscribers).Keys
      ensures forall pc :: pc in subscribers ==> subscribers[pc] == old(subscribers)[pc].(dropped := 0)
    {
      var todo := subscribers.Keys;
      ghost var before := subscribers;
      assert ResetOutside(before, todo) == before;
      while todo != {}
        invariant todo <= before.Keys && Valid()
        invariant subscribers == ResetOutside(before, todo)
        decreases |todo|
      {
        var pc :| pc in todo;
        ResetMore(before, todo, pc);
        ResetOne(pc);
        todo := todo - {pc};
      }
      NoDrops(subscribers);
    }

    method ResetOne(pc: Pc)
      requires Valid() && pc in subscribers
      modifies this`subscribers
      ensures Valid() && subscribers == old(subscribers)[pc := old(subscribers[pc]).(dropped := 0)]
    {
      SumsWith(subscribers, pc, subscribers[pc].(dropped := 0));
      subscribers := subscribers[pc := subscribers[pc].(dropped := 0)];
    }
  }

  ghost predicate Agree(p: Publisher, subs: map<Pc, Subscriber>) { forall pc :: pc in subs ==> Fits(p, subs[pc].mime) }

  lemma {:induction false} NoDrops(subs: map<Pc, Subscriber>)
    requires forall pc :: pc in subs ==> subs[pc].dropped == 0
    ensures Sum(Drops(subs)) == 0
    decreases |subs|
  {
    if subs != map[] {
      var pc :| pc in subs;
      SumsWithout(subs, pc);
      NoDrops(subs - {pc});
    } else {
      assert Drops(subs) == map[];
    }
  }
}
