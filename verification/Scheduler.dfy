/**
 * The engine's scan loop and its four workers. The loop marks pending operations busy and offers them to bounded
 * queues without blocking; workers take, process and unmark them. Every step below is atomic (a critical section or a
 * channel operation), and `Workers` lets any number of worker steps happen between two steps of the loop.
 */
module Scheduler {
  import opened Basics

  const WORKERS: nat := 2
  const LIVE_QUEUE: nat := 16
  const ABR_QUEUE: nat := 2

  function Offered(candidate: Option<Id>): seq<Id> {
    if candidate.Some? then [candidate.value] else []
  }

  /** The busy set is what is queued, running, or being offered, each exactly once. */
  predicate Balanced(busy: set<Id>, live: multiset<Id>, abr: multiset<Id>, candidate: Option<Id>) {
    multiset(busy) == live + abr + multiset(Offered(candidate))
  }

  lemma {:induction false} SetSize(s: set<Id>)
    ensures |multiset(s)| == |s|
  {
    if s != {} {
      var x :| x in s;
      SetSize(s - {x});
      assert multiset(s) == multiset(s - {x}) + multiset{x};
    }
  }

  /** The id is in one of the scans, among the live operations or among the ABR jobs. */
  predicate Scanned(id: Id, scans: seq<(seq<Id>, seq<Id>)>, live: bool) {
    exists m :: 0 <= m < |scans| && id in if live then scans[m].0 else scans[m].1
  }

  /** The ids of the scans, in order, of the live operations or of the ABR jobs. */
  function Listed(scans: seq<(seq<Id>, seq<Id>)>, live: bool): seq<Id> {
    if scans == [] then [] else
    var last := scans[|scans| - 1];
    Listed(scans[..|scans| - 1], live) + if live then last.0 else last.1
  }

  lemma ListedNone(scans: seq<(seq<Id>, seq<Id>)>)
    ensures Listed(scans[..0], true) == [] && Listed(scans[..0], false) == []
  {
  }

  lemma ListedNext(scans: seq<(seq<Id>, seq<Id>)>, n: nat)
    requires n < |scans|
    ensures Listed(scans[..n + 1], true) == Listed(scans[..n], true) + scans[n].0
    ensures Listed(scans[..n + 1], false) == Listed(scans[..n], false) + scans[n].1
  {
    assert scans[..n + 1][..n] == scans[..n];
  }

  /** The places an operation can be in, one after the other. */
  function Places(liveQueue: seq<Id>, liveRunning: seq<Id>, abrQueue: seq<Id>, abrRunning: seq<Id>,
                  candidate: Option<Id>): seq<Id> {
    liveQueue + liveRunning + abrQueue + abrRunning + Offered(candidate)
  }

  /** No operation is in two places, and at most 23 are in the engine at once. */
  lemma NowhereTwice(busy: set<Id>, liveQueue: seq<Id>, liveRunning: seq<Id>, abrQueue: seq<Id>, abrRunning: seq<Id>,
                     candidate: Option<Id>)
    requires Balanced(busy, multiset(liveQueue) + multiset(liveRunning), multiset(abrQueue) + multiset(abrRunning),
                      candidate)
    requires |liveQueue| <= LIVE_QUEUE && |abrQueue| <= ABR_QUEUE && |liveRunning| <= WORKERS && |abrRunning| <= WORKERS
    ensures var places := Places(liveQueue, liveRunning, abrQueue, abrRunning, candidate);
            && (forall i, j :: 0 <= i < j < |places| ==> places[i] != places[j])
            && (forall id :: id in busy <==> id in places)
            && |busy| == |places| <= 23
  {
    var places := Places(liveQueue, liveRunning, abrQueue, abrRunning, candidate);
    assert multiset(places) == multiset(busy);
    SetSize(busy);
    forall id ensures id in busy <==> id in places {
      assert id in places <==> id in multiset(places);
    }
    forall i, j | 0 <= i < j < |places| ensures places[i] != places[j] {
      if places[i] == places[j] {
        Twice(places, i, j);
      }
    }
  }

  lemma Twice(s: seq<Id>, i: nat, j: nat)
    requires i < j < |s| && s[i] == s[j]
    ensures multiset(s)[s[i]] >= 2
  {
    assert s == s[..j] + s[j..];
    assert s[i] == s[..j][i] && s[j] == s[j..][0];
    assert s[i] in multiset(s[..j]) && s[i] in multiset(s[j..]);
  }

  lemma Without(s: seq<Id>, i: nat)
    requires i < |s|
    ensures multiset(s[..i] + s[i + 1..]) == multiset(s) - multiset{s[i]}
  {
    assert s == s[..i] + [s[i]] + s[i + 1..];
  }

  lemma OneFewer(s: set<Id>, x: Id)
    ensures multiset(s - {x}) == multiset(s) - multiset{x}
  {
  }

  lemma Unmarked(busy: set<Id>, live: multiset<Id>, abr: multiset<Id>, candidate: Option<Id>, id: Id)
    requires Balanced(busy, live, abr, candidate) && id in live
    ensures Balanced(busy - {id}, live - multiset{id}, abr, candidate)
  {
    OneFewer(busy, id);
  }

  /** What becomes of the candidate: either lane takes it, or it is unmarked. */
  lemma Taken(busy: set<Id>, live: multiset<Id>, abr: multiset<Id>, id: Id)
    requires Balanced(busy, live, abr, Some(id))
    ensures Balanced(busy, live + multiset{id}, abr, None) && Balanced(busy, live, abr + multiset{id}, None)
    ensures Balanced(busy - {id}, live, abr, None)
  {
    assert id in multiset(Offered(Some(id)));
    OneFewer(busy, id);
  }

  lemma UnmarkedAbr(busy: set<Id>, live: multiset<Id>, abr: multiset<Id>, candidate: Option<Id>, id: Id)
    requires Balanced(busy, live, abr, candidate) && id in abr
    ensures Balanced(busy - {id}, live, abr - multiset{id}, candidate)
  {
    OneFewer(busy, id);
  }

  /** A bounded queue and the workers that receive from it. */
  class Lane {
    const capacity: nat
    var queue: seq<Id>
    var running: seq<Id>

    /** What the queue accepted and what workers took, in order; and what they finished. */
    ghost var accepted: seq<Id>
    ghost var taken: seq<Id>
    ghost var finished: multiset<Id>

    ghost predicate Valid()
      reads this
    {
      && |queue| <= capacity && |running| <= WORKERS
      && accepted == taken + queue
      && multiset(taken) == finished + multiset(running)
    }

    ghost function Holds(): multiset<Id>
      reads this
    {
      multiset(queue) + multiset(running)
    }

    constructor (capacity: nat)
      ensures Valid() && this.capacity == capacity && queue == [] && running == [] && accepted == []
    {
      this.capacity := capacity;
      queue, running := [], [];
      accepted, taken, finished := [], [], multiset{};
    }

    /** A send that does not block. */
    method Send(id: Id) returns (sent: bool)
      requires Valid()
      modifies this
      ensures Valid() && sent == (|old(queue)| < capacity)
      ensures queue == if sent then old(queue) + [id] else old(queue)
      ensures accepted == if sent then old(accepted) + [id] else old(accepted)
      ensures Holds() == if sent then old(Holds()) + multiset{id} else old(Holds())
      ensures running == old(running) && finished == old(finished)
    {
      sent := |queue| < capacity;
      if sent {
        queue := queue + [id];
        accepted := accepted + [id];
      }
    }

    /** A free worker receives the oldest queued id. */
    method Take()
      requires Valid() && queue != [] && |running| < WORKERS
      modifies this
      ensures Valid() && queue == old(queue)[1..] && running == old(running) + [old(queue)[0]]
      ensures Holds() == old(Holds()) && accepted == old(accepted) && finished == old(finished)
    {
      var id := queue[0];
      assert queue == [id] + queue[1..];
      queue := queue[1..];
      running := running + [id];
      taken := taken + [id];
    }

    /** A worker is done with its id. */
    method Finish(i: nat) returns (id: Id)
      requires Valid() && i < |running|
      modifies this
      ensures Valid() && id == old(running)[i] && queue == old(queue)
      ensures running == old(running)[..i] + old(running)[i + 1..]
      ensures id in old(Holds()) && Holds() == old(Holds()) - multiset{id}
      ensures accepted == old(accepted) && finished == old(finished) + multiset{id}
    {
      id := running[i];
      Without(running, i);
      assert id in multiset(running);
      running := running[..i] + running[i + 1..];
      finished := finished + multiset{id};
    }
  }

  function Elements(s: seq<Id>): set<Id> {
    set id | id in s
  }

  lemma NoElements(s: seq<Id>)
    ensures Elements(s[|s|..]) == {}
  {
  }

  lemma AllElements(s: seq<Id>)
    ensures forall i :: 0 <= i < |s| ==> s[i] in Elements(s)
  {
  }

  lemma ElementsGrow(s: seq<Id>, id: Id, n: nat)
    requires n <= |s|
    ensures Elements((s + [id])[n..]) == Elements(s[n..]) + {id}
  {
    assert (s + [id])[n..] == s[n..] + [id];
  }

  class Engine {
    const live: Lane
    const abr: Lane
    var busy: set<Id>
    var candidate: Option<Id>

    /** The ids offered to each lane, in order. */
    ghost var offeredLive: seq<Id>
    ghost var offeredAbr: seq<Id>

    ghost predicate Valid()
      reads this`busy, this`candidate, live, abr
    {
      && live != abr && live.Valid() && abr.Valid() && live.capacity == LIVE_QUEUE && abr.capacity == ABR_QUEUE
      && Balanced(busy, live.Holds(), abr.Holds(), candidate)
    }

    ghost predicate Mine(lane: Lane) {
      lane == live || lane == abr
    }

    constructor ()
      ensures Valid() && fresh(live) && fresh(abr) && busy == {} && candidate.None?
      ensures live.accepted == [] && abr.accepted == []
    {
      live := new Lane(LIVE_QUEUE);
      abr := new Lane(ABR_QUEUE);
      busy := {};
      candidate := None;
      offeredLive, offeredAbr := [], [];
    }

    ghost function OfferedTo(lane: Lane): seq<Id>
      reads this`offeredLive, this`offeredAbr
    {
      if lane == live then offeredLive else offeredAbr
    }

    /** A worker unmarks its id: only now may the id be offered again. */
    method Done(lane: Lane, i: nat)
      requires Valid() && Mine(lane) && i < |lane.running|
      modifies this`busy, lane
      ensures Valid() && busy == old(busy) - {old(lane.running)[i]}
      ensures lane.queue == old(lane.queue) && lane.running == old(lane.running)[..i] + old(lane.running)[i + 1..]
      ensures |lane.running| == |old(lane.running)| - 1 && lane.accepted == old(lane.accepted)
    {
      hide Balanced, Lane.Holds, Lane.Valid;
      ghost var before, other := lane.Holds(), if lane == live then abr.Holds() else live.Holds();
      var id := lane.Finish(i);
      if lane == live {
        Unmarked(busy, before, other, candidate, id);
      } else {
        UnmarkedAbr(busy, other, before, candidate, id);
      }
      busy := busy - {id};
    }

    /** Any number of worker steps. */
    method Workers()
      requires Valid()
      modifies this`busy, live, abr
      ensures Valid() && busy <= old(busy)
      ensures live.accepted == old(live.accepted) && abr.accepted == old(abr.accepted)
      ensures |live.queue| <= |old(live.queue)| && |abr.queue| <= |old(abr.queue)|
    {
      var steps: nat := *;
      while steps > 0
        invariant Valid() && busy <= old(busy)
        invariant live.accepted == old(live.accepted) && abr.accepted == old(abr.accepted)
        invariant |live.queue| <= |old(live.queue)| && |abr.queue| <= |old(abr.queue)|
      {
        var isLive: bool := *;
        var lane := if isLive then live else abr;
        var i: nat := *;
        if i < |lane.running| {
          Done(lane, i);
        } else if lane.queue != [] && |lane.running| < WORKERS {
          lane.Take();
        }
        steps := steps - 1;
      }
    }

    /** Marks the id busy unless it already is. */
    method Mark(id: Id) returns (free: bool)
      requires Valid() && candidate.None?
      modifies this`busy, this`candidate
      ensures Valid() && free == (id !in old(busy)) && busy == old(busy) + {id}
      ensures candidate == if free then Some(id) else None
    {
      free := id !in busy;
      if free {
        assert multiset(busy + {id}) == multiset(busy) + multiset{id};
        busy := busy + {id};
        candidate := Some(id);
      }
    }

    /** Offers the candidate without blocking: a full queue leaves it unmarked, for a later scan. */
    method Offer(lane: Lane) returns (sent: bool)
      requires Valid() && Mine(lane) && candidate.Some?
      modifies this`busy, this`candidate, lane
      ensures Valid() && candidate.None? && sent == (|old(lane.queue)| < lane.capacity)
      ensures busy == if sent then old(busy) else old(busy) - {old(candidate).value}
      ensures lane.accepted == if sent then old(lane.accepted) + [old(candidate).value] else old(lane.accepted)
      ensures |lane.queue| <= |old(lane.queue)| + 1
    {
      hide Balanced, Lane.Holds, Lane.Valid;
      var id := candidate.value;
      Taken(busy, live.Holds(), abr.Holds(), id);
      sent := lane.Send(id);
      if !sent {
        busy := busy - {id};
      }
      candidate := None;
    }

    /** The part of the lane's history since it had accepted `n` ids. */
    ghost function Since(lane: Lane, n: nat): set<Id>
      reads lane
      requires n <= |lane.accepted|
    {
      Elements(lane.accepted[n..])
    }

    /**
     * Offers one lane's pending ids, in order; workers run meanwhile. The lane accepts only those ids, and all of them
     * that were not busy when it has room for all.
     */
    method Scan(lane: Lane, ids: seq<Id>)
      requires Valid() && Mine(lane) && candidate.None?
      modifies this, live, abr
      ensures Valid() && candidate.None?
      ensures old(lane.accepted) <= lane.accepted
      ensures Since(lane, |old(lane.accepted)|) <= Elements(ids)
      ensures |old(lane.queue)| + |ids| <= lane.capacity ==>
                forall id :: id in ids ==> id in old(busy) || id in Since(lane, |old(lane.accepted)|)
      ensures OfferedTo(lane) == old(OfferedTo(lane)) + ids
      ensures forall other :: Mine(other) && other != lane ==>
                other.accepted == old(other.accepted) && OfferedTo(other) == old(OfferedTo(other))
    {
      hide Balanced, Elements, Lane.Holds, Lane.Valid;
      NoElements(lane.accepted);
      AllElements(ids);
      var i := 0;
      while i < |ids|
        invariant 0 <= i <= |ids| && Valid() && candidate.None?
        invariant old(lane.accepted) <= lane.accepted
        invariant |lane.queue| <= |old(lane.queue)| + i
        invariant busy <= old(busy) + Since(lane, |old(lane.accepted)|)
        invariant Since(lane, |old(lane.accepted)|) <= Elements(ids)
        invariant |old(lane.queue)| + |ids| <= lane.capacity ==>
                    forall j :: 0 <= j < i ==> ids[j] in old(busy) || ids[j] in Since(lane, |old(lane.accepted)|)
        invariant OfferedTo(lane) == old(OfferedTo(lane)) + ids[..i]
        invariant forall other :: Mine(other) && other != lane ==>
                    other.accepted == old(other.accepted) && OfferedTo(other) == old(OfferedTo(other))
      {
        ScanOne(lane, ids[i], |old(lane.accepted)|);
        i := i + 1;
      }
    }

    /** One turn of the scan. */
    method ScanOne(lane: Lane, id: Id, ghost n: nat)
      requires Valid() && Mine(lane) && candidate.None? && n <= |lane.accepted|
      modifies this, live, abr
      ensures Valid() && candidate.None?
      ensures old(lane.accepted) <= lane.accepted && |lane.queue| <= |old(lane.queue)| + 1
      ensures Since(lane, n) == old(Since(lane, n)) || Since(lane, n) == old(Since(lane, n)) + {id}
      ensures busy <= old(busy) + Since(lane, n)
      ensures id in old(busy) || id in Since(lane, n) || |old(lane.queue)| >= lane.capacity
      ensures OfferedTo(lane) == old(OfferedTo(lane)) + [id]
      ensures forall other :: Mine(other) && other != lane ==>
                other.accepted == old(other.accepted) && OfferedTo(other) == old(OfferedTo(other))
    {
      hide Balanced, Elements, Lane.Holds, Lane.Valid;
      if lane == live {
        offeredLive := offeredLive + [id];
      } else {
        offeredAbr := offeredAbr + [id];
      }
      Workers();
      var free := Mark(id);
      if free {
        Workers();
        ElementsGrow(lane.accepted, id, n);
        var sent := Offer(lane);
      }
    }

    lemma FromScan(lane: Lane, n: nat, ids: seq<Id>)
      requires n <= |lane.accepted| && Since(lane, n) <= Elements(ids)
      ensures forall k :: n <= k < |lane.accepted| ==> lane.accepted[k] in ids
    {
      forall k | n <= k < |lane.accepted| ensures lane.accepted[k] in ids {
        assert lane.accepted[n..][k - n] == lane.accepted[k];
        assert lane.accepted[k] in Since(lane, n);
      }
    }

    /** After the queue closes, its workers empty it and finish what they hold. */
    method Drain(lane: Lane)
      requires Valid() && Mine(lane) && candidate.None?
      modifies this`busy, lane
      ensures Valid() && lane.queue == [] && lane.running == [] && multiset(lane.accepted) == lane.finished
      ensures lane.accepted == old(lane.accepted)
    {
      while lane.queue != [] || lane.running != []
        invariant Valid() && lane.accepted == old(lane.accepted)
        decreases |lane.queue|, |lane.running|
      {
        var i: nat := *;
        if i < |lane.running| {
          Done(lane, i);
        } else if lane.queue != [] && |lane.running| < WORKERS {
          label took: lane.Take();
          assert |lane.queue| == |old@took(lane.queue)| - 1;
        } else {
          Done(lane, 0);
        }
      }
      assert lane.accepted == lane.taken;
    }

    /** Every id a lane accepted since `n` was scanned for it: for the live lane or for the other. */
    ghost predicate FromScans(lane: Lane, n: nat, scans: seq<(seq<Id>, seq<Id>)>)
      reads this, lane
    {
      n <= |lane.accepted| && forall k :: n <= k < |lane.accepted| ==> Scanned(lane.accepted[k], scans, lane == live)
    }

    /** Scans, one after the other, each for the live lane first. */
    method ScanAll(scans: seq<(seq<Id>, seq<Id>)>)
      requires Valid() && candidate.None?
      modifies this, live, abr
      ensures Valid() && candidate.None?
      ensures old(live.accepted) <= live.accepted && old(abr.accepted) <= abr.accepted
      ensures offeredLive == old(offeredLive) + Listed(scans, true)
      ensures offeredAbr == old(offeredAbr) + Listed(scans, false)
      ensures FromScans(live, |old(live.accepted)|, scans) && FromScans(abr, |old(abr.accepted)|, scans)
    {
      hide Valid, Listed, Scanned;
      ListedNone(scans);
      var n := 0;
      while n < |scans|
        invariant 0 <= n <= |scans| && Valid() && candidate.None?
        invariant old(live.accepted) <= live.accepted && old(abr.accepted) <= abr.accepted
        invariant FromScans(live, |old(live.accepted)|, scans) && FromScans(abr, |old(abr.accepted)|, scans)
        invariant offeredLive == old(offeredLive) + Listed(scans[..n], true)
        invariant offeredAbr == old(offeredAbr) + Listed(scans[..n], false)
      {
        ScanBoth(scans, n, |old(live.accepted)|, |old(abr.accepted)|);
        ListedNext(scans, n);
        n := n + 1;
      }
      assert scans[..n] == scans;
    }

    /** The `m`-th scan: the live lane's part, then the other's. */
    method ScanBoth(scans: seq<(seq<Id>, seq<Id>)>, m: nat, ghost l: nat, ghost a: nat)
      requires Valid() && candidate.None? && m < |scans| && FromScans(live, l, scans) && FromScans(abr, a, scans)
      modifies this, live, abr
      ensures Valid() && candidate.None?
      ensures old(live.accepted) <= live.accepted && old(abr.accepted) <= abr.accepted
      ensures FromScans(live, l, scans) && FromScans(abr, a, scans)
      ensures offeredLive == old(offeredLive) + scans[m].0 && offeredAbr == old(offeredAbr) + scans[m].1
    {
      hide Balanced, Elements, Lane.Holds, Lane.Valid, Scanned, Listed;
      ScanLane(live, scans, m, l);
      ScanLane(abr, scans, m, a);
      Workers();
    }

    /** One lane's part of the `m`-th scan. */
    method ScanLane(lane: Lane, scans: seq<(seq<Id>, seq<Id>)>, m: nat, ghost n: nat)
      requires Valid() && Mine(lane) && candidate.None? && m < |scans| && FromScans(lane, n, scans)
      modifies this, live, abr
      ensures Valid() && candidate.None? && old(lane.accepted) <= lane.accepted
      ensures FromScans(lane, n, scans)
      ensures OfferedTo(lane) == old(OfferedTo(lane)) + if lane == live then scans[m].0 else scans[m].1
      ensures forall other :: Mine(other) && other != lane ==>
                other.accepted == old(other.accepted) && OfferedTo(other) == old(OfferedTo(other))
    {
      hide Balanced, Elements, Lane.Holds, Lane.Valid;
      var ids := if lane == live then scans[m].0 else scans[m].1;
      Scan(lane, ids);
      FromScan(lane, |old(lane.accepted)|, ids);
    }

    /**
     * Scans until shutdown, then closes the queues and waits. A lane accepts only ids scanned for it. When it returns,
     * every id a queue ever accepted has been processed as often as it was accepted, and nothing is left marked busy.
     */
    method Run(scans: seq<(seq<Id>, seq<Id>)>)
      requires Valid() && candidate.None?
      modifies this, live, abr
      ensures Valid() && busy == {} && candidate.None?
      ensures live.queue == [] && live.running == [] && multiset(live.accepted) == live.finished
      ensures abr.queue == [] && abr.running == [] && multiset(abr.accepted) == abr.finished
      ensures old(live.accepted) <= live.accepted && old(abr.accepted) <= abr.accepted
      ensures offeredLive == old(offeredLive) + Listed(scans, true)
      ensures offeredAbr == old(offeredAbr) + Listed(scans, false)
      ensures forall k :: |old(live.accepted)| <= k < |live.accepted| ==> Scanned(live.accepted[k], scans, true)
      ensures forall k :: |old(abr.accepted)| <= k < |abr.accepted| ==> Scanned(abr.accepted[k], scans, false)
    {
      ScanAll(scans);
      Drain(live);
      Drain(abr);
      assert multiset(busy) == multiset{};
      forall id ensures id !in busy { assert multiset(busy)[id] == 0; }
    }
  }
}
