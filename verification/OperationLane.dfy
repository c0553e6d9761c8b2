/** The lane that status checks and actions share: first come, first served, one holder at a time. */
module OperationLane {
  import opened Prelude

  datatype Kind = Status | Action

  /** `id` stands for the identifier that makes every lease distinct. */
  datatype Lease = Lease(id: nat, kind: Kind)

  datatype Lane = Lane(active: Option<Lease>, waiting: seq<Lease>)

  const IDLE := Lane(None, [])

  function Acquired(lane: Lane, lease: Lease): Lane {
    if lane.active.None? then lane.(active := Some(lease)) else lane.(waiting := lane.waiting + [lease])
  }

  function Released(lane: Lane, lease: Lease): Lane {
    if lane.active != Some(lease) then lane
    else if lane.waiting == [] then lane.(active := None)
    else Lane(Some(lane.waiting[0]), lane.waiting[1..])
  }

  class CompanionOperationQueue {
    var active: Option<Lease>
    var waiting: seq<Lease>
    var nextId: nat
    /** Every lease that was asked for, and every lease that was handed out, in order. */
    ghost var asked: seq<Lease>
    ghost var granted: seq<Lease>

    ghost predicate Valid()
      reads this
    {
      && Fair(Lane(active, waiting), asked, granted)
      && forall i :: 0 <= i < |asked| ==> asked[i].id < nextId
    }

    constructor ()
      ensures Valid() && active == None && waiting == [] && asked == [] && granted == []
    {
      active, waiting, nextId, asked, granted := None, [], 0, [], [];
    }

    /** `suspended` says that the caller waits until a release hands it the lease. */
    method Acquire(kind: Kind) returns (lease: Lease, suspended: bool)
      requires Valid()
      modifies this
      ensures Valid()
      ensures lease.kind == kind && lease !in old(asked) && asked == old(asked) + [lease]
      ensures Lane(active, waiting) == Acquired(old(Lane(active, waiting)), lease)
      ensures suspended == old(active.Some?)
      ensures granted == if suspended then old(granted) else old(granted) + [lease]
    {
      lease := Lease(nextId, kind);
      nextId := nextId + 1;
      AcquireIsFair(Lane(active, waiting), asked, granted, lease);
      asked := asked + [lease];
      suspended := active.Some?;
      if suspended {
        waiting := waiting + [lease];
      } else {
        active := Some(lease);
        granted := granted + [lease];
      }
    }

    method Release(lease: Lease) returns (released: bool)
      requires Valid()
      modifies this
      ensures Valid() && asked == old(asked)
      ensures released == (old(active) == Some(lease))
      ensures Lane(active, waiting) == Released(old(Lane(active, waiting)), lease)
      ensures granted == if released && old(waiting) != [] then old(granted) + [old(waiting)[0]] else old(granted)
      ensures !released ==> active == old(active) && waiting == old(waiting)
    {
      ReleaseIsFair(Lane(active, waiting), asked, granted, lease);
      if active != Some(lease) {
        return false;
      }
      if waiting == [] {
        active := None;
      } else {
        var next := waiting[0];
        waiting := waiting[1..];
        active := Some(next);
        granted := granted + [next];
      }
      return true;
    }
  }

  // ---------------------------------------------------------------------------------------------
  // Every run of calls is fair.
  // ---------------------------------------------------------------------------------------------

  predicate Distinct(leases: seq<Lease>) {
    forall i, j :: 0 <= i < j < |leases| ==> leases[i] != leases[j]
  }

  /**
   Leases are handed out exactly in the order in which they were asked for, each of them once; the
   holder is the last one handed out, and nobody waits for an idle lane.
   */
  predicate Fair(lane: Lane, asked: seq<Lease>, granted: seq<Lease>) {
    && Distinct(asked) && asked == granted + lane.waiting
    && (lane.active.None? ==> lane.waiting == [])
    && (lane.active.Some? ==> granted != [] && lane.active.value == granted[|granted| - 1])
  }

  /** The leases that a call hands out. */
  function GrantedByAcquire(lane: Lane, lease: Lease): seq<Lease> {
    if lane.active.None? then [lease] else []
  }

  function GrantedByRelease(lane: Lane, lease: Lease): seq<Lease> {
    if lane.active == Some(lease) && lane.waiting != [] then [lane.waiting[0]] else []
  }

  lemma AcquireIsFair(lane: Lane, asked: seq<Lease>, granted: seq<Lease>, lease: Lease)
    requires Fair(lane, asked, granted) && lease !in asked
    ensures Fair(Acquired(lane, lease), asked + [lease], granted + GrantedByAcquire(lane, lease))
  {
    assert (granted + lane.waiting) + [lease] == granted + (lane.waiting + [lease]);
  }

  lemma ReleaseIsFair(lane: Lane, asked: seq<Lease>, granted: seq<Lease>, lease: Lease)
    requires Fair(lane, asked, granted)
    ensures Fair(Released(lane, lease), asked, granted + GrantedByRelease(lane, lease))
  {
    if lane.active == Some(lease) && lane.waiting != [] {
      assert lane.waiting == [lane.waiting[0]] + lane.waiting[1..];
    }
  }

  datatype Call = Acquire(lease: Lease) | Release(lease: Lease)

  datatype Run = Run(lane: Lane, asked: seq<Lease>, granted: seq<Lease>)

  /** Any interleaving of calls; releases may repeat or name leases that are stale or never granted. */
  function Perform(calls: seq<Call>): Run {
    if calls == [] then Run(IDLE, [], [])
    else
      var before := Perform(calls[..|calls| - 1]);
      match calls[|calls| - 1]
      case Acquire(lease) =>
        Run(Acquired(before.lane, lease), before.asked + [lease],
            before.granted + GrantedByAcquire(before.lane, lease))
      case Release(lease) =>
        Run(Released(before.lane, lease), before.asked,
            before.granted + GrantedByRelease(before.lane, lease))
  }

  /** Every lease is new when it is asked for. */
  predicate FreshLeases(calls: seq<Call>) {
    forall i, j :: 0 <= i < j < |calls| && calls[i].Acquire? && calls[j].Acquire? ==> calls[i] != calls[j]
  }

  lemma {:induction false} AskedOf(calls: seq<Call>, lease: Lease)
    ensures lease in Perform(calls).asked <==> Acquire(lease) in calls
  {
    if calls != [] {
      var n := |calls| - 1;
      AskedOf(calls[..n], lease);
      assert calls == calls[..n] + [calls[n]];
    }
  }

  lemma {:induction false} EveryRunIsFair(calls: seq<Call>)
    requires FreshLeases(calls)
    ensures var run := Perform(calls); Fair(run.lane, run.asked, run.granted) && Distinct(run.granted)
  {
    if calls != [] {
      var n := |calls| - 1;
      var before := Perform(calls[..n]);
      EveryRunIsFair(calls[..n]);
      match calls[n]
      case Acquire(lease) =>
        AskedOf(calls[..n], lease);
        AcquireIsFair(before.lane, before.asked, before.granted, lease);
      case Release(lease) =>
        ReleaseIsFair(before.lane, before.asked, before.granted, lease);
    }
    var run := Perform(calls);
    assert forall i :: 0 <= i < |run.granted| ==> run.granted[i] == run.asked[i];
  }

  /** Once the holders that were asked for earlier have released, a lease is handed out. */
  lemma {:induction false} WaitersAreServed(lane: Lane, asked: seq<Lease>, granted: seq<Lease>, k: nat)
    returns (calls: seq<Lease>)
    requires Fair(lane, asked, granted) && k < |lane.waiting|
    ensures |calls| == k + 1 && calls <= [lane.active.value] + lane.waiting
    ensures ReleaseAll(lane, calls).active == Some(lane.waiting[k])
    decreases k
  {
    var holder := lane.active.value;
    var next := Released(lane, holder);
    ReleaseIsFair(lane, asked, granted, holder);
    if k == 0 {
      calls := [holder];
      assert ReleaseAll(lane, calls) == ReleaseAll(next, calls[1..]);
    } else {
      var others := WaitersAreServed(next, asked, granted + GrantedByRelease(lane, holder), k - 1);
      calls := [holder] + others;
      assert calls[1..] == others;
      assert lane.waiting == [lane.waiting[0]] + lane.waiting[1..];
    }
  }

  function ReleaseAll(lane: Lane, leases: seq<Lease>): Lane
    decreases |leases|
  {
    if leases == [] then lane else ReleaseAll(Released(lane, leases[0]), leases[1..])
  }
}
