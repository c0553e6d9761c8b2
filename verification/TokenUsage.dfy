/**
 The token ledger of a provider: an accumulator of observed requests, and the validator of its records,
 which accepts what the accumulator can reach.
 */
module TokenUsage {
  import opened Prelude

  /** The largest integer that the publisher can represent exactly. */
  const MAX_COUNT := 9007199254740991

  datatype Counts = Counts(inputTokens: int, outputTokens: int, totalTokens: int)

  function Zero(): Counts {
    Counts(0, 0, 0)
  }

  predicate IsCount(n: int) {
    0 <= n <= MAX_COUNT
  }

  predicate IsCounts(c: Counts) {
    && IsCount(c.inputTokens) && IsCount(c.outputTokens) && IsCount(c.totalTokens)
    && c.totalTokens == c.inputTokens + c.outputTokens
  }

  /** Counts, unless there are none. */
  datatype Measure = Unmeasured | Measured(counts: Counts)

  /** `last` is `Unmeasured` when the latest request had no counts, `totals` after an overflow. */
  datatype Ledger = Ledger(requests: int, unavailable: int, last: Measure, totals: Measure)

  // ---------------------------------------------------------------------------------------------
  // The accumulator.
  // ---------------------------------------------------------------------------------------------

  datatype Event = Record(observation: Measure) | Reset

  function Empty(): Ledger {
    Ledger(0, 0, Unmeasured, Measured(Zero()))
  }

  function Plus(a: Counts, b: Counts): Counts {
    Counts(a.inputTokens + b.inputTokens, a.outputTokens + b.outputTokens, a.totalTokens + b.totalTokens)
  }

  /** An overflow stays until the next reset. */
  function AddTotals(totals: Measure, c: Counts): Measure {
    if totals.Unmeasured? || Plus(totals.counts, c).totalTokens > MAX_COUNT then Unmeasured
    else Measured(Plus(totals.counts, c))
  }

  /** A reset clears the counts and keeps the latest observation. */
  function Step(l: Ledger, event: Event): Ledger {
    match event
    case Record(Unmeasured) => Ledger(l.requests + 1, l.unavailable + 1, Unmeasured, l.totals)
    case Record(Measured(c)) => Ledger(l.requests + 1, l.unavailable, Measured(c), AddTotals(l.totals, c))
    case Reset => Ledger(0, 0, l.last, Measured(Zero()))
  }

  function Replay(events: seq<Event>): Ledger {
    if events == [] then Empty() else Step(Replay(events[..|events| - 1]), events[|events| - 1])
  }

  /** A provider enters the ledger with its first request; observed counts are valid. */
  predicate IsHistory(events: seq<Event>) {
    && events != [] && events[0].Record?
    && forall i :: 0 <= i < |events| && events[i].Record? && events[i].observation.Measured? ==>
         IsCounts(events[i].observation.counts)
  }

  /** A request beyond the largest count is not recorded at all. */
  predicate Admitted(events: seq<Event>) {
    forall i :: 0 <= i < |events| && events[i].Record? ==> Replay(events[..i]).requests < MAX_COUNT
  }

  predicate HasNoReset(events: seq<Event>) {
    forall i :: 0 <= i < |events| ==> events[i].Record?
  }

  /** What was observed since the last reset, added up without any bound. */
  function Sum(events: seq<Event>): Counts {
    if events == [] then Zero()
    else
      var before := Sum(events[..|events| - 1]);
      match events[|events| - 1]
      case Record(Unmeasured) => before
      case Record(Measured(c)) => Plus(before, c)
      case Reset => Zero()
  }

  // ---------------------------------------------------------------------------------------------
  // The validator.
  // ---------------------------------------------------------------------------------------------

  function Known(l: Ledger): int {
    l.requests - l.unavailable
  }

  predicate TotalsFit(l: Ledger, schema: int) {
    l.totals.Measured? ==>
      && IsCounts(l.totals.counts)
      && ((schema == 1 || l.requests > 0) && l.last.Measured? ==>
            && l.totals.counts.inputTokens >= l.last.counts.inputTokens
            && l.totals.counts.outputTokens >= l.last.counts.outputTokens
            && (Known(l) == 1 ==> l.totals.counts == l.last.counts))
      && (l.requests == l.unavailable ==> l.totals.counts.totalTokens == 0)
  }

  /** The checks on one provider's record, for schema 1 or 2. */
  predicate Accepted(l: Ledger, schema: int) {
    && (l.last.Measured? ==> IsCounts(l.last.counts))
    && IsCount(l.requests) && l.requests >= (if schema == 1 then 1 else 0)
    && IsCount(l.unavailable) && l.unavailable <= l.requests
    && (l.totals.Measured? || Known(l) >= 2)
    && (|| (schema == 2 && l.requests == 0)
        || (if l.last.Measured? then l.requests > l.unavailable else l.unavailable >= 1))
    && TotalsFit(l, schema)
  }

  function DisplayTotals(l: Ledger): Measure {
    if l.requests == 0 || l.requests > l.unavailable then l.totals else Unmeasured
  }

  // ---------------------------------------------------------------------------------------------
  // What the accumulator reaches is accepted.
  // ---------------------------------------------------------------------------------------------

  predicate IsSum(c: Counts) {
    c.inputTokens >= 0 && c.outputTokens >= 0 && c.totalTokens == c.inputTokens + c.outputTokens
  }

  /** The totals are the sum, unless it is too large. */
  predicate TotalsInv(l: Ledger, sum: Counts) {
    && IsSum(sum) && (l.totals.Measured? <==> sum.totalTokens <= MAX_COUNT)
    && (l.totals.Measured? ==> l.totals.counts == sum)
  }

  /** The latest request is one of those that are counted. */
  predicate LatestInv(l: Ledger) {
    && 0 <= l.unavailable <= l.requests && (l.last.Measured? ==> IsCounts(l.last.counts))
    && (l.requests > 0 ==> if l.last.Measured? then Known(l) >= 1 else l.unavailable >= 1)
  }

  /** What few known requests say about the sum. */
  predicate FewInv(l: Ledger, sum: Counts) {
    && (Known(l) <= 0 ==> sum.totalTokens == 0)
    && (Known(l) <= 1 ==> sum.totalTokens <= MAX_COUNT)
    && (l.requests > 0 && l.last.Measured? ==>
          && sum.inputTokens >= l.last.counts.inputTokens && sum.outputTokens >= l.last.counts.outputTokens
          && (Known(l) <= 1 ==>
                sum.inputTokens == l.last.counts.inputTokens && sum.outputTokens == l.last.counts.outputTokens))
  }

  /** What every history maintains, with the unbounded sum beside the ledger. */
  predicate Inv(l: Ledger, sum: Counts) {
    TotalsInv(l, sum) && LatestInv(l) && FewInv(l, sum)
  }

  lemma UnknownKeepsInv(l: Ledger, sum: Counts)
    requires Inv(l, sum)
    ensures Inv(Step(l, Record(Unmeasured)), sum)
  {
  }

  lemma KnownKeepsTotals(l: Ledger, sum: Counts, c: Counts)
    requires TotalsInv(l, sum) && IsCounts(c)
    ensures TotalsInv(Step(l, Record(Measured(c))), Plus(sum, c))
  {
  }

  lemma KnownKeepsFew(l: Ledger, sum: Counts, c: Counts)
    requires IsSum(sum) && LatestInv(l) && FewInv(l, sum) && IsCounts(c)
    ensures var t := Step(l, Record(Measured(c))); LatestInv(t) && FewInv(t, Plus(sum, c))
  {
  }

  lemma ResetKeepsInv(l: Ledger)
    requires l.last.Measured? ==> IsCounts(l.last.counts)
    ensures Inv(Step(l, Reset), Zero())
  {
  }

  lemma {:induction false} HistoryInv(events: seq<Event>)
    requires events == [] || IsHistory(events)
    ensures Inv(Replay(events), Sum(events))
    decreases |events|
  {
    if events != [] {
      var before := events[..|events| - 1];
      HistoryInv(before);
      match events[|events| - 1]
      case Record(Unmeasured) => UnknownKeepsInv(Replay(before), Sum(before));
      case Record(Measured(c)) =>
        KnownKeepsTotals(Replay(before), Sum(before), c);
        KnownKeepsFew(Replay(before), Sum(before), c);
      case Reset => ResetKeepsInv(Replay(before));
    }
  }

  /** Totals are the exact sum of the known observations since the last reset, or it is not representable. */
  lemma {:induction false} TotalsAreTheSum(events: seq<Event>)
    requires IsHistory(events)
    ensures Replay(events).totals == if Sum(events).totalTokens <= MAX_COUNT then Measured(Sum(events)) else Unmeasured
  {
    HistoryInv(events);
  }

  lemma {:induction false} NoResetCounts(events: seq<Event>)
    requires HasNoReset(events)
    ensures Replay(events).requests == |events|
  {
    if events != [] {
      NoResetCounts(events[..|events| - 1]);
    }
  }

  lemma AdmittedIsBounded(events: seq<Event>)
    requires Admitted(events)
    ensures Replay(events).requests <= MAX_COUNT
  {
    if events != [] {
      var n := |events| - 1;
      assert events[n].Record? ==> Replay(events[..n]).requests < MAX_COUNT;
    }
  }

  /** Whatever is recorded and reset, the ledger passes the checks; without a reset, also those of schema 1. */
  lemma ReachableIsAccepted(events: seq<Event>)
    requires IsHistory(events) && Admitted(events)
    ensures Accepted(Replay(events), 2)
    ensures HasNoReset(events) ==> Accepted(Replay(events), 1)
  {
    HistoryInv(events);
    AdmittedIsBounded(events);
    if HasNoReset(events) {
      NoResetCounts(events);
    }
  }

  // ---------------------------------------------------------------------------------------------
  // What is accepted is reached.
  // ---------------------------------------------------------------------------------------------

  function Repeat(event: Event, n: nat): seq<Event> {
    if n == 0 then [] else Repeat(event, n - 1) + [event]
  }

  lemma ReplayNext(events: seq<Event>, event: Event)
    ensures Replay(events + [event]) == Step(Replay(events), event)
  {
    assert (events + [event])[..|events|] == events;
  }

  lemma RepeatNext(events: seq<Event>, event: Event, n: nat)
    requires n > 0
    ensures events + Repeat(event, n) == (events + Repeat(event, n - 1)) + [event]
  {
  }

  lemma {:induction false} ReplayUnknown(events: seq<Event>, n: nat)
    ensures var l, m := Replay(events), Replay(events + Repeat(Record(Unmeasured), n));
            && m.requests == l.requests + n && m.unavailable == l.unavailable + n && m.totals == l.totals
            && (n == 0 ==> m.last == l.last) && (n > 0 ==> m.last == Unmeasured)
  {
    if n == 0 {
      assert events + [] == events;
    } else {
      ReplayUnknown(events, n - 1);
      RepeatNext(events, Record(Unmeasured), n);
      ReplayNext(events + Repeat(Record(Unmeasured), n - 1), Record(Unmeasured));
    }
  }

  lemma {:induction false} ReplayZeros(events: seq<Event>, n: nat)
    requires Replay(events).totals.Measured? ==> Replay(events).totals.counts.totalTokens <= MAX_COUNT
    ensures var l, m := Replay(events), Replay(events + Repeat(Record(Measured(Zero())), n));
            && m.requests == l.requests + n && m.unavailable == l.unavailable && m.totals == l.totals
            && (n == 0 ==> m.last == l.last)
  {
    if n == 0 {
      assert events + [] == events;
    } else {
      ReplayZeros(events, n - 1);
      RepeatNext(events, Record(Measured(Zero())), n);
      ReplayNext(events + Repeat(Record(Measured(Zero())), n - 1), Record(Measured(Zero())));
    }
  }

  predicate AreValid(events: seq<Event>) {
    forall i :: 0 <= i < |events| ==>
      events[i].Record? && (events[i].observation.Measured? ==> IsCounts(events[i].observation.counts))
  }

  lemma {:induction false} RepeatIsValid(event: Event, n: nat)
    requires AreValid([event])
    ensures AreValid(Repeat(event, n)) && |Repeat(event, n)| == n
  {
    if n > 0 {
      RepeatIsValid(event, n - 1);
      assert [event][0] == event;
    }
  }

  lemma ValidAppend(a: seq<Event>, b: seq<Event>)
    requires AreValid(a) && AreValid(b)
    ensures AreValid(a + b)
  {
  }

  /** `first`, then zeros, then requests without counts. */
  function Filled(first: seq<Event>, zeros: nat, unknown: nat): seq<Event> {
    first + Repeat(Record(Measured(Zero())), zeros) + Repeat(Record(Unmeasured), unknown)
  }

  lemma ReplayFilled(first: seq<Event>, zeros: nat, unknown: nat)
    requires AreValid(first)
    requires Replay(first).totals.Measured? ==> Replay(first).totals.counts.totalTokens <= MAX_COUNT
    ensures AreValid(Filled(first, zeros, unknown))
    ensures |Filled(first, zeros, unknown)| == |first| + zeros + unknown
    ensures var l, m := Replay(first), Replay(Filled(first, zeros, unknown));
            && m.requests == l.requests + zeros + unknown && m.unavailable == l.unavailable + unknown
            && m.totals == l.totals && (unknown > 0 ==> m.last == Unmeasured)
            && (unknown == zeros == 0 ==> m.last == l.last)
  {
    ReplayZeros(first, zeros);
    ReplayUnknown(first + Repeat(Record(Measured(Zero())), zeros), unknown);
    RepeatIsValid(Record(Measured(Zero())), zeros);
    RepeatIsValid(Record(Unmeasured), unknown);
    ValidAppend(first, Repeat(Record(Measured(Zero())), zeros));
    ValidAppend(first + Repeat(Record(Measured(Zero())), zeros), Repeat(Record(Unmeasured), unknown));
  }

  lemma ReplayOne(c: Counts)
    requires IsCounts(c)
    ensures AreValid([Record(Measured(c))]) && Replay([Record(Measured(c))]) == Ledger(1, 0, Measured(c), Measured(c))
  {
    ReplayNext([], Record(Measured(c)));
    assert [] + [Record(Measured(c))] == [Record(Measured(c))];
  }

  lemma ReplayNone()
    ensures Replay([]) == Empty() && AreValid([])
  {
  }

  /** The latest request had no counts. */
  lemma ReachUnknown(l: Ledger) returns (events: seq<Event>)
    requires Accepted(l, 1) && l.last.Unmeasured? && l.totals.Measured?
    ensures AreValid(events) && Replay(events) == l
  {
    if Known(l) == 0 {
      ReplayNone();
      ReplayFilled([], 0, l.unavailable);
      events := Filled([], 0, l.unavailable);
    } else {
      var first := [Record(Measured(l.totals.counts))];
      ReplayOne(l.totals.counts);
      ReplayFilled(first, Known(l) - 1, l.unavailable);
      events := Filled(first, Known(l) - 1, l.unavailable);
    }
  }

  function Minus(a: Counts, b: Counts): Counts {
    Counts(a.inputTokens - b.inputTokens, a.outputTokens - b.outputTokens, a.totalTokens - b.totalTokens)
  }

  lemma EndWith(events: seq<Event>, c: Counts)
    requires AreValid(events) && IsCounts(c)
    ensures AreValid(events + [Record(Measured(c))])
    ensures Replay(events + [Record(Measured(c))])
         == Ledger(Replay(events).requests + 1, Replay(events).unavailable, Measured(c),
                   AddTotals(Replay(events).totals, c))
  {
    ReplayNext(events, Record(Measured(c)));
  }

  /** The latest request had counts. */
  lemma ReachKnown(l: Ledger) returns (events: seq<Event>)
    requires Accepted(l, 1) && l.last.Measured? && l.totals.Measured?
    ensures AreValid(events) && Replay(events) == l
  {
    var latest := l.last.counts;
    if Known(l) == 1 {
      ReplayNone();
      ReplayFilled([], 0, l.unavailable);
      events := Filled([], 0, l.unavailable);
    } else {
      var rest := Minus(l.totals.counts, latest);
      ReplayOne(rest);
      ReplayFilled([Record(Measured(rest))], Known(l) - 2, l.unavailable);
      events := Filled([Record(Measured(rest))], Known(l) - 2, l.unavailable);
    }
    EndWith(events, latest);
    events := events + [Record(Measured(latest))];
  }

  lemma ValidIsHistory(events: seq<Event>)
    requires AreValid(events) && 0 < Replay(events).requests <= MAX_COUNT
    ensures IsHistory(events) && HasNoReset(events) && Admitted(events)
  {
    NoResetCounts(events);
    forall i | 0 <= i < |events| ensures Replay(events[..i]).requests < MAX_COUNT {
      NoResetCounts(events[..i]);
    }
  }

  /** A record of schema 1 with totals is reached without a reset. */
  lemma AcceptedIsReachable1(l: Ledger) returns (events: seq<Event>)
    requires Accepted(l, 1) && l.totals.Measured?
    ensures IsHistory(events) && HasNoReset(events) && Admitted(events) && Replay(events) == l
  {
    if l.last.Unmeasured? {
      events := ReachUnknown(l);
    } else {
      events := ReachKnown(l);
    }
    ValidIsHistory(events);
  }

  /** A record of schema 2 with totals is reached. */
  lemma AcceptedIsReachable2(l: Ledger) returns (events: seq<Event>)
    requires Accepted(l, 2) && l.totals.Measured?
    ensures IsHistory(events) && Admitted(events) && Replay(events) == l
  {
    if l.requests > 0 {
      events := AcceptedIsReachable1(l);
    } else {
      events := [Record(l.last)];
      ReplayNext([], Record(l.last));
      assert [] + [Record(l.last)] == events;
      ReplayNext(events, Reset);
      assert events[..0] == [] && Replay([]) == Empty();
      events := events + [Reset];
      assert events[..0] == [];
    }
  }

  /** The accepted records without totals that no run produces: an empty latest request after only one other. */
  predicate Impossible(l: Ledger) {
    l.totals.Unmeasured? && Known(l) == 2 && l.last.Measured? && l.last.counts.totalTokens == 0
  }

  function Full(): Counts {
    Counts(MAX_COUNT, 0, MAX_COUNT)
  }

  /** Two observations that do not add up. */
  function Pair(a: Counts, b: Counts): seq<Event> {
    [Record(Measured(a))] + [Record(Measured(b))]
  }

  lemma Overflowing(a: Counts, b: Counts)
    requires IsCounts(a) && IsCounts(b) && a.totalTokens + b.totalTokens > MAX_COUNT
    ensures AreValid(Pair(a, b)) && |Pair(a, b)| == 2 && Replay(Pair(a, b)) == Ledger(2, 0, Measured(b), Unmeasured)
  {
    ReplayOne(a);
    EndWith([Record(Measured(a))], b);
  }

  /** The overflow happens before the latest request. */
  lemma OverflowBefore(l: Ledger, full: Counts) returns (events: seq<Event>)
    requires Accepted(l, 1) && l.totals.Unmeasured? && (l.last.Unmeasured? || Known(l) > 2)
    requires IsCounts(full) && full.totalTokens == MAX_COUNT
    ensures AreValid(events) && Replay(events) == l
  {
    Overflowing(full, full);
    if l.last.Unmeasured? {
      ReplayFilled(Pair(full, full), Known(l) - 2, l.unavailable);
      events := Filled(Pair(full, full), Known(l) - 2, l.unavailable);
    } else {
      ReplayFilled(Pair(full, full), Known(l) - 3, l.unavailable);
      events := Filled(Pair(full, full), Known(l) - 3, l.unavailable);
      EndWith(events, l.last.counts);
      events := events + [Record(Measured(l.last.counts))];
    }
  }

  /** The latest request is one of the two that overflow. */
  lemma OverflowNow(l: Ledger, full: Counts) returns (events: seq<Event>)
    requires Accepted(l, 1) && l.totals.Unmeasured? && l.last.Measured? && Known(l) == 2
    requires IsCounts(full) && full.totalTokens == MAX_COUNT
    requires l.last.counts.totalTokens > 0
    ensures AreValid(events) && Replay(events) == l
  {
    ReplayOne(full);
    ReplayFilled([Record(Measured(full))], 0, l.unavailable);
    events := Filled([Record(Measured(full))], 0, l.unavailable);
    EndWith(events, l.last.counts);
    events := events + [Record(Measured(l.last.counts))];
  }

  lemma OverflowIsReachable(l: Ledger) returns (events: seq<Event>)
    requires Accepted(l, 1) && l.totals.Unmeasured? && !Impossible(l)
    ensures AreValid(events) && Replay(events) == l
  {
    if l.last.Measured? && Known(l) == 2 {
      events := OverflowNow(l, Full());
    } else {
      events := OverflowBefore(l, Full());
    }
  }

  /** Two known observations of which the latest is empty never overflow. */
  lemma {:induction false} ImpossibleIsNotReached(events: seq<Event>)
    requires IsHistory(events)
    ensures !Impossible(Replay(events))
  {
    HistoryInv(events);
    EmptyLatest(events);
  }

  lemma {:induction false} EmptyLatest(events: seq<Event>)
    requires events == [] || IsHistory(events)
    ensures var l := Replay(events);
            l.requests > 0 && l.last.Measured? && l.last.counts.totalTokens == 0 && Known(l) <= 2 ==>
              Sum(events).totalTokens <= MAX_COUNT
  {
    if events != [] {
      var before := events[..|events| - 1];
      HistoryInv(before);
      EmptyLatest(before);
    }
  }

  /** A record is accepted exactly when some history leads to it, but for one family without totals. */
  lemma AcceptedIffReachable(l: Ledger)
    ensures (exists events :: IsHistory(events) && Admitted(events) && Replay(events) == l)
            <==> Accepted(l, 2) && !Impossible(l)
  {
    if events :| IsHistory(events) && Admitted(events) && Replay(events) == l {
      ReachableIsAccepted(events);
      ImpossibleIsNotReached(events);
    }
    if Accepted(l, 2) && !Impossible(l) {
      if l.totals.Measured? {
        var events := AcceptedIsReachable2(l);
      } else {
        var events := OverflowIsReachable(l);
        ValidIsHistory(events);
      }
    }
  }

  /** The same for the records of schema 1, which knows no reset. */
  lemma AcceptedIffReachable1(l: Ledger)
    ensures (exists events :: IsHistory(events) && HasNoReset(events) && Admitted(events) && Replay(events) == l)
            <==> Accepted(l, 1) && !Impossible(l)
  {
    if events :| IsHistory(events) && HasNoReset(events) && Admitted(events) && Replay(events) == l {
      ReachableIsAccepted(events);
      ImpossibleIsNotReached(events);
    }
    if Accepted(l, 1) && !Impossible(l) {
      if l.totals.Measured? {
        var events := AcceptedIsReachable1(l);
      } else {
        var events := OverflowIsReachable(l);
        ValidIsHistory(events);
      }
    }
  }

  /** Two known requests and any number of others, the latest known one empty, and no totals. */
  function EmptyAfterOne(unavailable: nat): Ledger {
    Ledger(unavailable + 2, unavailable, Measured(Zero()), Unmeasured)
  }

  /** The family is not empty: its records are those, and both schemas accept them all. */
  lemma ImpossibleIsAccepted(l: Ledger)
    ensures Accepted(l, 2) && Impossible(l)
            <==> exists unavailable: nat :: unavailable + 2 <= MAX_COUNT && l == EmptyAfterOne(unavailable)
    ensures Impossible(l) ==> (Accepted(l, 1) <==> Accepted(l, 2))
  {
    if Accepted(l, 2) && Impossible(l) {
      assert l == EmptyAfterOne(l.unavailable);
    }
  }

  /** What is displayed is a measured sum: never an overflowed one, never the zero of unknown requests only. */
  lemma DisplayIsMeasured(events: seq<Event>)
    requires IsHistory(events)
    ensures var l := Replay(events);
            && (DisplayTotals(l).Measured? ==> DisplayTotals(l) == Measured(Sum(events)))
            && (DisplayTotals(l).Unmeasured? <==>
                  Sum(events).totalTokens > MAX_COUNT || (l.requests > 0 && l.unavailable == l.requests))
  {
    HistoryInv(events);
  }

  // ---------------------------------------------------------------------------------------------
  // The snapshot.
  // ---------------------------------------------------------------------------------------------

  const MAX_PROVIDERS := 128

  datatype Provider = Provider(id: string, ledger: Ledger)

  predicate EndChar(c: char) {
    'a' <= c <= 'z' || '0' <= c <= '9'
  }

  predicate InnerChar(c: char) {
    EndChar(c) || c == '_' || c == '-'
  }

  predicate IsProviderId(id: string) {
    && 1 <= |id| <= 127 && EndChar(id[0]) && EndChar(id[|id| - 1])
    && forall i :: 0 <= i < |id| ==> InnerChar(id[i])
  }

  predicate ProviderAccepted(p: Provider, schema: int) {
    IsProviderId(p.id) && Accepted(p.ledger, schema)
  }

  predicate SnapshotAccepted(schema: int, available: bool, providers: seq<Provider>) {
    && (schema == 1 || schema == 2) && |providers| <= MAX_PROVIDERS
    && (forall i :: 0 <= i < |providers| ==> ProviderAccepted(providers[i], schema))
    && (forall i, j :: 0 <= i < j < |providers| ==> providers[i].id != providers[j].id)
    && (available || providers == [])
  }

  method DecodeSnapshot(schema: int, available: bool, elements: seq<Provider>)
    returns (providers: Option<seq<Provider>>)
    ensures providers == if SnapshotAccepted(schema, available, elements) then Some(elements) else None
  {
    if schema != 1 && schema != 2 {
      return None;
    }
    var decoded: seq<Provider> := [];
    var ids: set<string> := {};
    var distinct := true;
    while |decoded| < |elements|
      invariant |decoded| <= |elements| && |decoded| <= MAX_PROVIDERS && decoded == elements[..|decoded|]
      invariant forall i :: 0 <= i < |decoded| ==> ProviderAccepted(elements[i], schema)
      invariant ids == set i | 0 <= i < |decoded| :: elements[i].id
      invariant distinct <==> forall i, j :: 0 <= i < j < |decoded| ==> elements[i].id != elements[j].id
    {
      var p := elements[|decoded|];
      if |decoded| >= MAX_PROVIDERS || !ProviderAccepted(p, schema) {
        return None;
      }
      distinct := distinct && p.id !in ids;
      ids := ids + {p.id};
      decoded := decoded + [p];
    }
    assert decoded == elements;
    if !distinct || (!available && decoded != []) {
      return None;
    }
    return Some(decoded);
  }
}
