/** The result classifier: each engine result becomes one response entry
    carrying the raw time and one of three routing statuses. */
module ResultClassifier {

  /** One engine result for an (origin, destination) pair. */
  datatype TimeDistance = TimeDistance(time: nat, distance: nat)

  /** Status of a pair in the response. */
  datatype RoutingStatus = Reached | Unreached | Unknown

  /** One response entry. */
  datatype RoutingResponse = RoutingResponse(duration: nat, status: RoutingStatus)

  /** The engine's sentinel marks an unknown cost; otherwise a time strictly
      over the budget is unreached, and any other time is reached. */
  function Classify(time: nat, maxDuration: nat, maxCost: nat): RoutingStatus
  {
    if time == maxCost then Unknown
    else if time > maxDuration then Unreached
    else Reached
  }

  /** The response row built from the engine results: one entry per result,
      in order, carrying the raw time; the status is unknown exactly for the
      sentinel, unreached exactly for other times strictly over the budget,
      reached otherwise. */
  function ClassifyRow(res: seq<TimeDistance>, maxDuration: nat, maxCost: nat): (row: seq<RoutingResponse>)
    ensures |row| == |res|
    ensures forall i :: 0 <= i < |row| ==> row[i].duration == res[i].time
    ensures forall i :: 0 <= i < |row| ==> (row[i].status == Unknown <==> res[i].time == maxCost)
    ensures forall i :: 0 <= i < |row| ==> (row[i].status == Unreached <==> res[i].time != maxCost && res[i].time > maxDuration)
    ensures forall i :: 0 <= i < |row| ==> (row[i].status == Reached <==> res[i].time != maxCost && res[i].time <= maxDuration)
  {
    seq(|res|, i requires 0 <= i < |res| => RoutingResponse(res[i].time, Classify(res[i].time, maxDuration, maxCost)))
  }

  /** Number of entries of a row with status `s`. */
  function Count(row: seq<RoutingResponse>, s: RoutingStatus): (n: nat)
    ensures n <= |row|
    ensures n == 0 <==> forall i :: 0 <= i < |row| ==> row[i].status != s
  {
    if |row| == 0 then 0
    else Count(row[..|row| - 1], s) + (if row[|row| - 1].status == s then 1 else 0)
  }

  /** Builds the response row and the two observability counters in one
      pass over the results, in order. Every entry carries its result's raw
      time; the status is unknown exactly for the sentinel, unreached exactly
      for other times strictly over the budget, reached otherwise; the
      counters are the numbers of unknown and unreached entries. */
  method BuildRow(res: seq<TimeDistance>, maxDuration: nat, maxCost: nat)
    returns (row: seq<RoutingResponse>, nbUnknown: nat, nbUnreached: nat)
    ensures row == ClassifyRow(res, maxDuration, maxCost)
    ensures |row| == |res|
    ensures forall i :: 0 <= i < |row| ==> row[i].duration == res[i].time
    ensures forall i :: 0 <= i < |row| ==> (row[i].status == Unknown <==> res[i].time == maxCost)
    ensures forall i :: 0 <= i < |row| ==> (row[i].status == Unreached <==> res[i].time != maxCost && res[i].time > maxDuration)
    ensures forall i :: 0 <= i < |row| ==> (row[i].status == Reached <==> res[i].time != maxCost && res[i].time <= maxDuration)
    ensures nbUnknown == Count(row, Unknown)
    ensures nbUnreached == Count(row, Unreached)
  {
    row := [];
    nbUnknown := 0;
    nbUnreached := 0;
    var k := 0;
    while k < |res|
      invariant k <= |res|
      invariant |row| == k
      invariant forall i :: 0 <= i < k ==> row[i] == RoutingResponse(res[i].time, Classify(res[i].time, maxDuration, maxCost))
      invariant nbUnknown == Count(row, Unknown)
      invariant nbUnreached == Count(row, Unreached)
    {
      var time := res[k].time;
      var status;
      if time == maxCost {
        status := Unknown;
        nbUnknown := nbUnknown + 1;
      } else if time > maxDuration {
        status := Unreached;
        nbUnreached := nbUnreached + 1;
      } else {
        status := Reached;
      }
      var entry := RoutingResponse(time, status);
      CountAppend(row, [entry], Unknown);
      CountAppend(row, [entry], Unreached);
      assert [entry][..0] == [];
      row := row + [entry];
      k := k + 1;
    }
  }

  /** Every entry has exactly one status, so the three counts add up to the
      length of the row. */
  lemma {:induction false} CountsPartition(row: seq<RoutingResponse>)
    ensures Count(row, Reached) + Count(row, Unreached) + Count(row, Unknown) == |row|
  {
    if |row| > 0 {
      CountsPartition(row[..|row| - 1]);
    }
  }

  /** Counting distributes over concatenation of rows. */
  lemma {:induction false} CountAppend(a: seq<RoutingResponse>, b: seq<RoutingResponse>, s: RoutingStatus)
    ensures Count(a + b, s) == Count(a, s) + Count(b, s)
  {
    if |b| == 0 {
      assert a + b == a;
    } else {
      assert (a + b)[..|a + b| - 1] == a + b[..|b| - 1];
      CountAppend(a, b[..|b| - 1], s);
    }
  }

  /** Raising the time budget never turns a reached pair into an unreached
      one, and never changes whether a pair is unknown. */
  lemma ClassifyMonotone(time: nat, d1: nat, d2: nat, maxCost: nat)
    requires d1 <= d2
    ensures Classify(time, d1, maxCost) == Reached ==> Classify(time, d2, maxCost) == Reached
    ensures Classify(time, d2, maxCost) == Unreached ==> Classify(time, d1, maxCost) == Unreached
    ensures Classify(time, d1, maxCost) == Unknown <==> Classify(time, d2, maxCost) == Unknown
  {
  }

  /** The sentinel is reported as unknown even when it lies within the
      budget, and keeps its raw value as the entry's duration. */
  lemma SentinelIsUnknown(res: seq<TimeDistance>, maxDuration: nat, maxCost: nat, i: nat)
    requires i < |res| && res[i].time == maxCost
    ensures ClassifyRow(res, maxDuration, maxCost)[i] == RoutingResponse(maxCost, Unknown)
  {
  }
}
