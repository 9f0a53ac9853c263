/** The settle-and-reflect records of the series strategy, their partition
    into passed and failed runs, and the batch-failure decision. */
module OutcomeAggregator {
  import opened ExecutionAdapter

  /** What `reflect` turns a settled run into:
      `{completed, status: "fulfilled"}` or `{errored, status: "rejected"}`. */
  datatype Record = FulfilledRecord(completed: Completion) | RejectedRecord(errored: Rejection)
  {
    function Status(): (status: string)
      ensures status == "fulfilled" || status == "rejected"
      ensures status == "fulfilled" <==> FulfilledRecord?
    {
      if FulfilledRecord? then "fulfilled" else "rejected"
    }
  }

  /** How a record reads back as the settlement it came from: `completed`
      is the fulfilment value, `errored` the rejection reason. */
  function Settlement(r: Record): Settled
  {
    match r
    case FulfilledRecord(completed) => Fulfilled(completed)
    case RejectedRecord(errored) => Rejected(errored)
  }

  /** `reflect`: every settlement, rejections included, becomes a record whose
      status says how the run settled and from which the settlement is
      recovered unchanged, so no rejection escapes and nothing is lost. */
  function Reflect(s: Settled): (r: Record)
    ensures r.Status() == "fulfilled" <==> s.Fulfilled?
    ensures r.Status() == "rejected" <==> s.Rejected?
    ensures Settlement(r) == s
  {
    match s
    case Fulfilled(completed) => FulfilledRecord(completed)
    case Rejected(errored) => RejectedRecord(errored)
  }

  /** Reflecting is a bijection between settlements and records: reading a
      record back and reflecting it again gives the same record. */
  lemma ReflectRoundTrip(r: Record)
    ensures Reflect(Settlement(r)) == r
  {
  }

  /** `results.filter(r => r.status === status)`. */
  function Filter(results: seq<Record>, status: string): (kept: seq<Record>)
    ensures |kept| <= |results|
    ensures forall r :: r in kept <==> r in results && r.Status() == status
  {
    if results == [] then []
    else (if results[0].Status() == status then [results[0]] else []) + Filter(results[1..], status)
  }

  /** `success` */
  function Passed(results: seq<Record>): seq<Record>
  {
    Filter(results, "fulfilled")
  }

  /** `failed` */
  function Failed(results: seq<Record>): seq<Record>
  {
    Filter(results, "rejected")
  }

  /** `if (failed.length) process.exit(1)`: the batch fails when some run failed. */
  predicate BatchFailed(results: seq<Record>)
  {
    |Failed(results)| > 0
  }

  /** Filtering keeps relative order: filtering a concatenation is
      concatenating the filtered parts. */
  lemma {:induction false} FilterAppend(a: seq<Record>, b: seq<Record>, status: string)
    ensures Filter(a + b, status) == Filter(a, status) + Filter(b, status)
  {
    if a == [] {
      assert a + b == b;
    } else {
      assert (a + b)[0] == a[0];
      assert (a + b)[1..] == a[1..] + b;
      FilterAppend(a[1..], b, status);
    }
  }

  /** `success` and `failed` split the results: every record lands in exactly
      one of them (as a multiset, so repeated records are counted), and their
      sizes add up to the number of results. */
  lemma {:induction false} PartitionIsExact(results: seq<Record>)
    ensures multiset(Passed(results)) + multiset(Failed(results)) == multiset(results)
    ensures |Passed(results)| + |Failed(results)| == |results|
  {
    if results != [] {
      var r, rest := results[0], results[1..];
      PartitionIsExact(rest);
      assert results == [r] + rest;
      if r.FulfilledRecord? {
        assert Passed(results) == [r] + Passed(rest);
        assert Failed(results) == Failed(rest);
      } else {
        assert Passed(results) == Passed(rest);
        assert Failed(results) == [r] + Failed(rest);
      }
    }
    calc {
      |Passed(results)| + |Failed(results)|;
      |multiset(Passed(results))| + |multiset(Failed(results))|;
      |multiset(results)|;
    }
  }

  /** A failed record between two passed ones: the passed keep their order,
      the failed one is alone in `failed`, and the batch fails. */
  lemma OnePassOneFailOnePass(r1: Record, r2: Record, r3: Record)
    requires r1.FulfilledRecord? && r2.RejectedRecord? && r3.FulfilledRecord?
    ensures Passed([r1, r2, r3]) == [r1, r3]
    ensures Failed([r1, r2, r3]) == [r2]
    ensures BatchFailed([r1, r2, r3])
  {
    assert r1.Status() == "fulfilled" && r3.Status() == "fulfilled" && r2.Status() == "rejected";
    assert [r1, r2, r3][1..] == [r2, r3] && [r2, r3][1..] == [r3] && [r3][1..] == [];
    assert Passed([r3]) == [r3] && Failed([r3]) == [];
    assert Passed([r2, r3]) == [r3] && Failed([r2, r3]) == [r2];
  }

  /** The batch fails exactly when some result is a rejected record. */
  lemma BatchFailedIff(results: seq<Record>)
    ensures BatchFailed(results) <==> exists i :: 0 <= i < |results| && results[i].RejectedRecord?
  {
    if BatchFailed(results) {
      var r := Failed(results)[0];
      assert r in Failed(results);
      var i :| 0 <= i < |results| && results[i] == r;
    } else if i :| 0 <= i < |results| && results[i].RejectedRecord? {
      assert results[i] in Failed(results);
    }
  }
}
