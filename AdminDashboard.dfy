/**
 * The admin dashboard: the number of events and the total number of
 * registrations, summed as the per-event details arrive.
 */
module AdminDashboard {
  import opened Models
  import Http

  /** The number of registrations in a list of detail responses. */
  function SumLengths(batches: seq<seq<Registration>>): nat
  {
    if batches == [] then 0 else |batches[0]| + SumLengths(batches[1..])
  }

  lemma {:induction false} SumLengthsAppend(a: seq<seq<Registration>>, b: seq<seq<Registration>>)
    ensures SumLengths(a + b) == SumLengths(a) + SumLengths(b)
  {
    if a == [] {
      assert a + b == b;
    } else {
      SumLengthsAppend(a[1..], b);
      assert (a + b)[1..] == a[1..] + b;
    }
  }

  /** The sum does not depend on the order in which the responses arrive. */
  lemma {:induction false} SumLengthsPermutation(a: seq<seq<Registration>>, b: seq<seq<Registration>>)
    requires multiset(a) == multiset(b)
    ensures SumLengths(a) == SumLengths(b)
    decreases |a|
  {
    if a == [] {
      assert |b| == |multiset(b)| == 0;
    } else {
      var x := a[0];
      assert x in multiset(b);
      var k :| 0 <= k < |b| && b[k] == x;
      var rest := b[..k] + b[k + 1..];
      assert b == b[..k] + [x] + b[k + 1..];
      assert a == [x] + a[1..];
      assert multiset(b) == multiset(b[..k]) + multiset{x} + multiset(b[k + 1..]);
      assert multiset(a) == multiset{x} + multiset(a[1..]);
      assert multiset(rest) == multiset(b[..k]) + multiset(b[k + 1..]);
      assert multiset(rest) == multiset(b) - multiset{x};
      assert multiset(a[1..]) == multiset(a) - multiset{x};
      SumLengthsPermutation(a[1..], rest);
      SumLengthsAppend(b[..k] + [x], b[k + 1..]);
      SumLengthsAppend(b[..k], [x]);
      SumLengthsAppend(b[..k], b[k + 1..]);
    }
  }

  /** The page's state. */
  class AdminDashboardComponent {
    var totalEvents: int
    var totalRegistrations: int
    /** The running `total` the detail callbacks add to. */
    var total: int
    /** The detail responses counted so far, in arrival order. */
    ghost var counted: seq<seq<Registration>>
    /** Whether the counting subscription of `ngOnInit` has started. */
    ghost var started: bool

    ghost predicate Valid()
      reads this
    {
      total == SumLengths(counted) && totalRegistrations == total && (!started ==> counted == [])
    }

    constructor ()
      ensures Valid() && !started
      ensures totalEvents == 0 && totalRegistrations == 0
    {
      totalEvents := 0;
      totalRegistrations := 0;
      total := 0;
      counted := [];
      started := false;
    }

    /** The first `getActivities` callback: the number of events. */
    method OnEventsLoaded(acts: seq<Activity>)
      modifies this`totalEvents
      ensures totalEvents == |acts|
    {
      totalEvents := |acts|;
    }

    /**
     * The second `getActivities` callback: start the running total at zero
     * and ask for every activity's detail. `ngOnInit` runs once, so this
     * happens once.
     */
    method OnActivitiesForTotal(acts: seq<Activity>) returns (reqs: seq<Request>)
      requires Valid() && !started
      modifies this`total, this`counted, this`started
      ensures Valid() && started && counted == [] && total == 0
      ensures |reqs| == |acts|
      ensures forall i :: 0 <= i < |acts| ==> reqs[i] == GetActivityDetail(acts[i].id)
    {
      total := 0;
      counted := [];
      started := true;
      reqs := Http.RequestEachDetail(acts);
    }

    /** One detail callback: add its registration count and publish the total. */
    method OnDetailLoaded(regs: seq<Registration>)
      requires Valid() && started
      modifies this`total, this`totalRegistrations, this`counted
      ensures Valid() && counted == old(counted) + [regs]
      ensures totalRegistrations == old(totalRegistrations) + |regs|
      ensures totalRegistrations >= old(totalRegistrations)
    {
      SumLengthsAppend(counted, [regs]);
      total := total + |regs|;
      totalRegistrations := total;
      counted := counted + [regs];
    }
  }

  /**
   * Once every activity's detail has been counted, in whatever order the
   * responses came, the total is the number of registrations they hold.
   */
  lemma TotalOnceAllCounted(page: AdminDashboardComponent, details: seq<seq<Registration>>)
    requires page.Valid() && multiset(page.counted) == multiset(details)
    ensures page.totalRegistrations == SumLengths(details)
  {
    SumLengthsPermutation(page.counted, details);
  }
}
