/** The request fan-out both admin pages perform after the activity list arrives. */
module Http {
  import opened Models

  /**
   * `activities.forEach(act => getActivityDetail(act.id).subscribe(...))`:
   * one detail request per activity, issued in list order.
   */
  method RequestEachDetail(acts: seq<Activity>) returns (reqs: seq<Request>)
    ensures |reqs| == |acts|
    ensures forall i :: 0 <= i < |acts| ==> reqs[i] == GetActivityDetail(acts[i].id)
  {
    reqs := [];
    for i := 0 to |acts|
      invariant |reqs| == i
      invariant forall k :: 0 <= k < i ==> reqs[k] == GetActivityDetail(acts[k].id)
    {
      reqs := reqs + [GetActivityDetail(acts[i].id)];
    }
  }
}
