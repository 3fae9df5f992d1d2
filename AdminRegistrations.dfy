/**
 * The admin registrations page: registrations of one selected event, or of
 * all events merged batch by batch and kept newest first.
 */
module AdminRegistrations {
  import opened Models
  import Text
  import Http

  const UNKNOWN_EVENT := "Unknown Event"

  /** `activities.find(act => act.id === id)`, as the index of the first match. */
  function FindById(acts: seq<Activity>, id: int): (r: Option<nat>)
    ensures r.Some? ==> r.value < |acts| && acts[r.value].id == id
    ensures r.Some? ==> forall j :: 0 <= j < r.value ==> acts[j].id != id
    ensures r.None? <==> forall j :: 0 <= j < |acts| ==> acts[j].id != id
  {
    if acts == [] then None
    else if acts[0].id == id then Some(0)
    else
      match FindById(acts[1..], id)
      case None => None
      case Some(k) => Some(k + 1)
  }

  // ---------------------------------------------------------------------
  // Ordering by registration date, newest first. Array.prototype.sort is a
  // stable sort, so it is modelled by a stable insertion sort.
  // ---------------------------------------------------------------------

  /** The order the comparator `date(b) - date(a)` asks for. */
  predicate NewestFirst(s: seq<Registration>)
  {
    forall i, j :: 0 <= i < j < |s| ==> s[i].registrationDate >= s[j].registrationDate
  }

  /** Places `x` after every leading element at least as recent as it. */
  function InsertByDate(x: Registration, s: seq<Registration>): seq<Registration>
  {
    if s == [] then [x]
    else if s[0].registrationDate >= x.registrationDate then [s[0]] + InsertByDate(x, s[1..])
    else [x] + s
  }

  /** `s.sort((a, b) => date(b) - date(a))` on a copy: insertion sort from the left. */
  function SortNewestFirst(s: seq<Registration>): seq<Registration>
  {
    if s == [] then [] else InsertByDate(s[|s| - 1], SortNewestFirst(s[..|s| - 1]))
  }

  /** The elements of `s` registered at time `d`, in their order in `s`. */
  function WithDate(s: seq<Registration>, d: int): seq<Registration>
  {
    if s == [] then []
    else (if s[0].registrationDate == d then [s[0]] else []) + WithDate(s[1..], d)
  }

  lemma {:induction false} InsertByDatePermutes(x: Registration, s: seq<Registration>)
    ensures multiset(InsertByDate(x, s)) == multiset(s) + multiset{x}
  {
    if s != [] && s[0].registrationDate >= x.registrationDate {
      InsertByDatePermutes(x, s[1..]);
      assert s == [s[0]] + s[1..];
    }
  }

  lemma {:induction false} InsertByDateSorted(x: Registration, s: seq<Registration>)
    requires NewestFirst(s)
    ensures NewestFirst(InsertByDate(x, s))
  {
    if s != [] && s[0].registrationDate >= x.registrationDate {
      var rest := InsertByDate(x, s[1..]);
      InsertByDateSorted(x, s[1..]);
      InsertByDatePermutes(x, s[1..]);
      forall j | 0 <= j < |rest|
        ensures s[0].registrationDate >= rest[j].registrationDate
      {
        assert rest[j] in multiset(s[1..]) + multiset{x};
        if rest[j] != x {
          var k :| 0 <= k < |s[1..]| && s[1..][k] == rest[j];
          assert s[k + 1] == rest[j];
        }
      }
      var r := [s[0]] + rest;
      forall i, j | 0 <= i < j < |r|
        ensures r[i].registrationDate >= r[j].registrationDate
      {
        if i > 0 {
          assert r[i] == rest[i - 1] && r[j] == rest[j - 1];
        } else {
          assert r[j] == rest[j - 1];
        }
      }
    } else if s != [] {
      var r := [x] + s;
      forall i, j | 0 <= i < j < |r|
        ensures r[i].registrationDate >= r[j].registrationDate
      {
        if i > 0 {
          assert r[i] == s[i - 1] && r[j] == s[j - 1];
        } else if j > 1 {
          assert r[j] == s[j - 1] && s[0].registrationDate >= s[j - 1].registrationDate;
        }
      }
    }
  }

  /** The sorted list holds exactly the elements it was given, as many times as given. */
  lemma {:induction false} SortPermutes(s: seq<Registration>)
    ensures multiset(SortNewestFirst(s)) == multiset(s)
  {
    if s != [] {
      var prefix, last := s[..|s| - 1], s[|s| - 1];
      SortPermutes(prefix);
      InsertByDatePermutes(last, SortNewestFirst(prefix));
      assert s == prefix + [last];
    }
  }

  /** The sorted list is newest first. */
  lemma {:induction false} SortSorted(s: seq<Registration>)
    ensures NewestFirst(SortNewestFirst(s))
  {
    if s != [] {
      SortSorted(s[..|s| - 1]);
      InsertByDateSorted(s[|s| - 1], SortNewestFirst(s[..|s| - 1]));
    }
  }

  lemma {:induction false} WithDateAppend(a: seq<Registration>, b: seq<Registration>, d: int)
    ensures WithDate(a + b, d) == WithDate(a, d) + WithDate(b, d)
  {
    if a != [] {
      WithDateAppend(a[1..], b, d);
      assert (a + b)[1..] == a[1..] + b;
    } else {
      assert a + b == b;
    }
  }

  lemma {:induction false} WithDateNone(s: seq<Registration>, d: int)
    requires forall i :: 0 <= i < |s| ==> s[i].registrationDate < d
    ensures WithDate(s, d) == []
  {
    if s != [] {
      WithDateNone(s[1..], d);
    }
  }

  lemma {:induction false} InsertByDateStable(x: Registration, s: seq<Registration>, d: int)
    requires NewestFirst(s)
    ensures WithDate(InsertByDate(x, s), d) == WithDate(s, d) + WithDate([x], d)
  {
    if s == [] {
    } else if s[0].registrationDate >= x.registrationDate {
      var rest := InsertByDate(x, s[1..]);
      InsertByDateStable(x, s[1..], d);
      assert ([s[0]] + rest)[1..] == rest;
    } else {
      assert ([x] + s)[1..] == s;
      if x.registrationDate == d {
        WithDateNone(s, d);
      }
    }
  }

  /** Registrations with the same date keep the order in which they arrived. */
  lemma {:induction false} SortStable(s: seq<Registration>, d: int)
    ensures WithDate(SortNewestFirst(s), d) == WithDate(s, d)
  {
    if s != [] {
      var prefix, last := s[..|s| - 1], s[|s| - 1];
      SortStable(prefix, d);
      SortSorted(prefix);
      InsertByDateStable(last, SortNewestFirst(prefix), d);
      WithDateAppend(prefix, [last], d);
      assert s == prefix + [last];
    }
  }

  /**
   * One merge step of the unfiltered load: the result holds the old list and
   * the new batch, is newest first, and among registrations made at the same
   * time lists the earlier ones first, each part in its own order.
   */
  lemma MergeStep(earlier: seq<Registration>, batch: seq<Registration>)
    ensures var merged := SortNewestFirst(earlier + batch);
      && NewestFirst(merged)
      && multiset(merged) == multiset(earlier) + multiset(batch)
      && |merged| == |earlier| + |batch|
      && forall d :: WithDate(merged, d) == WithDate(earlier, d) + WithDate(batch, d)
  {
    var merged := SortNewestFirst(earlier + batch);
    SortSorted(earlier + batch);
    SortPermutes(earlier + batch);
    assert |merged| == |multiset(merged)| == |earlier + batch|;
    forall d
      ensures WithDate(merged, d) == WithDate(earlier, d) + WithDate(batch, d)
    {
      SortStable(earlier + batch, d);
      WithDateAppend(earlier, batch, d);
    }
  }

  /** The page's state. */
  class AdminRegistrationsComponent {
    var activities: seq<Activity>
    var registrations: seq<Registration>
    /** The value of the event drop-down; empty means all events. */
    var selectedActivityId: string
    var message: string
    var messageType: MessageType
    /** The list the callbacks of the latest unfiltered load accumulate into. */
    var allRegistrations: seq<Registration>

    constructor ()
      ensures activities == [] && registrations == [] && selectedActivityId == ""
      ensures message == "" && messageType == Success && allRegistrations == []
    {
      activities := [];
      registrations := [];
      selectedActivityId := "";
      message := "";
      messageType := Success;
      allRegistrations := [];
    }

    /** The callback of `loadActivities`. */
    method OnActivitiesLoaded(acts: seq<Activity>)
      modifies this`activities
      ensures activities == acts
    {
      activities := acts;
    }

    /**
     * `loadRegistrations`: with an event selected, ask for its detail
     * (`idNumber` stands for `Number(selectedActivityId)`); otherwise start an
     * empty accumulator and ask for the activity list.
     */
    method LoadRegistrations(idNumber: int) returns (req: Request)
      modifies this`allRegistrations
      ensures selectedActivityId != "" ==> req == GetActivityDetail(idNumber) && allRegistrations == old(allRegistrations)
      ensures selectedActivityId == "" ==> req == ListActivities && allRegistrations == []
    {
      if selectedActivityId != "" {
        req := GetActivityDetail(idNumber);
      } else {
        allRegistrations := [];
        req := ListActivities;
      }
    }

    /** Choosing in the drop-down: the binding stores the value, then `loadRegistrations` runs. */
    method OnSelectionChange(value: string, idNumber: int) returns (req: Request)
      modifies this`selectedActivityId, this`allRegistrations
      ensures selectedActivityId == value
      ensures value != "" ==> req == GetActivityDetail(idNumber) && allRegistrations == old(allRegistrations)
      ensures value == "" ==> req == ListActivities && allRegistrations == []
    {
      selectedActivityId := value;
      req := LoadRegistrations(idNumber);
    }

    /** Success of the selected event's detail: show exactly its registrations. */
    method OnSelectedDetailLoaded(regs: seq<Registration>)
      modifies this`registrations
      ensures registrations == regs
    {
      registrations := regs;
    }

    /** Failure of the selected event's detail. */
    method OnSelectedDetailFailed()
      modifies this`message, this`messageType
      ensures message == "Failed to load registrations" && messageType == Error
    {
      ShowMessage("Failed to load registrations", Error);
    }

    /** The activity list of the unfiltered load arrived: ask for every activity's detail. */
    method OnAllActivitiesLoaded(acts: seq<Activity>) returns (reqs: seq<Request>)
      ensures |reqs| == |acts|
      ensures forall i :: 0 <= i < |acts| ==> reqs[i] == GetActivityDetail(acts[i].id)
    {
      reqs := Http.RequestEachDetail(acts);
    }

    /** One detail of the unfiltered load arrived: append its registrations, re-sort, publish. */
    method OnBatchLoaded(batch: seq<Registration>)
      modifies this`allRegistrations, this`registrations
      ensures allRegistrations == SortNewestFirst(old(allRegistrations) + batch)
      ensures registrations == allRegistrations
      ensures NewestFirst(registrations)
      ensures multiset(registrations) == multiset(old(allRegistrations)) + multiset(batch)
      ensures |registrations| == |old(allRegistrations)| + |batch|
    {
      MergeStep(allRegistrations, batch);
      allRegistrations := SortNewestFirst(allRegistrations + batch);
      registrations := allRegistrations;
    }

    /**
     * `deleteRegistration(id)` and the callback of its request, as one step:
     * `confirmed` is the answer to the confirmation dialog, and `reload` says
     * whether `loadRegistrations` runs again.
     */
    method DeleteRegistration(id: int, confirmed: bool, succeeded: bool) returns (req: Request, reload: bool)
      modifies this`message, this`messageType
      ensures !confirmed ==> req == NoRequest && !reload
      ensures !confirmed ==> message == old(message) && messageType == old(messageType)
      ensures confirmed ==> req == Request.DeleteRegistration(id) && reload == succeeded
      ensures confirmed && succeeded ==> message == "Registration deleted successfully" && messageType == Success
      ensures confirmed && !succeeded ==> message == "Failed to delete registration" && messageType == Error
    {
      req, reload := NoRequest, false;
      if confirmed {
        req := Request.DeleteRegistration(id);
        if succeeded {
          ShowMessage("Registration deleted successfully", Success);
          reload := true;
        } else {
          ShowMessage("Failed to delete registration", Error);
        }
      }
    }

    /** `getActivityTitle`: the title of the first activity with that id, or the default. */
    function GetActivityTitle(activityId: int): (r: string)
      reads this`activities
      ensures r != ""
      ensures forall k ::
        (0 <= k < |activities| && activities[k].id == activityId &&
         forall j :: 0 <= j < k ==> activities[j].id != activityId) ==>
        r == (if activities[k].title != "" then activities[k].title else UNKNOWN_EVENT)
      ensures (forall j :: 0 <= j < |activities| ==> activities[j].id != activityId) ==> r == UNKNOWN_EVENT
    {
      var found := FindById(activities, activityId);
      Text.OrDefault(if found.Some? then Some(activities[found.value].title) else None, UNKNOWN_EVENT)
    }

    method ShowMessage(text: string, kind: MessageType)
      modifies this`message, this`messageType
      ensures message == text && messageType == kind
    {
      message := text;
      messageType := kind;
    }

    method ClearMessage()
      modifies this`message
      ensures message == "" && messageType == old(messageType)
    {
      message := "";
    }
  }
}
