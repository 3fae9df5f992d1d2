/**
 * The public home page: the list of events and the title search box.
 */
module Home {
  import opened Models
  import Text

  /** The test inside `.filter`: the lower-cased title includes the lower-cased query. */
  predicate TitleMatches(a: Activity, query: string)
  {
    Text.Includes(Text.Lower(a.title), Text.Lower(query))
  }

  /** `activities.filter(...)` with an already lower-cased query. */
  function KeepMatching(acts: seq<Activity>, lowerQuery: string): seq<Activity>
  {
    if acts == [] then []
    else
      (if Text.Includes(Text.Lower(acts[0].title), lowerQuery) then [acts[0]] else [])
      + KeepMatching(acts[1..], lowerQuery)
  }

  /** What `filterActivities` shows for a given list and query. */
  function Filtered(acts: seq<Activity>, query: string): seq<Activity>
  {
    if query == "" then acts else KeepMatching(acts, Text.Lower(query))
  }

  /** `r` is `s` with some elements dropped, the rest kept in order. */
  predicate IsSubsequence<T(==)>(r: seq<T>, s: seq<T>)
    decreases |s|
  {
    if r == [] then true
    else if s == [] then false
    else if r[0] == s[0] then IsSubsequence(r[1..], s[1..])
    else IsSubsequence(r, s[1..])
  }

  lemma {:induction false} SubsequenceRefl<T>(s: seq<T>)
    ensures IsSubsequence(s, s)
  {
    if s != [] {
      SubsequenceRefl(s[1..]);
    }
  }

  /** An empty query shows the whole list. */
  lemma FilteredEmptyQuery(acts: seq<Activity>)
    ensures Filtered(acts, "") == acts
  {
  }

  /** Every activity shown has a matching title. */
  lemma {:induction false} FilteredSound(acts: seq<Activity>, query: string)
    ensures forall a :: a in Filtered(acts, query) ==> TitleMatches(a, query)
  {
    if query == "" {
      forall a | a in acts
        ensures TitleMatches(a, query)
      {
        Text.IncludesEmpty(Text.Lower(a.title));
      }
    } else {
      KeepMatchingSound(acts, Text.Lower(query));
    }
  }

  lemma {:induction false} KeepMatchingSound(acts: seq<Activity>, lowerQuery: string)
    ensures forall a :: a in KeepMatching(acts, lowerQuery) ==> Text.Includes(Text.Lower(a.title), lowerQuery)
  {
    if acts != [] {
      KeepMatchingSound(acts[1..], lowerQuery);
    }
  }

  /** Every activity of the list whose title matches is shown. */
  lemma {:induction false} FilteredComplete(acts: seq<Activity>, query: string)
    ensures forall a :: a in acts && TitleMatches(a, query) ==> a in Filtered(acts, query)
  {
    if query != "" {
      KeepMatchingComplete(acts, Text.Lower(query));
    }
  }

  lemma {:induction false} KeepMatchingComplete(acts: seq<Activity>, lowerQuery: string)
    ensures forall a :: a in acts && Text.Includes(Text.Lower(a.title), lowerQuery) ==> a in KeepMatching(acts, lowerQuery)
  {
    if acts != [] {
      KeepMatchingComplete(acts[1..], lowerQuery);
      forall a | a in acts && Text.Includes(Text.Lower(a.title), lowerQuery)
        ensures a in KeepMatching(acts, lowerQuery)
      {
        if a != acts[0] {
          assert a in acts[1..];
        }
      }
    }
  }

  /**
   * Occurrence by occurrence: a matching activity is shown as many times as
   * it appears in the full list, a non-matching one not at all.
   */
  lemma {:induction false} FilteredCounts(acts: seq<Activity>, query: string)
    ensures forall a ::
      multiset(Filtered(acts, query))[a] == (if TitleMatches(a, query) then multiset(acts)[a] else 0)
  {
    if query == "" {
      forall a
        ensures TitleMatches(a, query)
      {
        Text.IncludesEmpty(Text.Lower(a.title));
      }
    } else {
      KeepMatchingCounts(acts, Text.Lower(query));
    }
  }

  lemma {:induction false} KeepMatchingCounts(acts: seq<Activity>, lowerQuery: string)
    ensures forall a ::
      multiset(KeepMatching(acts, lowerQuery))[a] ==
      (if Text.Includes(Text.Lower(a.title), lowerQuery) then multiset(acts)[a] else 0)
  {
    if acts != [] {
      KeepMatchingCounts(acts[1..], lowerQuery);
      assert acts == [acts[0]] + acts[1..];
    }
  }

  /** The shown list keeps the order of the full list and adds nothing to it. */
  lemma {:induction false} FilteredIsSubsequence(acts: seq<Activity>, query: string)
    ensures IsSubsequence(Filtered(acts, query), acts)
  {
    if query == "" {
      SubsequenceRefl(acts);
    } else {
      KeepMatchingSubsequence(acts, Text.Lower(query));
    }
  }

  lemma {:induction false} KeepMatchingSubsequence(acts: seq<Activity>, lowerQuery: string)
    ensures IsSubsequence(KeepMatching(acts, lowerQuery), acts)
  {
    if acts != [] {
      KeepMatchingSubsequence(acts[1..], lowerQuery);
      var rest := KeepMatching(acts[1..], lowerQuery);
      if Text.Includes(Text.Lower(acts[0].title), lowerQuery) {
        assert KeepMatching(acts, lowerQuery) == [acts[0]] + rest;
        assert ([acts[0]] + rest)[1..] == rest;
      } else {
        assert KeepMatching(acts, lowerQuery) == rest;
        SkipHead(rest, acts);
      }
    }
  }

  /** A subsequence of the tail is a subsequence of the whole. */
  lemma {:induction false} SkipHead<T>(r: seq<T>, s: seq<T>)
    requires s != [] && IsSubsequence(r, s[1..])
    ensures IsSubsequence(r, s)
    decreases |s|, |r|
  {
    if r != [] && r[0] == s[0] {
      // Matching r[0] against s[0] leaves r[1..] to fit into s[1..], which
      // holds because r fits into s[1..] and r[1..] is shorter.
      DropHead(r, s[1..]);
    }
  }

  /** Dropping the first element of a subsequence keeps it a subsequence. */
  lemma {:induction false} DropHead<T>(r: seq<T>, s: seq<T>)
    requires r != [] && IsSubsequence(r, s)
    ensures IsSubsequence(r[1..], s)
    decreases |s|, |r|
  {
    assert s != [];
    if r[0] != s[0] {
      DropHead(r, s[1..]);
    }
    SkipHead(r[1..], s);
  }

  /** Changing the letter case of the query does not change what is shown. */
  lemma FilteredCaseInsensitive(acts: seq<Activity>, query: string, variant: string)
    requires Text.CaseVariant(query, variant)
    ensures Filtered(acts, query) == Filtered(acts, variant)
  {
    Text.CaseVariantSameLower(query, variant);
  }

  /** Searching again with the same query within the results changes nothing. */
  lemma {:induction false} FilteredIdempotent(acts: seq<Activity>, query: string)
    ensures Filtered(Filtered(acts, query), query) == Filtered(acts, query)
  {
    if query != "" {
      KeepMatchingIdempotent(acts, Text.Lower(query));
    }
  }

  lemma {:induction false} KeepMatchingIdempotent(acts: seq<Activity>, lowerQuery: string)
    ensures KeepMatching(KeepMatching(acts, lowerQuery), lowerQuery) == KeepMatching(acts, lowerQuery)
  {
    if acts != [] {
      KeepMatchingIdempotent(acts[1..], lowerQuery);
      var rest := KeepMatching(acts[1..], lowerQuery);
      if Text.Includes(Text.Lower(acts[0].title), lowerQuery) {
        var kept := [acts[0]] + rest;
        assert kept[0] == acts[0] && kept[1..] == rest;
        assert KeepMatching(kept, lowerQuery) == [acts[0]] + KeepMatching(rest, lowerQuery);
      } else {
        assert KeepMatching(acts, lowerQuery) == rest;
      }
    }
  }

  /** The page's state: the loaded events, the ones shown, and the search box. */
  class HomeComponent {
    var activities: seq<Activity>
    var filteredActivities: seq<Activity>
    var searchQuery: string

    constructor ()
      ensures activities == [] && filteredActivities == [] && searchQuery == ""
    {
      activities := [];
      filteredActivities := [];
      searchQuery := "";
    }

    /** The `getActivities` callback of `ngOnInit`: store the list and show all of it. */
    method OnActivitiesLoaded(acts: seq<Activity>)
      modifies this
      ensures activities == acts && filteredActivities == acts
      ensures searchQuery == old(searchQuery)
    {
      activities := acts;
      filteredActivities := acts;
    }

    /** `filterActivities`: recompute the shown list from the list and the query. */
    method FilterActivities()
      modifies this`filteredActivities
      ensures filteredActivities == Filtered(activities, searchQuery)
      ensures searchQuery == "" ==> filteredActivities == activities
      ensures activities == old(activities) && searchQuery == old(searchQuery)
    {
      if searchQuery == "" {
        filteredActivities := activities;
        return;
      }
      var query := Text.Lower(searchQuery);
      filteredActivities := KeepMatching(activities, query);
    }

    /** Typing in the search box: the two-way binding stores the text, then the list is filtered. */
    method OnSearchInput(text: string)
      modifies this`searchQuery, this`filteredActivities
      ensures searchQuery == text
      ensures filteredActivities == Filtered(activities, text)
      ensures activities == old(activities)
    {
      searchQuery := text;
      FilterActivities();
    }
  }
}
