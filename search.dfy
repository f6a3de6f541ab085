/**
 * The `Search` component (Search.jsx): the same fetch cycle and Load More as
 * `Launches`, plus a search term and a status filter applied to the loaded
 * launches before the visible count cuts the list.
 */
module Search {
  import opened Wrappers
  import opened Seqs
  import opened Text
  import opened LaunchData
  import Launches

  /** `launch.name.toLowerCase().includes(searchTerm.toLowerCase())`. */
  predicate NameMatches(term: string, l: AggregatedLaunch)
  {
    Includes(Lower(l.launch.name), Lower(term))
  }

  function ByName(term: string): AggregatedLaunch -> bool
  {
    l => NameMatches(term, l)
  }

  /** `launch.success` is truthy: true, and neither false nor null nor missing. */
  predicate Truthy(l: AggregatedLaunch)
  {
    l.launch.success == Succeeded
  }

  /** `getFilteredLaunches`: the name filter when the term is non-empty, then the status filter. */
  function FilteredLaunches(launches: seq<AggregatedLaunch>, searchTerm: string, filter: string): (r: seq<AggregatedLaunch>)
    ensures |r| <= |launches|
    ensures forall i :: 0 <= i < |r| ==> r[i] in launches && Selected(r[i], searchTerm, filter)
  {
    var byName := if searchTerm != "" then Keep(launches, ByName(searchTerm)) else launches;
    if filter != "all" then
      if filter == "successful" then Keep(byName, Truthy) else byName
    else byName
  }

  /** What a launch must satisfy to survive `getFilteredLaunches`. */
  predicate Selected(l: AggregatedLaunch, searchTerm: string, filter: string)
  {
    (searchTerm != "" ==> NameMatches(searchTerm, l)) && (filter == "successful" ==> Truthy(l))
  }

  /** With no search term, a filter other than "successful" (such as "all") leaves the launches as they are. */
  lemma NoCriteriaIsIdentity(launches: seq<AggregatedLaunch>, filter: string)
    requires filter != "successful"
    ensures FilteredLaunches(launches, "", filter) == launches
  {
  }

  /** Any filter value other than "successful" adds no status restriction. */
  lemma OtherFiltersIgnored(launches: seq<AggregatedLaunch>, searchTerm: string, filter: string)
    requires filter != "successful"
    ensures FilteredLaunches(launches, searchTerm, filter) == FilteredLaunches(launches, searchTerm, "all")
  {
  }

  /** The name match ignores case in both the name and the term, character by character. */
  lemma CaseInsensitiveTerm(term: string, l: AggregatedLaunch)
    ensures NameMatches(term, l) <==> exists i: nat :: EqualIgnoringCaseAt(l.launch.name, term, i)
  {
    IncludesIgnoringCase(l.launch.name, term);
  }

  /** Every launch kept satisfies both criteria, and every launch satisfying them is kept. */
  lemma FilteredMembers(launches: seq<AggregatedLaunch>, searchTerm: string, filter: string)
    ensures forall l :: l in FilteredLaunches(launches, searchTerm, filter) ==>
      l in launches && Selected(l, searchTerm, filter)
    ensures forall i :: 0 <= i < |launches| && Selected(launches[i], searchTerm, filter) ==>
      launches[i] in FilteredLaunches(launches, searchTerm, filter)
  {
  }

  /** The number of copies of each launch that survive: all of them when it is selected, none otherwise. */
  lemma {:induction false} FilteredMultiset(launches: seq<AggregatedLaunch>, searchTerm: string, filter: string)
    ensures forall l ::
              multiset(FilteredLaunches(launches, searchTerm, filter))[l] ==
              (if Selected(l, searchTerm, filter) then multiset(launches)[l] else 0)
  {
    var byName := if searchTerm != "" then Keep(launches, ByName(searchTerm)) else launches;
    if searchTerm != "" {
      KeepMultiset(launches, ByName(searchTerm));
    }
    KeepMultiset(byName, Truthy);
  }

  /** The filtered launches keep their original relative order. */
  lemma {:induction false} FilteredIsSubsequence(launches: seq<AggregatedLaunch>, searchTerm: string, filter: string)
    ensures IsSubsequence(FilteredLaunches(launches, searchTerm, filter), launches)
  {
    var byName := if searchTerm != "" then Keep(launches, ByName(searchTerm)) else launches;
    if searchTerm != "" {
      KeepIsSubsequence(launches, ByName(searchTerm));
    } else {
      PrefixIsSubsequence(launches, launches);
    }
    if filter == "successful" {
      KeepIsSubsequence(byName, Truthy);
      SubsequenceTransitive(Keep(byName, Truthy), byName, launches);
    }
  }

  /** Filtering the filtered launches again changes nothing. */
  lemma {:induction false} FilteredIdempotent(launches: seq<AggregatedLaunch>, searchTerm: string, filter: string)
    ensures FilteredLaunches(FilteredLaunches(launches, searchTerm, filter), searchTerm, filter) ==
      FilteredLaunches(launches, searchTerm, filter)
  {
    if searchTerm != "" {
      var a := Keep(launches, ByName(searchTerm));
      KeepIdempotent(launches, ByName(searchTerm));
      if filter == "successful" {
        var b := Keep(a, Truthy);
        KeepCommute(a, Truthy, ByName(searchTerm));
        KeepIdempotent(a, Truthy);
      }
    } else if filter == "successful" {
      KeepIdempotent(launches, Truthy);
    }
  }

  /** When no launch meets the criteria, the filtered list is empty. */
  lemma {:induction false} NothingSelected(launches: seq<AggregatedLaunch>, searchTerm: string, filter: string)
    requires forall i :: 0 <= i < |launches| ==> !Selected(launches[i], searchTerm, filter)
    ensures FilteredLaunches(launches, searchTerm, filter) == []
  {
    var r := FilteredLaunches(launches, searchTerm, filter);
    FilteredMultiset(launches, searchTerm, filter);
    forall l
      ensures multiset(r)[l] == 0
    {
      if Selected(l, searchTerm, filter) {
        assert l !in launches;
      }
    }
    assert multiset(r) == multiset{};
  }

  /** The rendered list: the first `visible` launches of the filtered list. */
  function VisibleSlice(launches: seq<AggregatedLaunch>, searchTerm: string, filter: string, visible: nat): (r: seq<AggregatedLaunch>)
    ensures r <= FilteredLaunches(launches, searchTerm, filter)
    ensures |r| == Min(visible, |FilteredLaunches(launches, searchTerm, filter)|)
    ensures IsSubsequence(r, launches)
    ensures forall l :: l in r ==> Selected(l, searchTerm, filter)
  {
    var filtered := FilteredLaunches(launches, searchTerm, filter);
    FilteredIsSubsequence(launches, searchTerm, filter);
    FilteredMembers(launches, searchTerm, filter);
    PrefixIsSubsequence(Take(filtered, visible), filtered);
    SubsequenceTransitive(Take(filtered, visible), filtered, launches);
    Take(filtered, visible)
  }

  class SearchView {
    var launches: seq<AggregatedLaunch>
    var isLoading: bool
    var error: Option<FetchError>
    var visibleLaunches: nat
    var hasMoreData: bool
    var searchTerm: string
    var filter: string

    /** The object invariant: while a fetch is in flight, no error is shown. Every method keeps it. */
    ghost predicate Valid()
      reads this
    {
      isLoading ==> error == None
    }

    /** The initial `useState` values. */
    constructor ()
      ensures Valid()
      ensures launches == [] && !isLoading && error == None
      ensures visibleLaunches == Launches.InitialVisible && hasMoreData
      ensures searchTerm == "" && filter == "all"
    {
      launches := [];
      isLoading := false;
      error := None;
      visibleLaunches := Launches.InitialVisible;
      hasMoreData := true;
      searchTerm := "";
      filter := "all";
    }

    /** The start of `fetchData`: loading is shown and any earlier error is cleared. */
    method BeginFetch()
      modifies this`isLoading, this`error
      ensures Valid()
      ensures isLoading && error == None
    {
      isLoading := true;
      error := None;
    }

    /** The end of `fetchData`: as in `Launches`, with the `finally` block clearing loading. */
    method SettleFetch(outcome: Result<seq<AggregatedLaunch>, FetchError>)
      modifies this`launches, this`hasMoreData, this`error, this`isLoading
      ensures Valid()
      ensures !isLoading
      ensures outcome.Success? ==>
        launches == outcome.value && hasMoreData == (|outcome.value| > Launches.InitialVisible) && error == old(error)
      ensures outcome.Failure? ==>
        error == Some(outcome.error) && launches == old(launches) && hasMoreData == old(hasMoreData)
    {
      match outcome {
        case Success(combinedData) =>
          launches := combinedData;
          hasMoreData := |combinedData| > Launches.InitialVisible;
        case Failure(e) =>
          error := Some(e);
      }
      isLoading := false;
    }

    /** One whole fetch-and-aggregate cycle (`fetchData`). */
    method FetchData(response: Result<seq<LaunchRecord>, FetchError>, api: RocketApi)
      modifies this`launches, this`hasMoreData, this`error, this`isLoading
      ensures Valid()
      ensures !isLoading
      ensures Aggregate(response, api).Success? ==>
        launches == Aggregate(response, api).value && error == None &&
        hasMoreData == (|launches| > Launches.InitialVisible)
      ensures Aggregate(response, api).Failure? ==>
        error == Some(Aggregate(response, api).error) &&
        launches == old(launches) && hasMoreData == old(hasMoreData)
    {
      BeginFetch();
      SettleFetch(Aggregate(response, api));
    }

    /** The `searchTerm` setter. */
    method SetSearchTerm(term: string)
      requires Valid()
      modifies this`searchTerm
      ensures Valid()
      ensures searchTerm == term
    {
      searchTerm := term;
    }

    /** `handleFilterChange`: the selected value becomes the filter; the visible count is not reset. */
    method HandleFilterChange(value: string)
      requires Valid()
      modifies this`filter
      ensures Valid()
      ensures filter == value
    {
      filter := value;
    }

    /** `handleLoadMore`: clamps to all loaded launches, not to the filtered ones. */
    method HandleLoadMore()
      requires Valid()
      modifies this`visibleLaunches
      ensures Valid()
      ensures hasMoreData ==> visibleLaunches == Min(old(visibleLaunches) + Launches.PageStep, |launches|)
      ensures !hasMoreData ==> visibleLaunches == old(visibleLaunches)
      ensures hasMoreData ==> visibleLaunches <= |launches|
    {
      if hasMoreData {
        visibleLaunches := Min(visibleLaunches + Launches.PageStep, |launches|);
      }
    }

    /** `getFilteredLaunches()` on the current state. */
    function GetFilteredLaunches(): (r: seq<AggregatedLaunch>)
      reads this
      ensures IsSubsequence(r, launches)
      ensures forall l :: l in r ==> l in launches && Selected(l, searchTerm, filter)
      ensures forall i :: 0 <= i < |launches| && Selected(launches[i], searchTerm, filter) ==> launches[i] in r
    {
      FilteredIsSubsequence(launches, searchTerm, filter);
      FilteredMembers(launches, searchTerm, filter);
      FilteredLaunches(launches, searchTerm, filter)
    }

    /** `getFilteredLaunches().slice(0, visibleLaunches)`, the list that is rendered. */
    function Rendered(): (r: seq<AggregatedLaunch>)
      reads this
      ensures r <= GetFilteredLaunches()
      ensures |r| == Min(visibleLaunches, |GetFilteredLaunches()|)
    {
      VisibleSlice(launches, searchTerm, filter, visibleLaunches)
    }
  }

  /**
   * A term that matches no name: nothing is rendered and no error is shown,
   * yet Load More is still offered when more than 20 launches were loaded.
   */
  method NoMatch(data: seq<LaunchRecord>, api: RocketApi, term: string)
    returns (rendered: nat, err: Option<FetchError>, more: bool)
    requires |data| == 25 && AllRocketsFetched(data, api)
    requires term != "" && forall i :: 0 <= i < |data| ==> !Includes(Lower(data[i].name), Lower(term))
    ensures rendered == 0 && err == None && more
  {
    var view := new SearchView();
    view.FetchData(Success(data), api);
    view.SetSearchTerm(term);
    AggregateDescribesEveryLaunch(data, api);
    NothingSelected(view.launches, view.searchTerm, view.filter);
    rendered, err, more := |view.Rendered()|, view.error, view.hasMoreData;
  }

  /**
   * Thirty launches of which none succeeded, filter "successful": nothing is
   * rendered, and Load More still raises the visible count towards all 30.
   */
  method LoadMoreIgnoresFilter(data: seq<LaunchRecord>, api: RocketApi)
    returns (rendered: nat, visibleAfter: nat)
    requires |data| == 30 && AllRocketsFetched(data, api)
    requires forall i :: 0 <= i < |data| ==> data[i].success != Succeeded
    ensures rendered == 0 && visibleAfter == 30
  {
    var view := new SearchView();
    view.FetchData(Success(data), api);
    view.HandleFilterChange("successful");
    AggregateDescribesEveryLaunch(data, api);
    NothingSelected(view.launches, view.searchTerm, view.filter);
    rendered := |view.Rendered()|;
    view.HandleLoadMore();
    visibleAfter := view.visibleLaunches;
  }
}
