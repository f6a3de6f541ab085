/**
 * The state of the `Launches` component (Launches.jsx): the aggregated launches,
 * the loading and error flags, the number of launches shown and whether the
 * Load More button is offered. Each React setter is an atomic field assignment.
 */
module Launches {
  import opened Wrappers
  import opened Seqs
  import opened LaunchData

  /** `useState(20)` for `visibleLaunches`; also the value `fetchData` compares against. */
  const InitialVisible: nat := 20

  /** How many more launches `handleLoadMore` reveals. */
  const PageStep: nat := 20

  class LaunchesView {
    var launches: seq<AggregatedLaunch>
    var isLoading: bool
    var error: Option<FetchError>
    var visibleLaunches: nat
    var hasMoreData: bool

    /** The object invariant: while a fetch is in flight, no error is shown. Every method keeps it. */
    ghost predicate Valid()
      reads this
    {
      isLoading ==> error == None
    }

    /** The initial `useState` values. */
    constructor ()
      ensures Valid()
      ensures launches == [] && !isLoading && error == None
      ensures visibleLaunches == InitialVisible && hasMoreData
    {
      launches := [];
      isLoading := false;
      error := None;
      visibleLaunches := InitialVisible;
      hasMoreData := true;
    }

    /** The start of `fetchData`: loading is shown and any earlier error is cleared. */
    method BeginFetch()
      modifies this`isLoading, this`error
      ensures Valid()
      ensures isLoading && error == None
    {
      isLoading := true;
      error := None;
    }

    /**
     * The end of `fetchData`, once the awaited work has produced `outcome`: on
     * success the launches are replaced and `hasMoreData` is computed against
     * the initial visible count captured by the effect; on failure only the
     * error is set. The `finally` block clears loading in both cases.
     */
    method SettleFetch(outcome: Result<seq<AggregatedLaunch>, FetchError>)
      modifies this`launches, this`hasMoreData, this`error, this`isLoading
      ensures Valid()
      ensures !isLoading
      ensures outcome.Success? ==>
        launches == outcome.value && hasMoreData == (|outcome.value| > InitialVisible) && error == old(error)
      ensures outcome.Failure? ==>
        error == Some(outcome.error) && launches == old(launches) && hasMoreData == old(hasMoreData)
    {
      match outcome {
        case Success(combinedData) =>
          launches := combinedData;
          hasMoreData := |combinedData| > InitialVisible;
        case Failure(e) =>
          error := Some(e);
      }
      isLoading := false;
    }

    /** One whole fetch-and-aggregate cycle (`fetchData`). */
    method FetchData(response: Result<seq<LaunchRecord>, FetchError>, api: RocketApi)
      modifies this`launches, this`hasMoreData, this`error, this`isLoading
      ensures Valid()
      ensures !isLoading
      ensures Aggregate(response, api).Success? ==>
        launches == Aggregate(response, api).value && error == None &&
        hasMoreData == (|launches| > InitialVisible)
      ensures Aggregate(response, api).Failure? ==>
        error == Some(Aggregate(response, api).error) &&
        launches == old(launches) && hasMoreData == old(hasMoreData)
    {
      BeginFetch();
      SettleFetch(Aggregate(response, api));
    }

    /** `handleLoadMore`: reveal up to 20 more launches, but only while `hasMoreData` holds. */
    method HandleLoadMore()
      requires Valid()
      modifies this`visibleLaunches
      ensures Valid()
      ensures hasMoreData ==> visibleLaunches == Min(old(visibleLaunches) + PageStep, |launches|)
      ensures !hasMoreData ==> visibleLaunches == old(visibleLaunches)
      ensures hasMoreData ==> visibleLaunches <= |launches|
    {
      if hasMoreData {
        visibleLaunches := Min(visibleLaunches + PageStep, |launches|);
      }
    }

    /** `launches.slice(0, visibleLaunches)`, the list that is rendered. */
    function Rendered(): (r: seq<AggregatedLaunch>)
      reads this
      ensures r <= launches
      ensures |r| == Min(visibleLaunches, |launches|)
    {
      Take(launches, visibleLaunches)
    }
  }

  /**
   * Twenty-five launches, all rockets found: the first page shows 20 and offers
   * more; one Load More shows all 25 and, as `hasMoreData` is never recomputed,
   * the button is still offered.
   */
  method TwentyFiveLaunches(data: seq<LaunchRecord>, api: RocketApi)
    returns (firstPage: nat, moreBefore: bool, secondPage: nat, moreAfter: bool)
    requires |data| == 25 && AllRocketsFetched(data, api)
    ensures firstPage == 20 && moreBefore
    ensures secondPage == 25 && moreAfter
  {
    var view := new LaunchesView();
    view.FetchData(Success(data), api);
    firstPage, moreBefore := |view.Rendered()|, view.hasMoreData;
    view.HandleLoadMore();
    secondPage, moreAfter := |view.Rendered()|, view.hasMoreData;
  }

  /**
   * A failed cycle: the error is set, nothing is loaded and, as `hasMoreData`
   * keeps its initial true, Load More is offered and drops the visible count to 0.
   */
  method FailedFetch(e: FetchError, api: RocketApi)
    returns (launched: nat, err: Option<FetchError>, loading: bool, more: bool, visibleAfter: nat)
    ensures launched == 0 && err == Some(e) && !loading && more
    ensures visibleAfter == 0
  {
    var view := new LaunchesView();
    view.FetchData(Failure(e), api);
    launched, err, loading, more := |view.launches|, view.error, view.isLoading, view.hasMoreData;
    view.HandleLoadMore();
    visibleAfter := view.visibleLaunches;
  }

  /**
   * Load More clicked while the fetch is still in flight: the visible count
   * becomes 0, the fetch still compares against 20, so 25 launches load and
   * none is rendered until Load More is clicked again.
   */
  method LoadMoreWhileLoading(data: seq<LaunchRecord>, api: RocketApi)
    returns (rendered: nat, more: bool, renderedAfter: nat)
    requires |data| == 25 && AllRocketsFetched(data, api)
    ensures rendered == 0 && more
    ensures renderedAfter == 20
  {
    var view := new LaunchesView();
    view.BeginFetch();
    view.HandleLoadMore();
    view.SettleFetch(Aggregate(Success(data), api));
    rendered, more := |view.Rendered()|, view.hasMoreData;
    view.HandleLoadMore();
    renderedAfter := |view.Rendered()|;
  }
}
