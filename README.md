# SpaceX launches list: data pipeline and view state

This project models the two React components of the launch browser,
`src/components/Launches.jsx` and `src/components/Search.jsx`, without their
markup. Both components run the same fetch cycle. They fetch the launch list,
then fetch the rocket of every launch, all at once (`Promise.all`). They join
the rocket descriptions to the launches by position, and then show a growing
prefix of the result. `Search` also filters the list, by a case-insensitive
name match and by a status filter, before it cuts the prefix.

Modules, one file each:

- `Wrappers` (`wrappers.dfy`): `Option` and `Result`.
- `Seqs` (`seqs.dfy`): `Array.prototype.filter` (`Keep`) and `slice(0, n)`
  (`Take`). It also defines order-preserving subsequence and proves the laws
  of filtering: which elements are kept and how many copies, order, idempotence,
  commutation.
- `Text` (`text.dfy`): `toLowerCase` on ASCII letters and `includes`, proved
  equal to "occurs at some position".
- `LaunchData` (`launch_data.dfy`): the launch and rocket records, the rocket
  fan-out, the positional join and the whole `try` body (`Aggregate`). Both
  components share this module.
- `Launches` (`launches.dfy`): class `LaunchesView`, which holds the state of
  the `Launches` component, plus scenario methods.
- `Search` (`search.dfy`): `getFilteredLaunches` as pure functions with lemmas,
  class `SearchView`, and scenario methods.

The network is an input. The launch endpoint is the parsed response, or the
error that `fetch` or `response.json()` rejected with. The rocket endpoint is a
total function from rocket id to the outcome of fetching and parsing that
rocket. A rocket body without a `description` gives an absent description; it
is not a failure, because `fetch` does not reject on an unknown id.

`fetchData` is split into `BeginFetch` (lines 18-19) and `SettleFetch` (what
follows the awaits, including `catch` and `finally`). `FetchData` runs the two
in sequence. Between them the component renders "Loading", and the Load More
button is already offered, because `hasMoreData` starts out true. The split
lets a model client click Load More during that window. The `LoadMoreWhileLoading`
scenario shows the effect: the visible count drops to 0 and nothing is rendered
after the load.

The code behaves as follows in ways a reader might not expect:

- `hasMoreData` is computed once, after a successful fetch, as
  `length > 20`. The 20 is the value of `visibleLaunches` captured by the effect
  closure. Load More never recomputes it. After the last page, the button is
  still offered (`TwentyFiveLaunches`).
- After a failed fetch, `hasMoreData` keeps its initial `true`. Load More then
  sets the visible count to `min(40, 0) = 0` (`FailedFetch`).
- In `Search`, Load More clamps to the number of all loaded launches, not the
  number of filtered ones. A filter change does not reset the visible count
  (`LoadMoreIgnoresFilter`).
- `hasMoreData` does not depend on the search or the filter (`NoMatch`).
- Only the filter value `"successful"` has an effect. There is no date
  ("future") filter.
- No control in the rendered markup sets `searchTerm`. `SetSearchTerm` models
  the state setter that the component declares.

## Model

| member | source | states |
|---|---|---|
| `Seqs.Keep` | src/components/Search.jsx:56-62 | the filtered array is no longer than the input; each kept element is from the input and satisfies the predicate; each input element that satisfies it is kept |
| `Seqs.Take` | src/components/Launches.jsx:65 | `slice(0, n)` is the prefix of length `min(n, length)` |
| `Seqs.KeepMultiset` | src/components/Search.jsx:56-62 | filtering keeps every copy of a matching element and no copy of a non-matching one |
| `Seqs.KeepIsSubsequence` | src/components/Search.jsx:56-62 | the filtered array is an order-preserving subsequence of the input |
| `Seqs.KeepIdempotent` | src/components/Search.jsx:56-62 | filtering twice by one predicate equals filtering once |
| `Seqs.KeepCommute` | src/components/Search.jsx:55-63 | the name filter and the status filter can be applied in either order |
| `Text.Lower` | src/components/Search.jsx:57 | lower-casing keeps the length and maps each character through the ASCII lower-case mapping |
| `Text.Includes` | src/components/Search.jsx:57 | `includes` returns true exactly when the term occurs at some position of the string; the empty term always occurs |
| `Text.IncludesIgnoringCase` | src/components/Search.jsx:57 | searching the lower-cased term in the lower-cased string succeeds exactly when, at some position, every character of the term equals the string's character there after lower-casing both |
| `LaunchData.Join` | src/components/Launches.jsx:35-38 | the joined collection has one element per fetched launch |
| `LaunchData.JoinKeepsRecords` | src/components/Launches.jsx:35-38 | element i of the join carries `data[i]` unchanged, all fields including `id`, so launch order is preserved |
| `LaunchData.JoinKeepsDescriptions` | src/components/Launches.jsx:35-38 | with one description per launch, element i carries description i and none is lost |
| `LaunchData.FetchDescriptions` | src/components/Launches.jsx:25-33 | the fan-out succeeds exactly when every rocket look-up does; it then gives, in launch order, the description looked up by each launch's own rocket id; a failure is the failure of some look-up |
| `LaunchData.Aggregate` | src/components/Launches.jsx:21-38 | the cycle yields a collection exactly when the launch fetch and every rocket fetch succeed; the collection is then the fetched launches, in order, each with its rocket's description; a launch-fetch failure is passed through unchanged |
| `LaunchData.AggregateDescribesEveryLaunch` | src/components/Search.jsx:22-39 | with every look-up succeeding, element i is `data[i]` with the description of `data[i].rocket`, and there is one element per launch |
| `Launches.LaunchesView.constructor` | src/components/Launches.jsx:5-9 | initial state: no launches, not loading, no error, 20 visible, more data offered |
| `Launches.LaunchesView.BeginFetch` | src/components/Launches.jsx:18-19 | a cycle starts with loading set and the error cleared |
| `Launches.LaunchesView.SettleFetch` | src/components/Launches.jsx:40-46 | on success the launches are replaced and `hasMoreData` is `length > 20`; on failure the error is set and `launches` and `hasMoreData` keep their old values; loading is cleared in both cases |
| `Launches.LaunchesView.FetchData` | src/components/Launches.jsx:17-47 | a whole cycle ends not loading; on success with the aggregate, no error and `hasMoreData == length > 20`; on any failure with that error and no partial result |
| `Launches.LaunchesView.HandleLoadMore` | src/components/Launches.jsx:52-56 | when `hasMoreData` holds, the visible count becomes `min(prev + 20, launches.length)` and so never exceeds the length; otherwise nothing changes |
| `Launches.LaunchesView.Rendered` | src/components/Launches.jsx:63-65 | the rendered list is the prefix of `launches` of length `min(visibleLaunches, launches.length)` |
| `Launches.TwentyFiveLaunches` | src/components/Launches.jsx:40-56 | 25 launches: the first page shows 20 with more offered; after one Load More all 25 are shown and more is still offered |
| `Launches.FailedFetch` | src/components/Launches.jsx:42-56 | a failed cycle leaves no launches, the error set, loading cleared and more still offered; Load More then makes the visible count 0 |
| `Launches.LoadMoreWhileLoading` | src/components/Launches.jsx:41-56 | Load More during the fetch leaves 25 loaded launches with none rendered; the next Load More shows 20 |
| `Search.OtherFiltersIgnored` | src/components/Search.jsx:60-64 | any filter value other than `'successful'` gives the same result as `'all'` |
| `Search.CaseInsensitiveTerm` | src/components/Search.jsx:57 | a launch's name matches the term exactly when the term occurs in the name ignoring case in both, character by character |
| `Search.NoCriteriaIsIdentity` | src/components/Search.jsx:53-66 | with an empty term and a filter other than `'successful'`, the launches are returned unchanged |
| `Search.FilteredLaunches` | src/components/Search.jsx:53-66 | `getFilteredLaunches` returns no more launches than were loaded, each of them a loaded launch meeting the criteria; `FilteredMembers`, `FilteredMultiset`, `FilteredIsSubsequence` and `FilteredIdempotent` give the rest of its contract |
| `Search.FilteredMembers` | src/components/Search.jsx:53-66 | covers the name test `NameMatches` (line 57) and the status test `Truthy` (line 62): every retained launch is a loaded launch whose lower-cased name contains the lower-cased term (when the term is non-empty) and whose `success` is truthy (when the filter is `'successful'`); every loaded launch meeting both criteria is retained |
| `Search.FilteredMultiset` | src/components/Search.jsx:53-66 | each launch keeps all its occurrences when it meets the criteria and none otherwise |
| `Search.FilteredIsSubsequence` | src/components/Search.jsx:53-66 | the filtered list is an order-preserving subsequence of the launches |
| `Search.FilteredIdempotent` | src/components/Search.jsx:53-66 | filtering the filtered list again gives the same list |
| `Search.NothingSelected` | src/components/Search.jsx:53-66 | when no launch meets the criteria the filtered list is empty |
| `Search.VisibleSlice` | src/components/Search.jsx:95 | the rendered list is the prefix of the filtered list of length `min(visible, filtered.length)`; it is a subsequence of the launches and each element meets the criteria, so filtering happens before slicing |
| `Search.SearchView.constructor` | src/components/Search.jsx:5-11 | initial state: as in `Launches`, with an empty search term and filter `'all'` |
| `Search.SearchView.BeginFetch` | src/components/Search.jsx:19-20 | a cycle starts with loading set and the error cleared |
| `Search.SearchView.SettleFetch` | src/components/Search.jsx:41-46 | as in `Launches`: replace the launches and set `hasMoreData` on success, set only the error on failure, clear loading in both cases |
| `Search.SearchView.FetchData` | src/components/Search.jsx:18-48 | the same fail-fast cycle as in `Launches`, with the same join |
| `Search.SearchView.SetSearchTerm` | src/components/Search.jsx:10 | the term is replaced; nothing else changes |
| `Search.SearchView.HandleFilterChange` | src/components/Search.jsx:68-70 | the filter becomes the selected value; the visible count and everything else are unchanged |
| `Search.SearchView.HandleLoadMore` | src/components/Search.jsx:72-78 | when `hasMoreData` holds, the visible count becomes `min(prev + 20, launches.length)`, using the length of all launches, not the filtered ones; otherwise nothing changes |
| `Search.SearchView.GetFilteredLaunches` | src/components/Search.jsx:53-66 | on the current state: a subsequence of the launches that keeps exactly the launches meeting the criteria |
| `Search.SearchView.Rendered` | src/components/Search.jsx:93-95 | the prefix of the filtered list of length `min(visibleLaunches, filtered.length)` |
| `Search.NoMatch` | src/components/Search.jsx:53-95 | a term that matches no name renders nothing and shows no error, and with 25 launches loaded more is still offered |
| `Search.LoadMoreIgnoresFilter` | src/components/Search.jsx:68-78 | 30 launches, none successful, filter `'successful'`: nothing is rendered, and Load More still raises the visible count to 30 |

## Left out

- The HTTP requests, `response.json()` and the API URLs are not modelled. They are network I/O and become the inputs described above.
- The concurrency of `Promise.all` is not modelled; only its ordering is. When several rocket fetches fail, `Promise.all` rejects with the one that fails first in time, and the model reports the failing look-up with the lowest position instead.
- A response body that is not a launch array makes `data.map` throw a `TypeError`. The model folds that case into the `MalformedResponse` failure of the launch response.
- `useEffect` scheduling and React's batching of state updates are not modelled. Each setter is an atomic field assignment, and `fetchData` may be called in any state, not only once at mount.
- JSX rendering, CSS and the placeholder image are not modelled, nor are the "Successful"/"Failed" labels and `error.message`. The `launches.length > 0` guard before the list is not modelled either; with no launches, the modelled slice is empty anyway.
- The commented-out `'future'` and `'rocketInfo'` options are not implemented in the source, so they are not modelled.
- `Text.Lower`: only lower-cases the ASCII letters A-Z. Unicode case folding done by `toLowerCase` is not modelled.
- Repeated rocket look-ups are not modelled as independent. The rocket endpoint is a function of the rocket id, so two launches with the same rocket always get the same outcome within a cycle. In the source these are separate `fetch` calls, and one of them can fail while another succeeds.
- The launch fields `details`, `dateLocal` and `patch` are carried along unchanged. No behaviour depends on them.
