/**
 * The launch records, the rocket look-ups and the positional join that both
 * components perform inside `fetchData` (Launches.jsx and Search.jsx).
 * The two HTTP endpoints are given as inputs: the launch list as the parsed
 * response (or the failure of `fetch`/`response.json()`), the rocket endpoint
 * as a total function from rocket id to the outcome of fetching and parsing it.
 */
module LaunchData {
  import opened Wrappers

  type RocketId = string

  /** The JSON `success` field: true, false, or null / missing. */
  datatype SuccessFlag = Succeeded | Failed | Unknown

  /** A launch as returned by the launch endpoint. */
  datatype LaunchRecord = LaunchRecord(
    id: string,
    name: string,
    details: Option<string>,
    success: SuccessFlag,
    dateLocal: string,
    rocket: RocketId,
    patch: Option<string>)

  /** `{...launch, description}`: a launch with the description of its rocket. */
  datatype AggregatedLaunch = AggregatedLaunch(launch: LaunchRecord, description: Option<string>)

  /** Why a fetch rejected: the transport failed, or the body was not the expected JSON. */
  datatype FetchError = NetworkError | MalformedResponse

  /**
   * The outcome of `fetch(rocketInfoApi + id)` followed by `.json()`; a body
   * without a `description` (an unknown id, say) yields None rather than a failure.
   */
  datatype RocketResponse = Rocket(description: Option<string>) | RocketFailed(error: FetchError)

  type RocketApi = RocketId -> RocketResponse

  /** The launch records of an aggregated collection. */
  function Records(r: seq<AggregatedLaunch>): (d: seq<LaunchRecord>)
    ensures |d| == |r|
    ensures forall i :: 0 <= i < |r| ==> d[i] == r[i].launch
  {
    seq(|r|, i requires 0 <= i < |r| => r[i].launch)
  }

  /** The descriptions of an aggregated collection. */
  function Descriptions(r: seq<AggregatedLaunch>): (d: seq<Option<string>>)
    ensures |d| == |r|
    ensures forall i :: 0 <= i < |r| ==> d[i] == r[i].description
  {
    seq(|r|, i requires 0 <= i < |r| => r[i].description)
  }

  /**
   * `data.map((launch, index) => ({...launch, description: launchDescriptions[index]}))`.
   * An index past the end of the descriptions reads `undefined`, modelled as None.
   */
  function Join(data: seq<LaunchRecord>, descriptions: seq<Option<string>>): (r: seq<AggregatedLaunch>)
    ensures |r| == |data|
  {
    seq(|data|, i requires 0 <= i < |data| =>
      AggregatedLaunch(data[i], if i < |descriptions| then descriptions[i] else None))
  }

  /** The join keeps every launch record, in its original position. */
  lemma JoinKeepsRecords(data: seq<LaunchRecord>, descriptions: seq<Option<string>>)
    ensures Records(Join(data, descriptions)) == data
  {
  }

  /** With one description per launch, the join attaches them in order and loses none. */
  lemma JoinKeepsDescriptions(data: seq<LaunchRecord>, descriptions: seq<Option<string>>)
    requires |descriptions| == |data|
    ensures Descriptions(Join(data, descriptions)) == descriptions
  {
  }

  /**
   * `Promise.all(data.map(launch => fetch rocket launch.rocket, read .description))`:
   * one description per launch, looked up by that launch's rocket id, in launch
   * order; the whole fan-out fails as soon as one look-up fails.
   */
  function FetchDescriptions(data: seq<LaunchRecord>, api: RocketApi): (r: Result<seq<Option<string>>, FetchError>)
    ensures r.Success? <==> forall i :: 0 <= i < |data| ==> api(data[i].rocket).Rocket?
    ensures r.Success? ==> |r.value| == |data|
    ensures r.Success? ==> forall i :: 0 <= i < |data| ==> r.value[i] == api(data[i].rocket).description
    ensures r.Failure? ==> exists i :: 0 <= i < |data| && api(data[i].rocket) == RocketFailed(r.error)
  {
    if data == [] then Success([])
    else
      match api(data[0].rocket)
      case RocketFailed(e) => Failure(e)
      case Rocket(d) =>
        match FetchDescriptions(data[1..], api)
        case Failure(e) =>
          assert forall i :: 1 <= i < |data| ==> data[1..][i - 1] == data[i];
          Failure(e)
        case Success(ds) =>
          assert forall i :: 1 <= i < |data| ==> data[1..][i - 1] == data[i];
          Success([d] + ds)
  }

  /** Every rocket look-up succeeds. */
  predicate AllRocketsFetched(data: seq<LaunchRecord>, api: RocketApi)
  {
    forall i :: 0 <= i < |data| ==> api(data[i].rocket).Rocket?
  }

  /**
   * The body of the `try` block: the launch response, the rocket fan-out and the
   * join. Either the whole collection is produced or the cycle fails as a unit.
   */
  function Aggregate(response: Result<seq<LaunchRecord>, FetchError>, api: RocketApi): (r: Result<seq<AggregatedLaunch>, FetchError>)
    ensures r.Success? <==> response.Success? && AllRocketsFetched(response.value, api)
    ensures r.Success? ==> Records(r.value) == response.value
    ensures r.Success? ==> forall i :: 0 <= i < |r.value| ==>
      r.value[i].description == api(r.value[i].launch.rocket).description
    ensures response.Failure? ==> r == Failure(response.error)
    ensures r.Failure? && response.Success? ==>
      exists i :: 0 <= i < |response.value| && api(response.value[i].rocket) == RocketFailed(r.error)
  {
    match response
    case Failure(e) => Failure(e)
    case Success(data) =>
      match FetchDescriptions(data, api)
      case Failure(e) => Failure(e)
      case Success(descriptions) =>
        JoinKeepsRecords(data, descriptions);
        Success(Join(data, descriptions))
  }

  /** With every look-up succeeding, each launch carries exactly its rocket's description. */
  lemma AggregateDescribesEveryLaunch(data: seq<LaunchRecord>, api: RocketApi)
    requires AllRocketsFetched(data, api)
    ensures Aggregate(Success(data), api).Success?
    ensures |Aggregate(Success(data), api).value| == |data|
    ensures forall i :: 0 <= i < |data| ==>
      Aggregate(Success(data), api).value[i] == AggregatedLaunch(data[i], api(data[i].rocket).description)
  {
  }
}
