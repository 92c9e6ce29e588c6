/** The client of the Agoda Long Tail Search API: its error type, the
    credential check made when a client is created, the request loop that
    retries server errors and transport failures after a fixed table of
    delays, and the two payload builders (search by city, search by hotel
    ids).

    The network is replaced by a sequence of outcomes, one per POST: the
    i-th POST of a call receives `outcomes[i]`. Sleeping is recorded as the
    list of requested delays. */
module AgodaClient {
  import opened Values
  import opened Text

  // ---------------------------------------------------------------------
  // Errors

  /** `AgodaAPIError(error_id, message, status_code)` */
  datatype ApiError = ApiError(errorId: int, message: string, statusCode: Option<int>)

  const ErrorPrefix := "Agoda API Error "

  /** `str(e)` of an `AgodaAPIError`. */
  function ErrorText(e: ApiError): (r: string)
    ensures |ErrorPrefix| + 2 + |e.message| < |r|
    ensures r[..|ErrorPrefix|] == ErrorPrefix
    ensures r[|r| - |e.message| - 2..] == ": " + e.message
  {
    ErrorPrefix + IntToString(e.errorId) + ": " + e.message
  }

  /** The error id can be read back from the error text: it is the integer
      between the fixed prefix and the `": "` before the message. */
  lemma ErrorTextNamesId(e: ApiError)
    ensures ParseInt(ErrorText(e)[|ErrorPrefix|..|ErrorText(e)| - |e.message| - 2]) == Some(e.errorId)
  {
    var t := IntToString(e.errorId);
    var tail := ": " + e.message;
    assert ErrorText(e) == ErrorPrefix + t + tail;
    MiddleOf(ErrorPrefix, t, tail);
    ParseIntRoundTrip(e.errorId);
  }

  lemma MiddleOf(a: string, b: string, c: string)
    ensures (a + b + c)[|a|..|a + b + c| - |c|] == b
  {
  }

  /** `AgodaAPIClient.STATUS_MESSAGES` */
  const StatusMessages: map<int, string> := map[
    400 := "Bad Request - Malformed syntax",
    401 := "Unauthorized - Invalid API key or Site ID",
    403 := "Forbidden - Quota exceeded or terms violation",
    404 := "Not Found - Service or file not found",
    410 := "Gone - Request object is too old or no longer valid",
    500 := "Internal Server Error - Unrecoverable problem",
    503 := "Service Unavailable - Temporary maintenance",
    506 := "Partial Confirm - Contact customer service"
  ]

  /** The description logged and raised for a non-200 status. */
  function StatusMessage(status: int): string {
    if status in StatusMessages then StatusMessages[status]
    else "HTTP " + IntToString(status) + " error"
  }

  /** The error raised for a non-200 status: id and status code are both the status. */
  function StatusError(status: int): ApiError {
    ApiError(status, StatusMessage(status), Some(status))
  }

  // ---------------------------------------------------------------------
  // Client construction

  /** The credentials and the session headers the client sets when it is
      built; nothing about them changes afterwards. */
  datatype Client = Client(siteId: string, apiKey: string, headers: map<string, string>)

  /** `argument or os.getenv(name)`: an absent or empty argument falls back
      to the environment. */
  function Resolve(argument: Option<string>, environment: Option<string>): (r: Option<string>)
    ensures argument.Some? && argument.value != "" ==> r == argument
    ensures (argument.None? || argument.value == "") ==> r == environment
  {
    if argument.Some? && argument.value != "" then argument else environment
  }

  /** `not x` for an optional string. */
  predicate Blank(x: Option<string>) {
    x.None? || x.value == ""
  }

  const MissingCredentials :=
    "API credentials not found. Please set AGODA_SITE_ID and AGODA_API_KEY "
    + "environment variables or pass them as parameters."

  /** `AgodaAPIClient(site_id, api_key)`, with the two environment variables
      passed in. Fails (the ValueError) exactly when a resolved credential is
      missing or empty; otherwise `headers` holds the three headers the
      client sets on its session (the defaults `requests` adds itself, such
      as `User-Agent`, are not part of the model). */
  function NewClient(siteId: Option<string>, apiKey: Option<string>,
                     envSiteId: Option<string>, envApiKey: Option<string>): (r: Result<Client, string>)
    ensures r.Failure? <==> Blank(Resolve(siteId, envSiteId)) || Blank(Resolve(apiKey, envApiKey))
    ensures r.Failure? ==> r.error == MissingCredentials
    ensures r.Success? ==>
      && Some(r.value.siteId) == Resolve(siteId, envSiteId)
      && Some(r.value.apiKey) == Resolve(apiKey, envApiKey)
      && r.value.headers.Keys == {"Accept-Encoding", "Content-Type", "Authorization"}
      && r.value.headers["Authorization"] == r.value.siteId + ":" + r.value.apiKey
      && r.value.headers["Content-Type"] == "application/json"
      && r.value.headers["Accept-Encoding"] == "gzip,deflate"
  {
    var site := Resolve(siteId, envSiteId);
    var key := Resolve(apiKey, envApiKey);
    if Blank(site) || Blank(key) then Failure(MissingCredentials)
    else
      Success(Client(site.value, key.value, map[
        "Accept-Encoding" := "gzip,deflate",
        "Content-Type" := "application/json",
        "Authorization" := site.value + ":" + key.value]))
  }

  /** An explicit argument always takes precedence over the environment. */
  lemma ArgumentsOverrideEnvironment(siteId: string, apiKey: string,
                                     envSiteId: Option<string>, envApiKey: Option<string>)
    requires siteId != "" && apiKey != ""
    ensures NewClient(Some(siteId), Some(apiKey), envSiteId, envApiKey).Success?
    ensures NewClient(Some(siteId), Some(apiKey), envSiteId, envApiKey).value.headers["Authorization"]
            == siteId + ":" + apiKey
  {
  }

  // ---------------------------------------------------------------------
  // Transport outcomes and the request loop

  /** `error` of an API response body; `None` fields are absent keys. */
  datatype ErrorObject = ErrorObject(id: Option<int>, message: Option<string>)

  /** A parsed JSON response body: its `error` object, if any, and its
      `results` list, if any. */
  datatype ResponseData = ResponseData(error: Option<ErrorObject>, results: Option<seq<Hotel>>)

  /** The body of an HTTP response: JSON or not. */
  datatype Body = Unparseable | Parsed(data: ResponseData)

  /** What one POST produces: a response, or one of the exceptions
      `requests` raises (with its text). */
  datatype Outcome =
    | Response(status: int, body: Body)
    | Timeout(text: string)
    | ConnectionFailed(text: string)
    | RequestFailed(text: string)

  /** How a call of `_make_request` ends. A transport exception is re-raised
      as it was received; `DelayIndexError` is the IndexError of reading the
      delay table beyond its end; `RetryError` is the trailing "Max retries
      exceeded". */
  datatype Failure =
    | Api(error: ApiError)
    | Transport(exception: Outcome)
    | RetryError
    | DelayIndexError

  datatype RequestResult = Returned(data: ResponseData) | Raised(failure: Failure)

  /** `str(e)` of whatever a request raised. */
  function FailureText(f: Failure): string {
    match f
    case Api(e) => ErrorText(e)
    case Transport(o) => if o.Response? then "" else o.text
    case RetryError => "Max retries exceeded"
    case DelayIndexError => "list index out of range"
  }

  /** `retry_delays` */
  const RetryDelays: seq<nat> := [1, 2, 4]

  /** Outcomes the loop retries when attempts remain: a status of 500 or
      more, and every transport exception. */
  predicate Retryable(o: Outcome) {
    if o.Response? then o.status != 200 && o.status >= 500 else true
  }

  /** The end of a call on an outcome that is not retried (a non-retryable
      outcome, or any outcome on the final attempt). */
  function Settle(o: Outcome): RequestResult {
    match o
    case Response(status, body) =>
      if status != 200 then Raised(Api(StatusError(status)))
      else
        (match body
         case Unparseable => Raised(Api(ApiError(0, "Invalid JSON response from API", None)))
         case Parsed(data) =>
           if data.error.Some? then
             Raised(Api(ApiError(data.error.value.id.GetOr(0), data.error.value.message.GetOr("Unknown error"), None)))
           else Returned(data))
    case _ => Raised(Transport(o))
  }

  /** A call: how it ended, how many POSTs it made, and the delays it slept. */
  datatype Exchange = Exchange(result: RequestResult, posts: nat, delays: seq<nat>)

  /** The loop from `attempt` on, having slept `delays` so far. */
  function RequestFrom(outcomes: seq<Outcome>, maxRetries: int, attempt: nat, delays: seq<nat>): Exchange
    requires maxRetries <= |outcomes| && attempt <= |outcomes|
    decreases |outcomes| - attempt
  {
    if maxRetries <= attempt then Exchange(Raised(RetryError), attempt, delays)
    else
      var o := outcomes[attempt];
      if Retryable(o) && attempt < maxRetries - 1 then
        if attempt < |RetryDelays| then
          RequestFrom(outcomes, maxRetries, attempt + 1, delays + [RetryDelays[attempt]])
        else Exchange(Raised(DelayIndexError), attempt + 1, delays)
      else Exchange(Settle(o), attempt + 1, delays)
  }

  /** `_make_request(payload, max_retries)` on the outcomes its POSTs receive. */
  function Request(outcomes: seq<Outcome>, maxRetries: int): Exchange
    requires maxRetries <= |outcomes|
  {
    RequestFrom(outcomes, maxRetries, 0, [])
  }

  /** The attempt loop of `_make_request`, branch by branch. */
  method MakeRequest(outcomes: seq<Outcome>, maxRetries: int) returns (x: Exchange)
    requires maxRetries <= |outcomes|
    ensures x == Request(outcomes, maxRetries)
  {
    var delays: seq<nat> := [];
    var attempt: nat := 0;
    while attempt < maxRetries
      invariant attempt <= |outcomes|
      invariant RequestFrom(outcomes, maxRetries, attempt, delays) == Request(outcomes, maxRetries)
      decreases maxRetries - attempt
    {
      var o := outcomes[attempt];
      if o.Response? {
        if o.status != 200 {
          if o.status >= 500 && attempt < maxRetries - 1 {
            if attempt >= |RetryDelays| {
              return Exchange(Raised(DelayIndexError), attempt + 1, delays);
            }
            delays := delays + [RetryDelays[attempt]];
            attempt := attempt + 1;
            continue;
          }
          return Exchange(Raised(Api(StatusError(o.status))), attempt + 1, delays);
        }
        match o.body {
          case Unparseable =>
            return Exchange(Raised(Api(ApiError(0, "Invalid JSON response from API", None))), attempt + 1, delays);
          case Parsed(data) =>
            if data.error.Some? {
              var error := data.error.value;
              return Exchange(Raised(Api(ApiError(error.id.GetOr(0), error.message.GetOr("Unknown error"), None))),
                              attempt + 1, delays);
            }
            return Exchange(Returned(data), attempt + 1, delays);
        }
      }
      // Timeout, ConnectionError and any other RequestException
      if attempt < maxRetries - 1 {
        if attempt >= |RetryDelays| {
          return Exchange(Raised(DelayIndexError), attempt + 1, delays);
        }
        delays := delays + [RetryDelays[attempt]];
      } else {
        return Exchange(Raised(Transport(o)), attempt + 1, delays);
      }
      attempt := attempt + 1;
    }
    return Exchange(Raised(RetryError), attempt, delays);
  }

  // ---------------------------------------------------------------------
  // Properties of the request loop

  lemma {:induction false} RequestFromShape(outcomes: seq<Outcome>, maxRetries: int, attempt: nat, delays: seq<nat>)
    requires maxRetries <= |outcomes| && attempt <= |outcomes|
    requires attempt <= |RetryDelays| && delays == RetryDelays[..attempt]
    requires attempt == 0 || attempt < maxRetries
    ensures var x := RequestFrom(outcomes, maxRetries, attempt, delays);
      && |x.delays| <= |RetryDelays| && x.delays == RetryDelays[..|x.delays|]
      && (maxRetries <= 0 ==> x == Exchange(Raised(RetryError), 0, []))
      && (0 < maxRetries ==> 0 < x.posts <= maxRetries && |x.delays| == x.posts - 1)
      && (x.result == Raised(RetryError) ==> maxRetries <= 0)
      && (x.result == Raised(DelayIndexError) ==> x.posts == |RetryDelays| + 1 < maxRetries)
    decreases |outcomes| - attempt
  {
    if attempt < maxRetries {
      var o := outcomes[attempt];
      if Retryable(o) && attempt < maxRetries - 1 && attempt < |RetryDelays| {
        assert delays + [RetryDelays[attempt]] == RetryDelays[..attempt + 1];
        RequestFromShape(outcomes, maxRetries, attempt + 1, delays + [RetryDelays[attempt]]);
      }
    }
  }

  /** At most `max_retries` POSTs; the delays slept are a prefix of the
      table, one before each retry and none after the final attempt; the
      trailing RetryError happens exactly when `max_retries <= 0`, with no
      POST at all; the table overflows only when `max_retries >= 5`. */
  lemma RequestShape(outcomes: seq<Outcome>, maxRetries: int)
    requires maxRetries <= |outcomes|
    ensures var x := Request(outcomes, maxRetries);
      && |x.delays| <= |RetryDelays| && x.delays == RetryDelays[..|x.delays|]
      && (0 < maxRetries ==> 0 < x.posts <= maxRetries && |x.delays| == x.posts - 1)
      && (x.result == Raised(RetryError) <==> maxRetries <= 0)
      && (maxRetries <= 0 ==> x.posts == 0 && x.delays == [])
      && (x.result == Raised(DelayIndexError) ==> 5 <= maxRetries && x.posts == 4)
  {
    RequestFromShape(outcomes, maxRetries, 0, []);
  }

  /** Retryable outcomes before attempt `k` only sleep and move on. */
  lemma {:induction false} RequestFromRetries(outcomes: seq<Outcome>, maxRetries: int, attempt: nat, k: nat)
    requires maxRetries <= |outcomes| && attempt <= k < maxRetries && k <= |RetryDelays|
    requires forall j :: attempt <= j < k ==> Retryable(outcomes[j])
    ensures RequestFrom(outcomes, maxRetries, attempt, RetryDelays[..attempt])
            == RequestFrom(outcomes, maxRetries, k, RetryDelays[..k])
    decreases k - attempt
  {
    if attempt < k {
      assert RetryDelays[..attempt] + [RetryDelays[attempt]] == RetryDelays[..attempt + 1];
      RequestFromRetries(outcomes, maxRetries, attempt + 1, k);
    }
  }

  /** The call ends at the first outcome that is not retried (or at the
      final attempt), with that outcome's result, after exactly that many
      POSTs and the delays that precede them. */
  lemma RequestSettlesAt(outcomes: seq<Outcome>, maxRetries: int, k: nat)
    requires maxRetries <= |outcomes| && k < maxRetries && k <= |RetryDelays|
    requires forall j :: 0 <= j < k ==> Retryable(outcomes[j])
    requires !Retryable(outcomes[k]) || k == maxRetries - 1
    ensures Request(outcomes, maxRetries) == Exchange(Settle(outcomes[k]), k + 1, RetryDelays[..k])
  {
    RequestFromRetries(outcomes, maxRetries, 0, k);
  }

  /** A status other than 200 below 500 fails on its first occurrence. */
  lemma ClientErrorNotRetried(outcomes: seq<Outcome>, maxRetries: int)
    requires 1 <= maxRetries <= |outcomes|
    requires outcomes[0].Response? && outcomes[0].status != 200 && outcomes[0].status < 500
    ensures Request(outcomes, maxRetries)
            == Exchange(Raised(Api(ApiError(outcomes[0].status, StatusMessage(outcomes[0].status), Some(outcomes[0].status)))), 1, [])
  {
    RequestSettlesAt(outcomes, maxRetries, 0);
  }

  /** Status 200 ends the call on the first POST: the body is returned
      unchanged, or its error object (or its unparseability) is raised. */
  lemma OkResponseNotRetried(outcomes: seq<Outcome>, maxRetries: int)
    requires 1 <= maxRetries <= |outcomes|
    requires outcomes[0].Response? && outcomes[0].status == 200
    ensures var x := Request(outcomes, maxRetries);
      && x.posts == 1 && x.delays == []
      && (outcomes[0].body.Unparseable? ==> x.result == Raised(Api(ApiError(0, "Invalid JSON response from API", None))))
      && (outcomes[0].body.Parsed? && outcomes[0].body.data.error.None? ==> x.result == Returned(outcomes[0].body.data))
      && (outcomes[0].body.Parsed? && outcomes[0].body.data.error.Some? ==>
            x.result == Raised(Api(ApiError(outcomes[0].body.data.error.value.id.GetOr(0),
                                            outcomes[0].body.data.error.value.message.GetOr("Unknown error"), None))))
  {
    RequestSettlesAt(outcomes, maxRetries, 0);
  }

  /** When every attempt is retryable and the table suffices, the call makes
      all `max_retries` POSTs and raises what the final one produced: the
      final server error, or the final exception unchanged. */
  lemma ExhaustedRetriesSurfaceLastOutcome(outcomes: seq<Outcome>, maxRetries: int)
    requires 1 <= maxRetries <= |outcomes| && maxRetries <= |RetryDelays| + 1
    requires forall j :: 0 <= j < maxRetries ==> Retryable(outcomes[j])
    ensures var last := outcomes[maxRetries - 1];
      && Request(outcomes, maxRetries) == Exchange(Settle(last), maxRetries, RetryDelays[..maxRetries - 1])
      && (last.Response? ==> Settle(last) == Raised(Api(StatusError(last.status))))
      && (!last.Response? ==> Settle(last) == Raised(Transport(last)))
  {
    RequestSettlesAt(outcomes, maxRetries, maxRetries - 1);
  }

  /** Three 503 responses with the default three attempts: three POSTs, sleeps
      of 1 then 2 seconds, and the 503 error. */
  lemma ThreeServiceUnavailable(body: Body)
    ensures var o := Response(503, body);
      Request([o, o, o], 3)
      == Exchange(Raised(Api(ApiError(503, "Service Unavailable - Temporary maintenance", Some(503)))), 3, [1, 2])
  {
    var o := Response(503, body);
    RequestSettlesAt([o, o, o], 3, 2);
    assert RetryDelays[..2] == [1, 2];
  }

  /** With five or more attempts and four retryable outcomes the fourth
      failure reads past the delay table. */
  lemma DelayTableOverflow(outcomes: seq<Outcome>, maxRetries: int)
    requires 5 <= maxRetries <= |outcomes|
    requires forall j :: 0 <= j < 4 ==> Retryable(outcomes[j])
    ensures Request(outcomes, maxRetries) == Exchange(Raised(DelayIndexError), 4, [1, 2, 4])
  {
    RequestFromRetries(outcomes, maxRetries, 0, 3);
    assert RetryDelays[..0] == [];
    assert RetryDelays[..3] == [1, 2, 4];
  }

  // ---------------------------------------------------------------------
  // Payloads

  /** `occupancy`; `childrenAges` is absent when `None`. */
  datatype Occupancy = Occupancy(numberOfAdult: int, numberOfChildren: int, childrenAges: Option<seq<int>>)

  /** `dailyRate`, both bounds always present. */
  datatype DailyRate = DailyRate(minimum: int, maximum: int)

  /** `additional`; each `None` field is a key the payload does not carry. */
  datatype Additional = Additional(
    currency: string,
    language: string,
    occupancy: Occupancy,
    discountOnly: bool,
    sortBy: Option<string>,
    maxResult: Option<int>,
    minimumStarRating: Option<real>,
    minimumReviewScore: Option<real>,
    dailyRate: Option<DailyRate>)

  /** `cityId` or `hotelId` */
  datatype Target = CityId(cityId: int) | HotelIds(hotelIds: seq<int>)

  /** `{"criteria": {...}}` */
  datatype Criteria = Criteria(target: Target, checkInDate: string, checkOutDate: string, additional: Additional)

  const AgesMismatch := "Number of children ages must match number of children"

  /** `if children_ages:` — a list given and non-empty. */
  predicate HasAges(childrenAges: Option<seq<int>>) {
    childrenAges.Some? && childrenAges.value != []
  }

  /** The occupancy block both builders share: ages are carried only for a
      non-empty list, which must then have one age per child; an empty list
      counts as no list. */
  function BuildOccupancy(adults: int, children: int, childrenAges: Option<seq<int>>): (r: Result<Occupancy, string>)
    ensures r.Failure? <==> HasAges(childrenAges) && |childrenAges.value| != children
    ensures r.Failure? ==> r.error == AgesMismatch
    ensures r.Success? ==>
      && r.value.numberOfAdult == adults && r.value.numberOfChildren == children
      && (r.value.childrenAges.Some? <==> HasAges(childrenAges))
      && (r.value.childrenAges.Some? ==> r.value.childrenAges == childrenAges
                                         && |r.value.childrenAges.value| == children)
  {
    if HasAges(childrenAges) then
      if |childrenAges.value| != children then Failure(AgesMismatch)
      else Success(Occupancy(adults, children, childrenAges))
    else Success(Occupancy(adults, children, None))
  }

  /** Python's `int(x)` on a float: truncation toward zero. */
  function Truncate(x: real): (n: int)
    ensures 0.0 <= x ==> n as real <= x < n as real + 1.0
    ensures x < 0.0 ==> n as real - 1.0 < x <= n as real
  {
    if 0.0 <= x then x.Floor else -((-x).Floor)
  }

  /** The arguments of `city_search`. */
  datatype CityQuery = CityQuery(
    cityId: int, checkIn: string, checkOut: string, currency: string, language: string,
    adults: int, children: int, childrenAges: Option<seq<int>>,
    minPrice: Option<real>, maxPrice: Option<real>,
    minStarRating: Option<real>, minReviewScore: Option<real>,
    discountOnly: bool, sortBy: string, maxResults: int)

  const MaxResultsRange := "max_results must be between 1 and 30"

  /** The payload `city_search` builds, or the ValueError it raises first. */
  function CityPayload(q: CityQuery): (r: Result<Criteria, string>)
    ensures !(1 <= q.maxResults <= 30) ==> r == Failure(MaxResultsRange)
    ensures 1 <= q.maxResults <= 30 ==>
      (r.Failure? <==> BuildOccupancy(q.adults, q.children, q.childrenAges).Failure?)
    ensures r.Failure? ==> r.error in {MaxResultsRange, AgesMismatch}
    ensures r.Success? ==>
      var a := r.value.additional;
      && r.value.target == CityId(q.cityId)
      && r.value.checkInDate == q.checkIn && r.value.checkOutDate == q.checkOut
      && a.currency == q.currency && a.language == q.language && a.discountOnly == q.discountOnly
      && a.occupancy == BuildOccupancy(q.adults, q.children, q.childrenAges).value
      && a.sortBy == Some(q.sortBy) && a.maxResult == Some(q.maxResults)
      && a.minimumStarRating == q.minStarRating
      && a.minimumReviewScore == q.minReviewScore
      && (a.dailyRate.Some? <==> q.minPrice.Some? || q.maxPrice.Some?)
      && (a.dailyRate.Some? ==>
            && a.dailyRate.value.minimum == (if q.minPrice.Some? then Truncate(q.minPrice.value) else 1)
            && a.dailyRate.value.maximum == (if q.maxPrice.Some? then Truncate(q.maxPrice.value) else 100000))
  {
    if !(1 <= q.maxResults <= 30) then Failure(MaxResultsRange)
    else
      match BuildOccupancy(q.adults, q.children, q.childrenAges)
      case Failure(m) => Failure(m)
      case Success(occupancy) =>
        var dailyRate :=
          if q.minPrice.Some? || q.maxPrice.Some? then
            Some(DailyRate(if q.minPrice.Some? then Truncate(q.minPrice.value) else 1,
                           if q.maxPrice.Some? then Truncate(q.maxPrice.value) else 100000))
          else None;
        Success(Criteria(CityId(q.cityId), q.checkIn, q.checkOut,
          Additional(q.currency, q.language, occupancy, q.discountOnly, Some(q.sortBy), Some(q.maxResults),
                     q.minStarRating, q.minReviewScore, dailyRate)))
  }

  /** A price band with only one bound gets the other from the defaults, and
      the bounds are not checked against each other. */
  lemma DailyRateDefaults(q: CityQuery)
    requires 1 <= q.maxResults <= 30 && !HasAges(q.childrenAges)
    ensures q.minPrice == Some(250.9) && q.maxPrice.None? ==>
      CityPayload(q).value.additional.dailyRate == Some(DailyRate(250, 100000))
    ensures q.minPrice.None? && q.maxPrice == Some(80.5) ==>
      CityPayload(q).value.additional.dailyRate == Some(DailyRate(1, 80))
    ensures q.minPrice == Some(500.0) && q.maxPrice == Some(100.0) ==>
      CityPayload(q).value.additional.dailyRate == Some(DailyRate(500, 100))
  {
  }

  /** The arguments of `hotel_search`. */
  datatype HotelQuery = HotelQuery(
    hotelIds: seq<int>, checkIn: string, checkOut: string, currency: string, language: string,
    adults: int, children: int, childrenAges: Option<seq<int>>, discountOnly: bool)

  const NoHotelIds := "At least one hotel ID is required"

  /** The payload `hotel_search` builds, or the ValueError it raises first:
      it carries the ids, the dates, currency, language, occupancy and
      `discountOnly`, and none of the city search's sort, cap, rating or
      price keys. */
  function HotelPayload(q: HotelQuery): (r: Result<Criteria, string>)
    ensures q.hotelIds == [] ==> r == Failure(NoHotelIds)
    ensures q.hotelIds != [] ==>
      (r.Failure? <==> BuildOccupancy(q.adults, q.children, q.childrenAges).Failure?)
    ensures r.Success? ==>
      var a := r.value.additional;
      && r.value.target == HotelIds(q.hotelIds) && q.hotelIds != []
      && r.value.checkInDate == q.checkIn && r.value.checkOutDate == q.checkOut
      && a.currency == q.currency && a.language == q.language && a.discountOnly == q.discountOnly
      && a.occupancy == BuildOccupancy(q.adults, q.children, q.childrenAges).value
      && a.sortBy.None? && a.maxResult.None? && a.minimumStarRating.None?
      && a.minimumReviewScore.None? && a.dailyRate.None?
  {
    if q.hotelIds == [] then Failure(NoHotelIds)
    else
      match BuildOccupancy(q.adults, q.children, q.childrenAges)
      case Failure(m) => Failure(m)
      case Success(occupancy) =>
        Success(Criteria(HotelIds(q.hotelIds), q.checkIn, q.checkOut,
          Additional(q.currency, q.language, occupancy, q.discountOnly, None, None, None, None, None)))
  }

  // ---------------------------------------------------------------------
  // The two searches

  /** A search call: rejected before any request, or sent once with the
      default three attempts. */
  datatype SearchCall = Rejected(message: string) | Sent(payload: Criteria, exchange: Exchange)

  function CitySearchCall(q: CityQuery, outcomes: seq<Outcome>): SearchCall
    requires 3 <= |outcomes|
  {
    match CityPayload(q)
    case Failure(m) => Rejected(m)
    case Success(p) => Sent(p, Request(outcomes, 3))
  }

  function HotelSearchCall(q: HotelQuery, outcomes: seq<Outcome>): SearchCall
    requires 3 <= |outcomes|
  {
    match HotelPayload(q)
    case Failure(m) => Rejected(m)
    case Success(p) => Sent(p, Request(outcomes, 3))
  }

  /** `city_search(...)`: validation, then one `_make_request`. */
  method CitySearch(q: CityQuery, outcomes: seq<Outcome>) returns (c: SearchCall)
    requires 3 <= |outcomes|
    ensures c == CitySearchCall(q, outcomes)
    ensures c.Rejected? <==> CityPayload(q).Failure?
  {
    var payload := CityPayload(q);
    if payload.Failure? {
      return Rejected(payload.error);
    }
    var x := MakeRequest(outcomes, 3);
    return Sent(payload.value, x);
  }

  /** `hotel_search(...)`: validation, then one `_make_request`. */
  method HotelSearch(q: HotelQuery, outcomes: seq<Outcome>) returns (c: SearchCall)
    requires 3 <= |outcomes|
    ensures c == HotelSearchCall(q, outcomes)
    ensures c.Rejected? <==> HotelPayload(q).Failure?
  {
    var payload := HotelPayload(q);
    if payload.Failure? {
      return Rejected(payload.error);
    }
    var x := MakeRequest(outcomes, 3);
    return Sent(payload.value, x);
  }

  /** Every accepted search makes between one and three POSTs. */
  lemma SearchPostsBounded(c: SearchCall, outcomes: seq<Outcome>)
    requires 3 <= |outcomes|
    requires c.Sent? && c.exchange == Request(outcomes, 3)
    ensures 1 <= c.exchange.posts <= 3
    ensures c.exchange.delays == RetryDelays[..c.exchange.posts - 1]
  {
    RequestShape(outcomes, 3);
  }
}
