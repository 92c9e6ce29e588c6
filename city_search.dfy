/** The city-search command line: checking the dates, reading the children
    ages, renaming the fields of each hotel found, choosing the output file
    kind by its suffix, and the exit code of a run. The date and age checks
    are shared with the hotel-search command line, whose helpers are the same. */
module CitySearchCli {
  import opened Values
  import opened Text
  import opened Calendar
  import opened AgodaClient

  // ---------------------------------------------------------------------
  // Dates

  /** `validate_date(date_str)`: the argument itself when `strptime` reads it
      as `%Y-%m-%d`, else the ValueError naming it. */
  function ValidateDate(s: string): (r: Result<string, string>)
    ensures r.Success? <==> ParseIsoDate(s).Some?
    ensures r.Success? ==> r.value == s
    ensures r.Failure? ==> r.error == "Invalid date format: " + s + ". Expected YYYY-MM-DD"
  {
    if ParseIsoDate(s).Some? then Success(s)
    else Failure("Invalid date format: " + s + ". Expected YYYY-MM-DD")
  }

  /** Every date written as `YYYY-MM-DD` passes, unchanged. */
  lemma ValidateDateAcceptsWrittenDates(d: Date)
    requires ValidDate(d) && 1 <= d.year <= 9999
    ensures ValidateDate(FormatIsoDate(d)) == Success(FormatIsoDate(d))
  {
    FormatParseRoundTrip(d);
  }

  /** A well-formed text naming a day the month does not have is refused. */
  lemma ValidateDateRejectsMissingDays(d: Date)
    requires 1 <= d.year <= 9999 && 1 <= d.month <= 12 && DaysInMonth(d.year, d.month) < d.day <= 31
    ensures ValidateDate(FormatIsoDate(d)).Failure?
  {
    ImpossibleDayRejected(d);
  }

  /** Why `validate_dates` raised: `strptime` refused a text, or the
      check-out is not after the check-in. */
  datatype DatesError = Unreadable(text: string) | NotAfter

  const NotAfterMessage := "Check-out date must be after check-in date"

  /** `validate_dates(check_in, check_out)`: fails when a text does not read
      as a date or when the check-out is not strictly after the check-in;
      otherwise succeeds, telling whether the check-in lies before `today`
      (which only logs a warning). */
  function ValidateDates(checkIn: string, checkOut: string, today: Date): (r: Result<bool, DatesError>)
    ensures (r.Failure? && r.error.Unreadable?) <==> ParseIsoDate(checkIn).None? || ParseIsoDate(checkOut).None?
    ensures ParseIsoDate(checkIn).Some? && ParseIsoDate(checkOut).Some? ==>
              && (r.Failure? <==> !Before(ParseIsoDate(checkIn).value, ParseIsoDate(checkOut).value))
              && (r.Success? ==> r.value == Before(ParseIsoDate(checkIn).value, today))
  {
    match ParseIsoDate(checkIn)
    case None => Failure(Unreadable(checkIn))
    case Some(ci) =>
      match ParseIsoDate(checkOut)
      case None => Failure(Unreadable(checkOut))
      case Some(co) =>
        if !Before(ci, co) then Failure(NotAfter)
        else Success(Before(ci, today))
  }

  /** A check-in in the past never makes the check fail: the outcome does not
      depend on today's date beyond the warning. */
  lemma PastCheckInOnlyWarns(checkIn: string, checkOut: string, today1: Date, today2: Date)
    ensures ValidateDates(checkIn, checkOut, today1).Success? == ValidateDates(checkIn, checkOut, today2).Success?
    ensures ValidateDates(checkIn, checkOut, today1).Failure? ==>
              ValidateDates(checkIn, checkOut, today1) == ValidateDates(checkIn, checkOut, today2)
  {
  }

  /** For two written dates the check fails exactly when the check-out is
      the same day as the check-in or an earlier one. */
  lemma ValidateDatesOrder(checkIn: Date, checkOut: Date, today: Date)
    requires ValidDate(checkIn) && 1 <= checkIn.year <= 9999
    requires ValidDate(checkOut) && 1 <= checkOut.year <= 9999
    ensures ValidateDates(FormatIsoDate(checkIn), FormatIsoDate(checkOut), today).Failure?
            <==> checkOut == checkIn || Before(checkOut, checkIn)
    ensures ValidateDates(FormatIsoDate(checkIn), FormatIsoDate(checkOut), today).Failure? ==>
              ValidateDates(FormatIsoDate(checkIn), FormatIsoDate(checkOut), today).error == NotAfter
  {
    FormatParseRoundTrip(checkIn);
    FormatParseRoundTrip(checkOut);
    BeforeTotal(checkIn, checkOut);
  }

  // ---------------------------------------------------------------------
  // Children ages

  const InvalidAges := "Invalid children ages format. Expected comma-separated integers"
  const AgesCountMismatch := "Number of children ages must match number of children"

  /** The `--children-ages` handling of `main`: absent or empty means no
      ages; otherwise every comma-separated piece must be an integer and
      there must be exactly `children` of them. */
  function ParseChildrenAges(text: Option<string>, children: int): (r: Result<Option<seq<int>>, string>)
    ensures r == Success(None) <==> text.None? || text.value == ""
    ensures r.Failure? ==> text.Some? && text.value != ""
    ensures r.Failure? ==> (r.error == InvalidAges <==> ParseIntList(text.value).None?)
    ensures r.Failure? && r.error != InvalidAges ==>
              r.error == AgesCountMismatch && |ParseIntList(text.value).value| != children
    ensures r.Success? && r.value.Some? ==>
              ParseIntList(text.value) == r.value && |r.value.value| == children
  {
    if text.None? || text.value == "" then Success(None)
    else
      match ParseIntList(text.value)
      case None => Failure(InvalidAges)
      case Some(ages) =>
        ParseIntListNonEmpty(text.value);
        if |ages| != children then Failure(AgesCountMismatch) else Success(Some(ages))
  }

  /** The text of a list of ages reads back as that list when the count
      matches, and is refused otherwise. */
  lemma ChildrenAgesRoundTrip(ages: seq<int>, children: int)
    requires 0 < |ages|
    ensures |ages| == children ==> ParseChildrenAges(Some(JoinInts(ages)), children) == Success(Some(ages))
    ensures |ages| != children ==> ParseChildrenAges(Some(JoinInts(ages)), children) == Failure(AgesCountMismatch)
  {
    ParseIntListRoundTrip(ages);
    assert JoinInts(ages) != "" by {
      ParseIntListNonEmpty("");
    }
  }

  // ---------------------------------------------------------------------
  // Formatting the hotels found

  /** One output key of `format_hotel_data`: the API field it is read from
      and the value used when the field is missing. */
  datatype Field = Field(outKey: string, apiKey: string, default: Value)

  predicate DistinctKeys(fields: seq<Field>) {
    forall i, j :: 0 <= i < j < |fields| ==> fields[i].outKey != fields[j].outKey
  }

  function OutKeys(fields: seq<Field>): set<string> {
    set i | 0 <= i < |fields| :: fields[i].outKey
  }

  /** The dictionary `{out: hotel.get(api, default), ...}` of a field table:
      exactly the table's keys, each with its field or default. */
  function Project(hotel: Hotel, fields: seq<Field>): (r: Hotel)
    ensures r.Keys == OutKeys(fields)
    decreases |fields|
  {
    if fields == [] then map[]
    else
      var n := |fields| - 1;
      assert OutKeys(fields) == OutKeys(fields[..n]) + {fields[n].outKey} by {
        forall k | k in OutKeys(fields) ensures k in OutKeys(fields[..n]) + {fields[n].outKey} {
          var i :| 0 <= i < |fields| && fields[i].outKey == k;
          if i < n { assert fields[..n][i] == fields[i]; }
        }
      }
      Project(hotel, fields[..n])[fields[n].outKey := Get(hotel, fields[n].apiKey, fields[n].default)]
  }

  /** When the output keys are distinct, each one holds its own field. */
  lemma ProjectValues(hotel: Hotel, fields: seq<Field>)
    requires DistinctKeys(fields)
    ensures forall i :: 0 <= i < |fields| ==>
              Project(hotel, fields)[fields[i].outKey] == Get(hotel, fields[i].apiKey, fields[i].default)
  {
    forall i | 0 <= i < |fields|
      ensures Project(hotel, fields)[fields[i].outKey] == Get(hotel, fields[i].apiKey, fields[i].default)
    {
      ProjectValueAt(hotel, fields, i);
    }
  }

  lemma {:induction false} ProjectValueAt(hotel: Hotel, fields: seq<Field>, i: nat)
    requires DistinctKeys(fields) && i < |fields|
    ensures Project(hotel, fields)[fields[i].outKey] == Get(hotel, fields[i].apiKey, fields[i].default)
    decreases |fields|
  {
    var n := |fields| - 1;
    if i < n {
      var init := fields[..n];
      assert init[i] == fields[i];
      assert DistinctKeys(init) by {
        forall a, b | 0 <= a < b < n ensures init[a].outKey != init[b].outKey {
          assert init[a] == fields[a] && init[b] == fields[b];
        }
      }
      ProjectValueAt(hotel, init, i);
      assert fields[i].outKey != fields[n].outKey;
    }
  }

  /** The thirteen fields of `format_hotel_data` in `city_search.py`; a
      missing `reviewCount` becomes 0, any other missing field `None`. */
  const CityFields: seq<Field> := [
    Field("hotel_id", "hotelId", Null), Field("hotel_name", "hotelName", Null),
    Field("star_rating", "starRating", Null), Field("review_score", "reviewScore", Null),
    Field("review_count", "reviewCount", Int(0)), Field("daily_rate", "dailyRate", Null),
    Field("crossed_out_rate", "crossedOutRate", Null), Field("currency", "currency", Null),
    Field("discount_percentage", "discountPercentage", Null), Field("free_wifi", "freeWifi", Null),
    Field("breakfast_included", "includeBreakfast", Null), Field("image_url", "imageURL", Null),
    Field("landing_url", "landingURL", Null)]

  /** `format_hotel_data(hotel)`: exactly the thirteen output keys, each
      read from its API field with its default; other input keys are dropped. */
  function FormatHotelData(hotel: Hotel): (r: Hotel)
    ensures r.Keys == OutKeys(CityFields)
    ensures forall i :: 0 <= i < |CityFields| ==>
              r[CityFields[i].outKey] == Get(hotel, CityFields[i].apiKey, CityFields[i].default)
  {
    assert DistinctKeys(CityFields);
    ProjectValues(hotel, CityFields);
    Project(hotel, CityFields)
  }

  /** `[format(hotel) for hotel in response.get('results', [])]`: one entry
      per result, in order; no `results` gives no entries. */
  function FormatResults(data: ResponseData, format: Hotel -> Hotel): (r: seq<Hotel>)
    ensures data.results.None? ==> r == []
    ensures data.results.Some? ==>
              |r| == |data.results.value|
              && forall i :: 0 <= i < |r| ==> r[i] == format(data.results.value[i])
  {
    if data.results.None? then []
    else seq(|data.results.value|, i requires 0 <= i < |data.results.value| => format(data.results.value[i]))
  }

  // ---------------------------------------------------------------------
  // The output file

  /** The last component of a path as `pathlib` names it: empty and `.`
      components are skipped. */
  function LastName(parts: seq<string>): string {
    if parts == [] then ""
    else if parts[|parts| - 1] == "" || parts[|parts| - 1] == "." then LastName(parts[..|parts| - 1])
    else parts[|parts| - 1]
  }

  /** `s.rfind('.')`: the last dot, or -1. */
  function LastDot(s: string): (i: int)
    ensures -1 <= i < |s|
    ensures 0 <= i ==> s[i] == '.' && forall j :: i < j < |s| ==> s[j] != '.'
    ensures i == -1 ==> forall j :: 0 <= j < |s| ==> s[j] != '.'
  {
    if s == [] then -1 else if s[|s| - 1] == '.' then |s| - 1 else LastDot(s[..|s| - 1])
  }

  /** `Path(path).suffix`: from the last dot of the name, when that dot is
      neither its first nor its last character. */
  function Suffix(path: string): string {
    var name := LastName(Split(path, '/'));
    var i := LastDot(name);
    if 0 < i < |name| - 1 then name[i..] else ""
  }

  /** What `main` does with `--output`. */
  datatype Output = NoOutput | JsonOutput | CsvOutput | BadSuffix

  /** The output file kind: none for an absent or empty `--output`, then by
      the suffix, ignoring case; any other suffix is refused. */
  function OutputKind(output: Option<string>): Output {
    if output.None? || output.value == "" then NoOutput
    else if LowerAscii(Suffix(output.value)) == ".json" then JsonOutput
    else if LowerAscii(Suffix(output.value)) == ".csv" then CsvOutput
    else BadSuffix
  }

  /** A plain file name `base.ext` has the suffix `.ext`. */
  lemma SuffixOfFileName(base: string, ext: string)
    requires base != [] && ext != []
    requires '/' !in base && '/' !in ext && '.' !in ext
    ensures Suffix(base + "." + ext) == "." + ext
  {
    var name := base + "." + ext;
    assert '/' !in name by {
      assert name == base + ['.'] + ext;
      forall i | 0 <= i < |name| ensures name[i] != '/' {
        if i < |base| { assert name[i] == base[i]; }
        else if i > |base| { assert name[i] == ext[i - |base| - 1]; }
      }
    }
    SplitWithoutSeparator(name, '/');
    assert LastName([name]) == name;
    assert LastDot(name) == |base| by {
      LastDotAfter(base + ".", ext);
    }
    assert name[|base|..] == "." + ext;
  }

  /** A dot followed by a dot-free tail is the last dot. */
  lemma {:induction false} LastDotAfter(head: string, tail: string)
    requires head != [] && head[|head| - 1] == '.' && '.' !in tail
    ensures LastDot(head + tail) == |head| - 1
    decreases |tail|
  {
    if tail == [] {
      assert head + tail == head;
    } else {
      var s := head + tail;
      assert s[|s| - 1] == tail[|tail| - 1];
      assert s[..|s| - 1] == head + tail[..|tail| - 1];
      LastDotAfter(head, tail[..|tail| - 1]);
    }
  }

  /** A directory in front of a file name does not change its suffix. */
  lemma SuffixInDirectory(dir: string, name: string)
    requires '/' !in dir && '/' !in name && name != "" && name != "."
    ensures Suffix(dir + "/" + name) == Suffix(name)
  {
    SplitAtFirstSeparator(dir, name, '/');
    assert dir + "/" + name == dir + ['/'] + name;
    SplitWithoutSeparator(name, '/');
    assert [dir] + [name] == [dir, name];
    assert LastName([name]) == name;
  }

  /** For a file `base.ext` the kind of output depends only on `ext`,
      compared without regard to case. */
  lemma OutputKindOfFileName(base: string, ext: string)
    requires base != [] && ext != []
    requires '/' !in base && '/' !in ext && '.' !in ext
    ensures OutputKind(Some(base + "." + ext)) == JsonOutput <==> LowerAscii(ext) == "json"
    ensures OutputKind(Some(base + "." + ext)) == CsvOutput <==> LowerAscii(ext) == "csv"
    ensures OutputKind(Some(base + "." + ext)) != NoOutput
  {
    SuffixOfFileName(base, ext);
    var l := LowerAscii("." + ext);
    assert l == "." + LowerAscii(ext);
    assert ".json" == "." + "json" && ".csv" == "." + "csv";
    assert l == ".json" ==> l[1..] == "json";
    assert l == ".csv" ==> l[1..] == "csv";
  }

  /** `hotels.JSON` is written as JSON and `hotels.txt` is refused. */
  lemma SuffixExamples()
    ensures OutputKind(Some("hotels.JSON")) == JsonOutput
    ensures OutputKind(Some("hotels.txt")) == BadSuffix
  {
    var base, json, txt := "hotels", "JSON", "txt";
    assert base + "." + json == "hotels.JSON";
    assert base + "." + txt == "hotels.txt";
    OutputKindOfFileName(base, json);
    OutputKindOfFileName(base, txt);
    var l := LowerAscii(json);
    assert l[0] == 'j' && l[1] == 's' && l[2] == 'o' && l[3] == 'n';
    assert l == "json";
    assert LowerAscii(txt)[0] == 't';
  }

  /** A name that starts with its only dot, such as `.json`, has no suffix. */
  lemma DotFileHasNoSuffix()
    ensures OutputKind(Some(".json")) == BadSuffix
  {
    SplitWithoutSeparator(".json", '/');
    assert LastName([".json"]) == ".json";
    assert LastDot(".json") == 0 by {
      LastDotAfter(".", "json");
      assert "." + "json" == ".json";
    }
    assert LowerAscii("") == "";
  }

  // ---------------------------------------------------------------------
  // A run of the script

  /** The command-line arguments of the city search. */
  datatype CityArgs = CityArgs(
    cityId: int, checkIn: string, checkOut: string, currency: string, language: string,
    adults: int, children: int, childrenAges: Option<string>,
    minPrice: Option<real>, maxPrice: Option<real>, minStarRating: Option<real>, minReviewScore: Option<real>,
    discountOnly: bool, sortBy: string, maxResults: int, output: Option<string>)

  /** How a run ends: the exit code, the search call made (none when `main`
      stopped before building the client), the formatted results and what
      was done with `--output`. */
  datatype Run = Run(exitCode: int, call: Option<SearchCall>, results: seq<Hotel>, output: Output)

  /** The checks `main` makes before building the client, in order: both
      dates, their order, then the children ages. */
  function DateChecks(checkIn: string, checkOut: string, today: Date): (r: bool)
    ensures r <==> ValidateDate(checkIn).Success? && ValidateDate(checkOut).Success?
                   && ValidateDates(checkIn, checkOut, today).Success?
  {
    ValidateDate(checkIn).Success? && ValidateDate(checkOut).Success?
    && ValidateDates(checkIn, checkOut, today).Success?
  }

  // ---------------------------------------------------------------------
  // Displaying the results

  /** The values `v > 0` accepts: Python's numbers (a bool is an int).
      `None` and text raise `TypeError`. */
  predicate Numeric(v: Value) {
    v.Int? || v.Real? || v.Bool?
  }

  /** The least integer that `float()` cannot hold, 2^1024 - 2^970: from
      there on an `int` rounds to 2^1024 and the conversion raises
      `OverflowError`. */
  const FloatOverflow: int := 0xFFFFFFFF_FFFFFC00_00000000_00000000_00000000_00000000_00000000_00000000_00000000_00000000_00000000_00000000_00000000_00000000_00000000_00000000_00000000_00000000_00000000_00000000_00000000_00000000_00000000_00000000_00000000_00000000_00000000_00000000_00000000_00000000_00000000_00000000

  /** The values `format(v, '.2f')` accepts: a float, a bool, or an int
      that converts to a float. `None` and text raise, and so does an int
      of magnitude `FloatOverflow` or more. */
  predicate Formattable(v: Value) {
    v.Real? || v.Bool? || (v.Int? && -FloatOverflow < v.i < FloatOverflow)
  }

  /** `v > 0` for a number. */
  predicate Positive(v: Value)
    requires Numeric(v)
  {
    match v
    case Int(i) => i > 0
    case Real(r) => r > 0.0
    case Bool(b) => b
  }

  /** `display_results` prints one formatted hotel without raising: the
      daily rate is formatted with `.2f`, the discount is compared with 0,
      and the crossed-out rate is formatted with `.2f` only when the
      discount is positive. Every other field is only interpolated, which
      never raises. */
  predicate Displayable(hotel: Hotel) {
    var rate := Get(hotel, "daily_rate", Null);
    var discount := Get(hotel, "discount_percentage", Null);
    && Formattable(rate) && Numeric(discount)
    && (Positive(discount) ==> Formattable(Get(hotel, "crossed_out_rate", Null)))
  }

  /** `display_results(results)` returns without raising: an empty list
      prints nothing, otherwise each hotel in turn must print. */
  predicate AllDisplayable(results: seq<Hotel>) {
    forall i :: 0 <= i < |results| ==> Displayable(results[i])
  }

  /** A hotel of the API response displays exactly when its `dailyRate`
      converts to a float, its `discountPercentage` is a number and, with a
      positive discount, its `crossedOutRate` converts to a float too; a
      missing field is `None` and fails. */
  lemma DisplayableFormatted(hotel: Hotel)
    ensures Displayable(FormatHotelData(hotel)) <==>
              && Formattable(Get(hotel, "dailyRate", Null)) && Numeric(Get(hotel, "discountPercentage", Null))
              && (Positive(Get(hotel, "discountPercentage", Null)) ==> Formattable(Get(hotel, "crossedOutRate", Null)))
  {
    var r := FormatHotelData(hotel);
    assert CityFields[5].outKey == "daily_rate" && CityFields[5].apiKey == "dailyRate";
    assert CityFields[6].outKey == "crossed_out_rate" && CityFields[6].apiKey == "crossedOutRate";
    assert CityFields[8].outKey == "discount_percentage" && CityFields[8].apiKey == "discountPercentage";
    assert r["daily_rate"] == Get(hotel, "dailyRate", Null);
    assert r["crossed_out_rate"] == Get(hotel, "crossedOutRate", Null);
    assert r["discount_percentage"] == Get(hotel, "discountPercentage", Null);
  }

  /** The end of `main` once the search was called: a rejected or failed
      search exits 1 with nothing formatted; otherwise the results are
      formatted and displayed, a display that raises exits 1 before the
      output file is considered (`NoOutput`), and a refused suffix exits 1
      only after that. */
  function Finish(call: SearchCall, output: Option<string>, format: Hotel -> Hotel): (r: Run)
    ensures r.call == Some(call)
    ensures r.exitCode == 0 <==>
              && call.Sent? && call.exchange.result.Returned?
              && AllDisplayable(FormatResults(call.exchange.result.data, format))
              && OutputKind(output) != BadSuffix
    ensures r.exitCode == 0 || r.exitCode == 1
    ensures call.Sent? && call.exchange.result.Returned? ==>
              r.results == FormatResults(call.exchange.result.data, format)
              && r.output == (if AllDisplayable(r.results) then OutputKind(output) else NoOutput)
  {
    match call
    case Rejected(_) => Run(1, Some(call), [], NoOutput)
    case Sent(_, x) =>
      match x.result
      case Raised(_) => Run(1, Some(call), [], NoOutput)
      case Returned(data) =>
        var results := FormatResults(data, format);
        if !AllDisplayable(results) then Run(1, Some(call), results, NoOutput)
        else
          var kind := OutputKind(output);
          Run(if kind == BadSuffix then 1 else 0, Some(call), results, kind)
  }

  function CityQueryOf(args: CityArgs, ages: Option<seq<int>>): CityQuery {
    CityQuery(args.cityId, args.checkIn, args.checkOut, args.currency, args.language, args.adults,
              args.children, ages, args.minPrice, args.maxPrice, args.minStarRating, args.minReviewScore,
              args.discountOnly, args.sortBy, args.maxResults)
  }

  /** `main()` of the city search, with today's date, the environment's
      credentials and the transport outcomes of the POSTs as inputs. */
  function CityMain(args: CityArgs, today: Date, envSiteId: Option<string>, envApiKey: Option<string>,
                    outcomes: seq<Outcome>): (r: Run)
    requires 3 <= |outcomes|
    ensures r.exitCode == 0 || r.exitCode == 1
    ensures r.call.None? <==>
              !DateChecks(args.checkIn, args.checkOut, today)
              || ParseChildrenAges(args.childrenAges, args.children).Failure?
              || NewClient(None, None, envSiteId, envApiKey).Failure?
    ensures r.call.Some? ==>
              r.call.value == CitySearchCall(CityQueryOf(args, ParseChildrenAges(args.childrenAges, args.children).value),
                                             outcomes)
              && r == Finish(r.call.value, args.output, FormatHotelData)
    ensures r.call.None? ==> r.exitCode == 1
  {
    if !DateChecks(args.checkIn, args.checkOut, today) then Run(1, None, [], NoOutput)
    else
      match ParseChildrenAges(args.childrenAges, args.children)
      case Failure(_) => Run(1, None, [], NoOutput)
      case Success(ages) =>
        if NewClient(None, None, envSiteId, envApiKey).Failure? then Run(1, None, [], NoOutput)
        else Finish(CitySearchCall(CityQueryOf(args, ages), outcomes), args.output, FormatHotelData)
  }

  /** A run exits 0 only when every check passed, the search returned a
      body, every hotel displayed and the output suffix (if any) is
      accepted; the results are then the formatted hotels in the response's
      order. */
  lemma CityMainSucceeds(args: CityArgs, today: Date, envSiteId: Option<string>, envApiKey: Option<string>,
                         outcomes: seq<Outcome>)
    requires 3 <= |outcomes|
    ensures var r := CityMain(args, today, envSiteId, envApiKey, outcomes);
            r.exitCode == 0 ==>
              && r.call.Some? && r.call.value.Sent? && r.call.value.exchange.result.Returned?
              && r.results == FormatResults(r.call.value.exchange.result.data, FormatHotelData)
              && AllDisplayable(r.results)
              && r.output != BadSuffix
  {
  }

  /** A hotel with no `dailyRate` (formatted as `None`) makes the display
      raise, so the run exits 1 although the search returned a body. */
  lemma MissingRateFailsDisplay(call: SearchCall, output: Option<string>, name: Value)
    requires call.Sent? && call.exchange.result.Returned?
    requires call.exchange.result.data.results == Some([map["hotelName" := name]])
    ensures Finish(call, output, FormatHotelData).exitCode == 1
  {
    var hotel: Hotel := map["hotelName" := name];
    DisplayableFormatted(hotel);
    assert FormatResults(call.exchange.result.data, FormatHotelData)[0] == FormatHotelData(hotel);
  }

  /** A hotel whose `dailyRate` is an integer too large for a float makes
      `.2f` raise `OverflowError`, so the run exits 1 as well. */
  lemma HugeRateFailsDisplay(call: SearchCall, output: Option<string>, rate: int)
    requires call.Sent? && call.exchange.result.Returned?
    requires FloatOverflow <= rate
    requires call.exchange.result.data.results == Some([map["dailyRate" := Int(rate), "discountPercentage" := Int(0)]])
    ensures Finish(call, output, FormatHotelData).exitCode == 1
  {
    var hotel: Hotel := map["dailyRate" := Int(rate), "discountPercentage" := Int(0)];
    DisplayableFormatted(hotel);
    assert Get(hotel, "dailyRate", Null) == Int(rate);
    assert FormatResults(call.exchange.result.data, FormatHotelData)[0] == FormatHotelData(hotel);
  }

  /** A bad suffix is only noticed after the search was made. */
  lemma BadSuffixAfterSearch(args: CityArgs, today: Date, envSiteId: Option<string>, envApiKey: Option<string>,
                             outcomes: seq<Outcome>)
    requires 3 <= |outcomes|
    requires OutputKind(args.output) == BadSuffix
    ensures var r := CityMain(args, today, envSiteId, envApiKey, outcomes);
            && r.exitCode == 1
            && ((DateChecks(args.checkIn, args.checkOut, today)
                 && ParseChildrenAges(args.childrenAges, args.children).Success?
                 && NewClient(None, None, envSiteId, envApiKey).Success?) ==> r.call.Some?)
  {
  }

  /** The ages `main` hands on always satisfy the client's own check, so a
      search it starts is only ever refused for `--max-results` outside
      1 to 30. */
  lemma CitySearchRejectedOnlyForMaxResults(args: CityArgs, today: Date, envSiteId: Option<string>,
                                            envApiKey: Option<string>, outcomes: seq<Outcome>)
    requires 3 <= |outcomes|
    ensures var r := CityMain(args, today, envSiteId, envApiKey, outcomes);
            r.call.Some? ==> (r.call.value.Rejected? <==> !(1 <= args.maxResults <= 30))
  {
    var ages := ParseChildrenAges(args.childrenAges, args.children);
    if ages.Success? && ages.value.Some? {
      ParseIntListNonEmpty(args.childrenAges.value);
    }
  }
}
