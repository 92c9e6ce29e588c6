/** The hotel-search command line: the same date and age checks as the
    city search, the list of hotel ids, fourteen output fields, and the exit
    code of a run. */
module HotelSearchCli {
  import opened Values
  import opened Text
  import opened Calendar
  import opened AgodaClient
  import opened CitySearchCli

  const InvalidHotelIds := "Invalid hotel IDs format. Expected comma-separated integers"

  /** `[int(hid.strip()) for hid in args.hotel_ids.split(',')]`, with the
      error `main` logs when a piece is not an integer. The list is never
      empty, so the `if not hotel_ids` guard after it never fires. */
  function ParseHotelIds(text: string): (r: Result<seq<int>, string>)
    ensures r.Success? <==> ParseIntList(text).Some?
    ensures r.Success? ==> r.value == ParseIntList(text).value && 0 < |r.value|
    ensures r.Failure? ==> r.error == InvalidHotelIds
  {
    match ParseIntList(text)
    case None => Failure(InvalidHotelIds)
    case Some(ids) =>
      ParseIntListNonEmpty(text);
      if ids == [] then Failure(NoHotelIds) else Success(ids)
  }

  /** The text of a list of ids reads back as that list; an empty argument
      is refused as malformed, not as missing. */
  lemma HotelIdsRoundTrip(ids: seq<int>)
    requires 0 < |ids|
    ensures ParseHotelIds(JoinInts(ids)) == Success(ids)
    ensures ParseHotelIds("") == Failure(InvalidHotelIds)
  {
    ParseIntListRoundTrip(ids);
    ParseIntListNonEmpty("");
  }

  /** The fourteen fields of `format_hotel_data` in `hotel_search.py`: the
      city search's thirteen and the room type, `N/A` when missing. */
  const HotelFields: seq<Field> := CityFields + [Field("room_type_name", "roomtypeName", Str("N/A"))]

  /** `format_hotel_data(hotel)`: exactly the fourteen output keys, each read
      from its API field with its default. */
  function FormatHotelData(hotel: Hotel): (r: Hotel)
    ensures r.Keys == OutKeys(HotelFields)
    ensures forall i :: 0 <= i < |HotelFields| ==>
              r[HotelFields[i].outKey] == Get(hotel, HotelFields[i].apiKey, HotelFields[i].default)
  {
    assert DistinctKeys(HotelFields);
    ProjectValues(hotel, HotelFields);
    Project(hotel, HotelFields)
  }

  /** The hotel output is the city output with the room type added. */
  lemma HotelFormatExtendsCityFormat(hotel: Hotel)
    ensures CitySearchCli.FormatHotelData(hotel) == FormatHotelData(hotel) - {"room_type_name"}
    ensures FormatHotelData(hotel)["room_type_name"] == Get(hotel, "roomtypeName", Str("N/A"))
  {
    var n := |CityFields|;
    assert HotelFields[..n] == CityFields;
    assert HotelFields[n].outKey == "room_type_name";
    assert "room_type_name" !in OutKeys(CityFields);
    assert HotelFields[n] == Field("room_type_name", "roomtypeName", Str("N/A"));
  }

  /** The hotel search's `display_results` raises on the same fields as the
      city search's: the room type line only compares with 'N/A'. */
  lemma HotelDisplayableFormatted(hotel: Hotel)
    ensures Displayable(FormatHotelData(hotel)) <==> Displayable(CitySearchCli.FormatHotelData(hotel))
    ensures Displayable(FormatHotelData(hotel)) <==>
              && Formattable(Get(hotel, "dailyRate", Null)) && Numeric(Get(hotel, "discountPercentage", Null))
              && (Positive(Get(hotel, "discountPercentage", Null)) ==> Formattable(Get(hotel, "crossedOutRate", Null)))
  {
    DisplayableFormatted(hotel);
    HotelDisplayFields(hotel);
  }

  lemma HotelDisplayFields(hotel: Hotel)
    ensures var h := FormatHotelData(hotel);
      && Get(h, "daily_rate", Null) == Get(hotel, "dailyRate", Null)
      && Get(h, "crossed_out_rate", Null) == Get(hotel, "crossedOutRate", Null)
      && Get(h, "discount_percentage", Null) == Get(hotel, "discountPercentage", Null)
  {
    var h := FormatHotelData(hotel);
    FieldOfFormat(hotel, 5);
    FieldOfFormat(hotel, 6);
    FieldOfFormat(hotel, 8);
    assert HotelFields[5] == CityFields[5] && HotelFields[6] == CityFields[6] && HotelFields[8] == CityFields[8];
  }

  /** The `i`-th field of the table, read through `Get`. */
  lemma FieldOfFormat(hotel: Hotel, i: nat)
    requires i < |HotelFields|
    ensures Get(FormatHotelData(hotel), HotelFields[i].outKey, Null)
            == Get(hotel, HotelFields[i].apiKey, HotelFields[i].default)
  {
    assert HotelFields[i].outKey in OutKeys(HotelFields);
  }

  /** The command-line arguments of the hotel search. */
  datatype HotelArgs = HotelArgs(
    hotelIds: string, checkIn: string, checkOut: string, currency: string, language: string,
    adults: int, children: int, childrenAges: Option<string>, discountOnly: bool, output: Option<string>)

  function HotelQueryOf(args: HotelArgs, ids: seq<int>, ages: Option<seq<int>>): HotelQuery {
    HotelQuery(ids, args.checkIn, args.checkOut, args.currency, args.language, args.adults,
               args.children, ages, args.discountOnly)
  }

  /** `main()` of the hotel search: the dates, then the ids, then the ages,
      then the client and one search, with today's date, the environment's
      credentials and the transport outcomes as inputs. */
  function HotelMain(args: HotelArgs, today: Date, envSiteId: Option<string>, envApiKey: Option<string>,
                     outcomes: seq<Outcome>): (r: Run)
    requires 3 <= |outcomes|
    ensures r.exitCode == 0 || r.exitCode == 1
    ensures r.call.None? <==>
              !DateChecks(args.checkIn, args.checkOut, today)
              || ParseHotelIds(args.hotelIds).Failure?
              || ParseChildrenAges(args.childrenAges, args.children).Failure?
              || NewClient(None, None, envSiteId, envApiKey).Failure?
    ensures r.call.Some? ==>
              r.call.value == HotelSearchCall(HotelQueryOf(args, ParseHotelIds(args.hotelIds).value,
                                                           ParseChildrenAges(args.childrenAges, args.children).value),
                                              outcomes)
              && r == Finish(r.call.value, args.output, FormatHotelData)
    ensures r.call.None? ==> r.exitCode == 1
  {
    if !DateChecks(args.checkIn, args.checkOut, today) then Run(1, None, [], NoOutput)
    else
      match ParseHotelIds(args.hotelIds)
      case Failure(_) => Run(1, None, [], NoOutput)
      case Success(ids) =>
        match ParseChildrenAges(args.childrenAges, args.children)
        case Failure(_) => Run(1, None, [], NoOutput)
        case Success(ages) =>
          if NewClient(None, None, envSiteId, envApiKey).Failure? then Run(1, None, [], NoOutput)
          else Finish(HotelSearchCall(HotelQueryOf(args, ids, ages), outcomes), args.output, FormatHotelData)
  }

  /** A search `main` starts is never refused by the client: the ids are
      never empty and the ages always match. Such a run exits 0 exactly
      when the request returned a body, every hotel of it displays and the
      output suffix is accepted. */
  lemma HotelSearchNeverRejected(args: HotelArgs, today: Date, envSiteId: Option<string>,
                                 envApiKey: Option<string>, outcomes: seq<Outcome>)
    requires 3 <= |outcomes|
    ensures var r := HotelMain(args, today, envSiteId, envApiKey, outcomes);
            r.call.Some? ==>
              && r.call.value.Sent?
              && r.call.value.payload.target == HotelIds(ParseHotelIds(args.hotelIds).value)
              && (r.exitCode == 0 <==>
                    && r.call.value.exchange.result.Returned?
                    && AllDisplayable(FormatResults(r.call.value.exchange.result.data, FormatHotelData))
                    && OutputKind(args.output) != BadSuffix)
  {
    var ages := ParseChildrenAges(args.childrenAges, args.children);
    if ages.Success? && ages.value.Some? {
      ParseIntListNonEmpty(args.childrenAges.value);
    }
  }

  /** Malformed ids stop the run before any request, even when the dates
      are fine. */
  lemma BadHotelIdsStopEarly(args: HotelArgs, today: Date, envSiteId: Option<string>,
                             envApiKey: Option<string>, outcomes: seq<Outcome>)
    requires 3 <= |outcomes|
    requires ParseIntList(args.hotelIds).None?
    ensures HotelMain(args, today, envSiteId, envApiKey, outcomes) == Run(1, None, [], NoOutput)
  {
  }
}
