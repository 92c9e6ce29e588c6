/** The blog-link verifier: reading a property id out of an Agoda link,
    choosing random stays in the coming months, the six-probe availability
    check (three 2-night stays, then three 1-night stays over the same three
    months), the JSON summary of a run and the exit code.

    The clock, the random generator and the network are inputs: each probe
    environment carries today's date, one random roll per probe and the
    transport outcomes each probe's POSTs receive. */
module BlogLinks {
  import opened Values
  import opened Text
  import opened Calendar
  import opened AgodaClient

  // ---------------------------------------------------------------------
  // Property ids

  /** The decoded query of a link, in order of appearance. */
  type QueryParams = seq<(string, string)>

  /** `parse_qs(query)[key][0]`: the first value given for `key`. */
  function FirstValue(params: QueryParams, key: string): (r: Option<string>)
    ensures r.None? <==> forall i :: 0 <= i < |params| ==> params[i].0 != key
    ensures r.Some? ==> exists i :: 0 <= i < |params| && params[i] == (key, r.value)
                                    && forall j :: 0 <= j < i ==> params[j].0 != key
  {
    if params == [] then None
    else if params[0].0 == key then Some(params[0].1)
    else
      var r := FirstValue(params[1..], key);
      assert r.Some? ==> exists i :: 0 <= i < |params[1..]| && params[1..][i] == (key, r.value)
                                  && forall j :: 0 <= j < i ==> params[1..][j].0 != key;
      assert r.Some? ==> exists i :: 1 <= i < |params| && params[i] == (key, r.value)
                                     && forall j :: 0 <= j < i ==> params[j].0 != key by {
        if r.Some? {
          var i :| 0 <= i < |params[1..]| && params[1..][i] == (key, r.value)
                   && forall j :: 0 <= j < i ==> params[1..][j].0 != key;
          assert params[i + 1] == (key, r.value);
          assert forall j :: 0 <= j < i + 1 ==> params[j].0 != key by {
            forall j | 0 <= j < i + 1 ensures params[j].0 != key {
              if 0 < j { assert params[j] == params[1..][j - 1]; }
            }
          }
        }
      }
      r
  }

  /** `'hotelid[=:](\d+)'` matches, ignoring case, at position `i`. */
  predicate MatchAt(url: string, i: nat) {
    && i + 9 <= |url|
    && LowerAscii(url[i..i + 7]) == "hotelid"
    && (url[i + 7] == '=' || url[i + 7] == ':')
    && IsDigit(url[i + 8])
  }

  /** The length of the run of digits starting at `j`. */
  function DigitRun(s: string, j: nat): (n: nat)
    requires j <= |s|
    ensures j + n <= |s| && AllDigits(s[j..j + n])
    ensures j + n == |s| || !IsDigit(s[j + n])
    decreases |s| - j
  {
    if j < |s| && IsDigit(s[j]) then
      var n := DigitRun(s, j + 1);
      assert s[j..j + 1 + n] == [s[j]] + s[j + 1..j + 1 + n];
      1 + n
    else 0
  }

  /** The integer of the greedy `\d+` group of a match at `i`. */
  function MatchValue(url: string, i: nat): nat
    requires MatchAt(url, i)
  {
    DigitsValue(url[i + 8..i + 8 + DigitRun(url, i + 8)])
  }

  /** `re.search(...)` from position `i` on: the leftmost match. */
  function SearchFrom(url: string, i: nat): Option<int>
    decreases |url| - i
  {
    if |url| < i + 9 then None
    else if MatchAt(url, i) then Some(MatchValue(url, i))
    else SearchFrom(url, i + 1)
  }

  lemma {:induction false} SearchFromLeftmost(url: string, from: nat)
    ensures SearchFrom(url, from).None? <==> forall i: nat :: from <= i ==> !MatchAt(url, i)
    ensures SearchFrom(url, from).Some? ==>
      exists i: nat :: from <= i && MatchAt(url, i) && SearchFrom(url, from) == Some(MatchValue(url, i))
                       && forall j: nat :: from <= j < i ==> !MatchAt(url, j)
    decreases |url| - from
  {
    if |url| >= from + 9 && !MatchAt(url, from) {
      SearchFromLeftmost(url, from + 1);
      assert forall i: nat :: from <= i && MatchAt(url, i) ==> from + 1 <= i;
    }
  }

  /** The pattern search finds the leftmost match, and only a match. */
  lemma SearchFindsLeftmostMatch(url: string, i: nat)
    requires MatchAt(url, i) && forall j: nat :: j < i ==> !MatchAt(url, j)
    ensures SearchFrom(url, 0) == Some(MatchValue(url, i))
  {
    SearchFromLeftmost(url, 0);
    var k: nat :| MatchAt(url, k) && SearchFrom(url, 0) == Some(MatchValue(url, k))
                  && forall j: nat :: j < k ==> !MatchAt(url, j);
    assert k == i;
  }

  /** `'hotelid' in url.lower()` */
  predicate MentionsHotelId(url: string) {
    exists i :: 0 <= i <= |url| - 7 && WordAt(url, i)
  }

  predicate WordAt(url: string, i: int) {
    0 <= i && i + 7 <= |url| && LowerAscii(url[i..i + 7]) == "hotelid"
  }

  /** `extract_property_id(url)`: the first of `selectedproperty`, `hid`
      and `hotelId` that the query carries decides (a value that is not an
      integer gives `None`, with no fallback); otherwise the pattern
      `hotelid[=:]digits`, ignoring case, anywhere in the link. */
  function ExtractPropertyId(url: string, params: QueryParams): Option<int> {
    match FirstValue(params, "selectedproperty")
    case Some(v) => ParseInt(v)
    case None =>
      match FirstValue(params, "hid")
      case Some(v) => ParseInt(v)
      case None =>
        match FirstValue(params, "hotelId")
        case Some(v) => ParseInt(v)
        case None => if MentionsHotelId(url) then SearchFrom(url, 0) else None
  }

  /** The key order: a higher key decides whatever the lower keys hold. */
  lemma ExtractionPriority(url: string, params: QueryParams)
    ensures FirstValue(params, "selectedproperty").Some? ==>
      ExtractPropertyId(url, params) == ParseInt(FirstValue(params, "selectedproperty").value)
    ensures FirstValue(params, "selectedproperty").None? && FirstValue(params, "hid").Some? ==>
      ExtractPropertyId(url, params) == ParseInt(FirstValue(params, "hid").value)
    ensures FirstValue(params, "selectedproperty").None? && FirstValue(params, "hid").None?
            && FirstValue(params, "hotelId").Some? ==>
      ExtractPropertyId(url, params) == ParseInt(FirstValue(params, "hotelId").value)
  {
  }

  /** A bad value under the first key is not rescued by the other keys or
      by the pattern. */
  lemma NoFallbackAfterBadValue(url: string, value: string, rest: QueryParams)
    requires ParseInt(value).None?
    ensures ExtractPropertyId(url, [("selectedproperty", value)] + rest) == None
  {
    assert FirstValue([("selectedproperty", value)] + rest, "selectedproperty") == Some(value);
  }

  /** A key value that is an integer's text gives that integer. */
  lemma ExtractFromKey(url: string, key: string, id: int, rest: QueryParams)
    requires key == "selectedproperty" || key == "hid" || key == "hotelId"
    requires forall i :: 0 <= i < |rest| ==> rest[i].0 != "selectedproperty" && rest[i].0 != "hid"
    ensures ExtractPropertyId(url, [(key, IntToString(id))] + rest) == Some(id)
  {
    var params := [(key, IntToString(id))] + rest;
    assert params[1..] == rest;
    assert FirstValue(params, key) == Some(IntToString(id));
    ParseIntRoundTrip(id);
    if key == "hid" || key == "hotelId" {
      assert FirstValue(params, "selectedproperty").None?;
    }
    if key == "hotelId" {
      assert FirstValue(params, "hid").None?;
    }
  }

  /** Without any of the three keys the link text itself is searched, and the
      prefilter on `'hotelid'` never hides a match. */
  lemma ExtractFromPattern(url: string, params: QueryParams)
    requires forall i :: 0 <= i < |params| ==> params[i].0 !in ["selectedproperty", "hid", "hotelId"]
    ensures ExtractPropertyId(url, params) == SearchFrom(url, 0)
  {
    assert FirstValue(params, "selectedproperty").None?;
    assert FirstValue(params, "hid").None?;
    assert FirstValue(params, "hotelId").None?;
    SearchFromLeftmost(url, 0);
    if SearchFrom(url, 0).Some? {
      var i: nat :| MatchAt(url, i) && SearchFrom(url, 0) == Some(MatchValue(url, i));
      assert WordAt(url, i);
    }
  }

  // ---------------------------------------------------------------------
  // Random stays

  /** A stay: check-in, check-out and the number of nights. */
  datatype Stay = Stay(checkIn: Date, checkOut: Date, nights: nat)

  /** `max(1, last_day - num_nights)` */
  function MaxCheckInDay(year: int, month: int, nights: nat): (m: int)
    requires 1 <= month <= 12
    ensures 1 <= m <= DaysInMonth(year, month)
    ensures nights < DaysInMonth(year, month) ==> m == DaysInMonth(year, month) - nights
  {
    var last := LastDayOfMonth(year, month);
    if last - nights < 1 then 1 else last - nights
  }

  /** The stay `generate_random_dates` builds when `random.randint(1, max)`
      comes out as `1 + roll % max`. The check-in day lies in
      `[1, max(1, last_day - nights)]`, the check-out is `nights` days later,
      and stays shorter than 28 nights end in the same month. */
  function RandomStay(year: int, month: int, nights: nat, roll: nat): (s: Stay)
    requires 1 <= month <= 12
    ensures ValidDate(s.checkIn) && ValidDate(s.checkOut) && s.nights == nights
    ensures s.checkIn.year == year && s.checkIn.month == month
    ensures 1 <= s.checkIn.day <= MaxCheckInDay(year, month, nights)
    ensures s.checkOut == AddDays(s.checkIn, nights)
    ensures nights < 28 ==> s.checkOut == Date(year, month, s.checkIn.day + nights)
                            && s.checkOut.day <= DaysInMonth(year, month)
  {
    var checkIn := Date(year, month, 1 + roll % MaxCheckInDay(year, month, nights));
    if nights < 28 then
      AddDaysWithinMonth(checkIn, nights);
      Stay(checkIn, AddDays(checkIn, nights), nights)
    else Stay(checkIn, AddDays(checkIn, nights), nights)
  }

  /** `generate_random_dates(year, month, num_nights)`: the two dates as
      `%Y-%m-%d` text, which read back as the stay's dates. */
  function GenerateRandomDates(year: int, month: int, nights: nat, roll: nat): (r: (string, string))
    requires 1 <= month <= 12 && 1 <= year
    requires year < 9999 || month < 12
    requires RandomStay(year, month, nights, roll).checkOut.year <= 9999
    ensures |r.0| == 10 && |r.1| == 10
  {
    var s := RandomStay(year, month, nights, roll);
    AddDaysIsLaterOrSame(s.checkIn, nights);
    (FormatIsoDate(s.checkIn), FormatIsoDate(s.checkOut))
  }

  /** The two texts read back (`strptime`) as the stay's dates. */
  lemma GeneratedDatesParse(year: int, month: int, nights: nat, roll: nat)
    requires 1 <= month <= 12 && 1 <= year
    requires year < 9999 || month < 12
    requires RandomStay(year, month, nights, roll).checkOut.year <= 9999
    ensures ParseIsoDate(GenerateRandomDates(year, month, nights, roll).0) == Some(RandomStay(year, month, nights, roll).checkIn)
    ensures ParseIsoDate(GenerateRandomDates(year, month, nights, roll).1) == Some(RandomStay(year, month, nights, roll).checkOut)
  {
    var s := RandomStay(year, month, nights, roll);
    AddDaysIsLaterOrSame(s.checkIn, nights);
    FormatParseRoundTrip(s.checkIn);
    FormatParseRoundTrip(s.checkOut);
  }

  lemma AddDaysIsLaterOrSame(d: Date, n: nat)
    requires ValidDate(d)
    ensures d.year <= AddDays(d, n).year
  {
    if n > 0 {
      AddDaysIsLater(d, n);
    }
  }

  /** The `dates_tried` entry of an attempt. */
  function AttemptText(dates: (string, string), nights: nat): string {
    dates.0 + " to " + dates.1 + (if nights == 2 then " (2 nights)" else " (1 night)")
  }

  // ---------------------------------------------------------------------
  // Months

  /** The month after `year-month`, December wrapping to January. */
  function NextMonth(year: int, month: int): (r: (int, int))
    requires 1 <= month <= 12
    ensures 1 <= r.1 <= 12
    ensures r.0 * 12 + r.1 == year * 12 + month + 1
  {
    if month == 12 then (year + 1, 1) else (year, month + 1)
  }

  /** The month `k` months after `year-month`, with year rollover. */
  function MonthsAfter(year: int, month: int, k: nat): (r: (int, int))
    requires 1 <= month <= 12
    ensures 1 <= r.1 <= 12
    ensures r.0 * 12 + r.1 == year * 12 + month + k
    ensures k < 12 ==> year <= r.0 <= year + 1
    decreases k
  {
    if k == 0 then (year, month)
    else
      var prev := MonthsAfter(year, month, k - 1);
      NextMonth(prev.0, prev.1)
  }

  /** A month is determined by its index `year * 12 + month`. */
  lemma MonthIndexUnique(y1: int, m1: int, y2: int, m2: int)
    requires 1 <= m1 <= 12 && 1 <= m2 <= 12 && y1 * 12 + m1 == y2 * 12 + m2
    ensures y1 == y2 && m1 == m2
  {
  }

  /** The first month probed: the month after today's, December wrapping
      to January of the next year. */
  function StartMonth(today: Date): (r: (int, int))
    requires 1 <= today.month <= 12
    ensures today.month < 12 ==> r == (today.year, today.month + 1)
    ensures today.month == 12 ==> r == (today.year + 1, 1)
  {
    NextMonth(today.year, today.month)
  }

  /** The year-rollover loop of each attempt. */
  method RollOver(year: int, month: int) returns (y: int, m: int)
    requires 1 <= month
    ensures 1 <= m <= 12
    ensures y * 12 + m == year * 12 + month
  {
    y, m := year, month;
    while m > 12
      invariant 1 <= m
      invariant y * 12 + m == year * 12 + month
      decreases m
    {
      m := m - 12;
      y := y + 1;
    }
  }

  // ---------------------------------------------------------------------
  // The six probes

  /** What a probe learned: a first hotel, no results, or an error text. */
  datatype Reply = Hit(hotel: Hotel) | Miss | Failed(text: string)

  /** How a probe's search ended: `results` non-empty, empty or missing, or
      anything raised (`str(e)`). */
  function ReplyOf(c: SearchCall): Reply {
    match c
    case Rejected(m) => Failed(m)
    case Sent(_, x) =>
      match x.result
      case Returned(data) =>
        if data.results.Some? && |data.results.value| > 0 then Hit(data.results.value[0]) else Miss
      case Raised(f) => Failed(FailureText(f))
  }

  /** The inputs of one verification: the id and search settings, the
      clock reading, the six random rolls and the outcomes each probe's
      POSTs receive. */
  datatype Probe = Probe(propertyId: int, currency: string, adults: int, today: Date,
                         rolls: seq<nat>, scripts: seq<seq<Outcome>>)

  predicate ValidProbe(p: Probe) {
    && ValidDate(p.today) && 1 <= p.today.year <= 9998
    && |p.rolls| == 6 && |p.scripts| == 6
    && forall k :: 0 <= k < 6 ==> 3 <= |p.scripts[k]|
  }

  /** Probes 0-2 ask for 2 nights, probes 3-5 for 1 night. */
  function ProbeNights(k: nat): nat {
    if k < 3 then 2 else 1
  }

  /** Probes `k` and `k + 3` look at the same month: the start month plus `k` for `k < 3`. */
  function ProbeOffset(k: nat): nat {
    if k < 3 then k else k - 3
  }

  function ProbeMonth(today: Date, k: nat): (r: (int, int))
    requires 1 <= today.month <= 12 && k < 6
    ensures 1 <= r.1 <= 12
    ensures today.year <= r.0 <= today.year + 1
  {
    var start := StartMonth(today);
    MonthsAfter(start.0, start.1, ProbeOffset(k))
  }

  function ProbeDates(p: Probe, k: nat): (string, string)
    requires ValidProbe(p) && k < 6
  {
    var month := ProbeMonth(p.today, k);
    GenerateRandomDates(month.0, month.1, ProbeNights(k), p.rolls[k])
  }

  /** The `hotel_search` arguments of probe `k` (defaults for the rest). */
  function ProbeQuery(p: Probe, k: nat): HotelQuery
    requires ValidProbe(p) && k < 6
  {
    var dates := ProbeDates(p, k);
    HotelQuery([p.propertyId], dates.0, dates.1, p.currency, "en-us", p.adults, 0, None, false)
  }

  function ProbeReply(p: Probe, k: nat): Reply
    requires ValidProbe(p) && k < 6
  {
    ReplyOf(HotelSearchCall(ProbeQuery(p, k), p.scripts[k]))
  }

  /** The `dates_tried` entry of probe `k`. */
  function ProbeText(p: Probe, k: nat): string
    requires ValidProbe(p) && k < 6
  {
    AttemptText(ProbeDates(p, k), ProbeNights(k))
  }

  /** What each of the six probes would reply. */
  function Replies(p: Probe): (r: seq<Reply>)
    requires ValidProbe(p)
    ensures |r| == 6
  {
    seq(6, k requires 0 <= k < 6 && ValidProbe(p) => ProbeReply(p, k))
  }

  /** The `dates_tried` entries of the six probes. */
  function Texts(p: Probe): (r: seq<string>)
    requires ValidProbe(p)
    ensures |r| == 6
  {
    seq(6, k requires 0 <= k < 6 && ValidProbe(p) => ProbeText(p, k))
  }

  /** The index of the first hit, or the length when there is none. */
  function FirstHit(replies: seq<Reply>): (k: nat)
    ensures k <= |replies|
    ensures forall j :: 0 <= j < k ==> !replies[j].Hit?
    ensures k < |replies| ==> replies[k].Hit?
  {
    if replies == [] then 0
    else if replies[0].Hit? then 0
    else 1 + FirstHit(replies[1..])
  }

  /** The index of the last failed reply, or -1 when none failed. */
  function LastFailed(replies: seq<Reply>): (k: int)
    ensures -1 <= k < |replies|
    ensures k == -1 <==> forall j :: 0 <= j < |replies| ==> !replies[j].Failed?
    ensures 0 <= k ==> replies[k].Failed? && forall i :: k < i < |replies| ==> !replies[i].Failed?
  {
    if replies == [] then -1
    else if replies[|replies| - 1].Failed? then |replies| - 1
    else
      var k := LastFailed(replies[..|replies| - 1]);
      assert forall j :: 0 <= j < |replies| - 1 ==> replies[..|replies| - 1][j] == replies[j];
      k
  }

  /** `last_error`: the text of the last failure among the replies, or
      `None` when none failed. */
  function LastError(replies: seq<Reply>): (r: Option<string>)
    ensures r.None? <==> forall j :: 0 <= j < |replies| ==> !replies[j].Failed?
    ensures r.Some? ==> exists j :: 0 <= j < |replies| && replies[j] == Failed(r.value)
                                    && forall i :: j < i < |replies| ==> !replies[i].Failed?
  {
    var k := LastFailed(replies);
    if k < 0 then None else Some(replies[k].text)
  }

  datatype Status = Available | Unavailable | Error

  /** `property_id`: an id, or 'N/A' for a link whose id could not be read. */
  datatype PropertyRef = PropertyId(id: int) | NotResolved

  /** The result record of `verify_property_availability`. */
  datatype Verification = Verification(
    propertyId: PropertyRef,
    status: Status,
    actualHotelName: Value,
    successfulDates: Option<string>,
    datesTried: seq<string>,
    dailyRate: Value,
    currency: string,
    errorMessage: Option<string>)

  /** The result for attempts that logged `texts` and got `replies`: the
      first hit decides (hotel name, default 'N/A', and daily rate of the
      first result, its dates, no error message) and the attempts up to it
      stay logged; with no hit every attempt is logged, the status stays
      Unavailable and the error message is the last error seen, if any. */
  function Decide(id: int, currency: string, texts: seq<string>, replies: seq<Reply>): Verification
    requires |texts| == |replies|
  {
    var k := FirstHit(replies);
    if k < |replies| then
      var hotel := replies[k].hotel;
      Verification(PropertyId(id), Available, Get(hotel, "hotelName", Str("N/A")),
                   Some(texts[k]), texts[..k + 1], Get(hotel, "dailyRate", Null), currency, None)
    else
      Verification(PropertyId(id), Unavailable, Null, None, texts, Null, currency, LastError(replies))
  }

  /** The number of searches made: up to and including the first hit. */
  function Calls(replies: seq<Reply>): nat {
    var k := FirstHit(replies);
    if k < |replies| then k + 1 else |replies|
  }

  /** The result of verifying `p`'s property. */
  function Verdict(p: Probe): Verification
    requires ValidProbe(p)
  {
    Decide(p.propertyId, p.currency, Texts(p), Replies(p))
  }

  /** The number of `hotel_search` calls made verifying `p`'s property. */
  function CallsMade(p: Probe): nat
    requires ValidProbe(p)
  {
    Calls(Replies(p))
  }

  /** A prefix whose last reply is its only hit locates the first hit. */
  lemma {:induction false} FirstHitOfPrefix(replies: seq<Reply>, n: nat)
    requires 0 < n <= |replies|
    requires forall j :: 0 <= j < n - 1 ==> !replies[j].Hit?
    requires replies[n - 1].Hit?
    ensures FirstHit(replies) == n - 1
    decreases n
  {
    if 1 < n {
      FirstHitOfPrefix(replies[1..], n - 1);
    }
  }

  /** The result when the replies begin with `seen`, whose last reply is
      its only hit. */
  lemma DecideAtHit(id: int, currency: string, texts: seq<string>, replies: seq<Reply>, seen: seq<Reply>, hotel: Hotel)
    requires |texts| == |replies| && 0 < |seen| <= |replies| && seen == replies[..|seen|]
    requires forall j :: 0 <= j < |seen| - 1 ==> !seen[j].Hit?
    requires seen[|seen| - 1] == Hit(hotel)
    ensures Decide(id, currency, texts, replies)
            == Verification(PropertyId(id), Available, Get(hotel, "hotelName", Str("N/A")), Some(texts[|seen| - 1]),
                            texts[..|seen|], Get(hotel, "dailyRate", Null), currency, None)
    ensures Calls(replies) == |seen|
  {
    FirstHitOfPrefix(replies, |seen|);
  }

  /** The result when no attempt hits. */
  lemma DecideAfterMisses(id: int, currency: string, texts: seq<string>, replies: seq<Reply>)
    requires |texts| == |replies|
    requires forall j :: 0 <= j < |replies| ==> !replies[j].Hit?
    ensures Decide(id, currency, texts, replies)
            == Verification(PropertyId(id), Unavailable, Null, None, texts, Null, currency, LastError(replies))
    ensures Calls(replies) == |replies|
  {
  }

  /** The status is Available exactly when some attempt hit, and the
      verifier itself never reports Error. */
  lemma DecideStatus(id: int, currency: string, texts: seq<string>, replies: seq<Reply>)
    requires |texts| == |replies|
    ensures Decide(id, currency, texts, replies).status == Available
            <==> exists j :: 0 <= j < |replies| && replies[j].Hit?
    ensures Decide(id, currency, texts, replies).status != Error
  {
    var k := FirstHit(replies);
    if k == |replies| {
      assert forall j :: 0 <= j < |replies| ==> !replies[j].Hit?;
    }
  }

  /** The searches stop at the first hit: every search before the last one
      made missed, and the last one hit unless all were made. */
  lemma CallsStopAtFirstHit(replies: seq<Reply>)
    ensures Calls(replies) <= |replies|
    ensures forall j :: 0 <= j < Calls(replies) - 1 ==> !replies[j].Hit?
    ensures Calls(replies) < |replies| ==> 0 < Calls(replies) && replies[Calls(replies) - 1].Hit?
    ensures 0 < |replies| ==> 0 < Calls(replies)
  {
  }

  /** The log holds one entry per search made, in order, and a successful
      stay is the last entry logged. */
  lemma DecideLog(id: int, currency: string, texts: seq<string>, replies: seq<Reply>)
    requires |texts| == |replies|
    ensures Decide(id, currency, texts, replies).datesTried == texts[..Calls(replies)]
    ensures |Decide(id, currency, texts, replies).datesTried| == Calls(replies)
    ensures Decide(id, currency, texts, replies).successfulDates.Some? ==>
              Decide(id, currency, texts, replies).successfulDates
              == Some(texts[Calls(replies) - 1])
  {
    if FirstHit(replies) == |replies| {
      assert texts[..|texts|] == texts;
    }
  }

  /** An error message survives only when no attempt hit and some attempt
      failed, and it is then the text of the last failure; a hit clears it. */
  lemma DecideErrorMessage(id: int, currency: string, texts: seq<string>, replies: seq<Reply>)
    requires |texts| == |replies|
    ensures Decide(id, currency, texts, replies).errorMessage.Some?
            <==> (forall j :: 0 <= j < |replies| ==> !replies[j].Hit?)
                 && exists j :: 0 <= j < |replies| && replies[j].Failed?
    ensures Decide(id, currency, texts, replies).status == Available ==>
              Decide(id, currency, texts, replies).errorMessage.None?
    ensures Decide(id, currency, texts, replies).status != Available ==>
              Decide(id, currency, texts, replies).errorMessage == LastError(replies)
  {
    DecideStatus(id, currency, texts, replies);
  }

  /** The 1-night phase runs only after the three 2-night probes missed. */
  lemma OneNightPhaseAfterMisses(replies: seq<Reply>)
    requires 3 <= |replies|
    ensures 3 < Calls(replies) ==> forall j :: 0 <= j < 3 ==> !replies[j].Hit?
  {
    CallsStopAtFirstHit(replies);
  }

  /** Probes `k` and `k + 3` search the same month, the first probe the month
      after today's, consecutive 2-night probes consecutive months; the
      first three stays are 2 nights and the last three 1 night. */
  lemma ProbeSchedule(today: Date, k: nat)
    requires 1 <= today.month <= 12 && k < 3
    ensures ProbeMonth(today, k) == ProbeMonth(today, k + 3)
    ensures ProbeMonth(today, 0) == StartMonth(today)
    ensures k < 2 ==> ProbeMonth(today, k + 1) == NextMonth(ProbeMonth(today, k).0, ProbeMonth(today, k).1)
    ensures ProbeNights(k) == 2 && ProbeNights(k + 3) == 1
  {
  }

  /** Each probe's dates read back as a stay of its nights inside its
      month: the check-in drawn from the month's allowed days and the
      check-out the given number of nights later, in the same month. */
  lemma ProbeDatesParse(p: Probe, k: nat)
    requires ValidProbe(p) && k < 6
    ensures var month := ProbeMonth(p.today, k);
            var stay := RandomStay(month.0, month.1, ProbeNights(k), p.rolls[k]);
            && ParseIsoDate(ProbeDates(p, k).0) == Some(stay.checkIn)
            && ParseIsoDate(ProbeDates(p, k).1) == Some(stay.checkOut)
            && stay.checkIn.year == month.0 && stay.checkIn.month == month.1
            && stay.checkOut == stay.checkIn.(day := stay.checkIn.day + ProbeNights(k))
            && stay.checkOut.day <= DaysInMonth(month.0, month.1)
  {
    var month := ProbeMonth(p.today, k);
    GeneratedDatesParse(month.0, month.1, ProbeNights(k), p.rolls[k]);
  }

  /** The entry an attempt logs names its stay length. */
  lemma ProbeTextTag(p: Probe, k: nat)
    requires ValidProbe(p) && k < 6
    ensures k < 3 ==> ProbeText(p, k) == ProbeDates(p, k).0 + " to " + ProbeDates(p, k).1 + " (2 nights)"
    ensures 3 <= k ==> ProbeText(p, k) == ProbeDates(p, k).0 + " to " + ProbeDates(p, k).1 + " (1 night)"
  {
  }

  /** Extending a prefix of `s` by the next element of `s`. */
  lemma PrefixStep<T>(s: seq<T>, prefix: seq<T>, x: T)
    requires |prefix| < |s| && prefix == s[..|prefix|] && x == s[|prefix|]
    ensures prefix + [x] == s[..|prefix| + 1]
  {
  }

  /** Probe `k` as the attempt loops compute it. */
  lemma ProbeInLoop(p: Probe, k: nat, startYear: int, startMonth: int, y: int, m: int)
    requires ValidProbe(p) && k < 6
    requires (startYear, startMonth) == StartMonth(p.today)
    requires 1 <= m <= 12 && y * 12 + m == startYear * 12 + startMonth + ProbeOffset(k)
    ensures (y, m) == ProbeMonth(p.today, k)
    ensures 1 <= y && RandomStay(y, m, ProbeNights(k), p.rolls[k]).checkOut.year <= 9999
    ensures GenerateRandomDates(y, m, ProbeNights(k), p.rolls[k]) == ProbeDates(p, k)
  {
    var r := ProbeMonth(p.today, k);
    MonthIndexUnique(y, m, r.0, r.1);
  }

  /** One attempt of either phase: roll the target month over, draw the
      stay, log its dates, and search for the property on them. */
  method RunAttempt(p: Probe, k: nat, startYear: int, startMonth: int, offset: nat, nights: nat)
    returns (text: string, reply: Reply)
    requires ValidProbe(p) && k < 6
    requires (startYear, startMonth) == StartMonth(p.today)
    requires offset == ProbeOffset(k) && nights == ProbeNights(k)
    ensures text == Texts(p)[k] && reply == Replies(p)[k]
  {
    var targetYear, targetMonth := RollOver(startYear, startMonth + offset);
    ProbeInLoop(p, k, startYear, startMonth, targetYear, targetMonth);
    var dates := GenerateRandomDates(targetYear, targetMonth, nights, p.rolls[k]);
    text := dates.0 + " to " + dates.1 + (if nights == 2 then " (2 nights)" else " (1 night)");
    var query := HotelQuery([p.propertyId], dates.0, dates.1, p.currency, "en-us", p.adults, 0, None, false);
    var call := HotelSearch(query, p.scripts[k]);
    reply := ReplyOf(call);
  }

  /** The state after `n` attempts that all missed: the record still says
      Unavailable with no error message, the `n` attempts' dates are logged,
      `seen` holds their replies and `lastError` the last error among them. */
  ghost predicate Pending(p: Probe, n: nat, result: Verification, lastError: Option<string>, seen: seq<Reply>)
    requires ValidProbe(p)
  {
    && n <= 6 && |seen| == n && |result.datesTried| == n
    && result == Verification(PropertyId(p.propertyId), Unavailable, Null, None, result.datesTried, Null,
                              p.currency, None)
    && result.datesTried == Texts(p)[..n] && seen == Replies(p)[..n]
    && (forall j :: 0 <= j < n ==> !seen[j].Hit?)
    && lastError == LastError(seen)
  }

  /** The record an attempt that hits returns: hotel name (default 'N/A')
      and daily rate of the first result, and the attempt's dates. */
  function HitRecord(result: Verification, text: string, hotel: Hotel): Verification {
    result.(status := Available, actualHotelName := Get(hotel, "hotelName", Str("N/A")),
            successfulDates := Some(text), dailyRate := Get(hotel, "dailyRate", Null), errorMessage := None)
  }

  /** A hit on attempt `k` after `k` misses decides the verification. */
  lemma PendingThenHit(p: Probe, k: nat, result: Verification, lastError: Option<string>, seen: seq<Reply>,
                       hotel: Hotel)
    requires ValidProbe(p) && k < 6 && Pending(p, k, result, lastError, seen)
    requires Replies(p)[k] == Hit(hotel)
    ensures HitRecord(result.(datesTried := result.datesTried + [Texts(p)[k]]), Texts(p)[k], hotel) == Verdict(p)
    ensures CallsMade(p) == k + 1
  {
    var texts, replies := Texts(p), Replies(p);
    PrefixStep(texts, result.datesTried, texts[k]);
    PrefixStep(replies, seen, replies[k]);
    assert (seen + [replies[k]])[..k] == seen;
    DecideAtHit(p.propertyId, p.currency, texts, replies, seen + [replies[k]], hotel);
  }

  /** A miss or an error on attempt `k` after `k` misses: the dates are
      logged and an error text replaces the last error. */
  lemma PendingThenMiss(p: Probe, k: nat, result: Verification, lastError: Option<string>, seen: seq<Reply>)
    requires ValidProbe(p) && k < 6 && Pending(p, k, result, lastError, seen)
    requires !Replies(p)[k].Hit?
    ensures Pending(p, k + 1, result.(datesTried := result.datesTried + [Texts(p)[k]]),
                    if Replies(p)[k].Failed? then Some(Replies(p)[k].text) else lastError,
                    seen + [Replies(p)[k]])
  {
    var texts, replies := Texts(p), Replies(p);
    PrefixStep(texts, result.datesTried, texts[k]);
    PrefixStep(replies, seen, replies[k]);
    assert (seen + [replies[k]])[..k] == seen;
  }

  /** The body of both attempt loops: one attempt, then either the
      Available record (`found`) or the pending state one attempt later. */
  method Attempt(p: Probe, k: nat, startYear: int, startMonth: int, offset: nat, nights: nat,
                 result: Verification, lastError: Option<string>, ghost seen: seq<Reply>)
    returns (next: Verification, nextError: Option<string>, ghost nextSeen: seq<Reply>, found: bool)
    requires ValidProbe(p) && k < 6
    requires (startYear, startMonth) == StartMonth(p.today)
    requires offset == ProbeOffset(k) && nights == ProbeNights(k)
    requires Pending(p, k, result, lastError, seen)
    ensures found == Replies(p)[k].Hit?
    ensures found ==> next == Verdict(p) && CallsMade(p) == k + 1
    ensures !found ==> Pending(p, k + 1, next, nextError, nextSeen)
  {
    var text, reply := RunAttempt(p, k, startYear, startMonth, offset, nights);
    next := result.(datesTried := result.datesTried + [text]);
    nextError := lastError;
    nextSeen := seen + [reply];
    found := false;
    match reply {
      case Hit(hotel) =>
        next := HitRecord(next, text, hotel);
        PendingThenHit(p, k, result, lastError, seen, hotel);
        found := true;
      case Miss =>
        PendingThenMiss(p, k, result, lastError, seen);
      case Failed(t) =>
        nextError := Some(t);
        PendingThenMiss(p, k, result, lastError, seen);
    }
  }

  /** `verify_property_availability(property_id, client, currency, adults)`:
      phase A — three 2-night probes over three consecutive months; phase B,
      reached only if no 2-night probe hit — three 1-night probes over the
      same months. Each attempt logs its dates before searching; the first
      hit returns at once; an error only replaces the last error text.
      `seen` is a ghost log of the replies so far. */
  method VerifyPropertyAvailability(p: Probe) returns (v: Verification, calls: nat)
    requires ValidProbe(p)
    ensures v == Verdict(p)
    ensures calls == CallsMade(p)
  {
    var startYear := p.today.year;
    var startMonth := p.today.month + 1;
    if startMonth > 12 {
      startMonth := 1;
      startYear := startYear + 1;
    }
    assert (startYear, startMonth) == StartMonth(p.today);
    var result := Verification(PropertyId(p.propertyId), Unavailable, Null, None, [], Null, p.currency, None);
    var lastError: Option<string> := None;
    calls := 0;
    ghost var seen: seq<Reply> := [];
    var found: bool;

    for attempt := 1 to 4
      invariant calls == attempt - 1
      invariant Pending(p, calls, result, lastError, seen)
    {
      result, lastError, seen, found := Attempt(p, attempt - 1, startYear, startMonth, attempt - 1, 2,
                                                result, lastError, seen);
      calls := calls + 1;
      if found {
        return result, calls;
      }
    }

    for attempt := 4 to 7
      invariant calls == attempt - 1
      invariant Pending(p, calls, result, lastError, seen)
    {
      result, lastError, seen, found := Attempt(p, attempt - 1, startYear, startMonth, attempt - 4, 1,
                                                result, lastError, seen);
      calls := calls + 1;
      if found {
        return result, calls;
      }
    }

    assert Texts(p)[..6] == Texts(p) && Replies(p)[..6] == Replies(p);
    DecideAfterMisses(p.propertyId, p.currency, Texts(p), seen);
    result := result.(errorMessage := lastError);
    return result, calls;
  }

  /** A hit on the fourth attempt after three failures: Available, four
      searches and four logged entries, and the earlier errors cleared. */
  lemma HitAfterFailures(id: int, currency: string, texts: seq<string>, replies: seq<Reply>, hotel: Hotel)
    requires |texts| == |replies| && 4 <= |replies|
    requires replies[0].Failed? && replies[1].Failed? && replies[2].Failed? && replies[3] == Hit(hotel)
    ensures Decide(id, currency, texts, replies)
            == Verification(PropertyId(id), Available, Get(hotel, "hotelName", Str("N/A")), Some(texts[3]),
                            texts[..4], Get(hotel, "dailyRate", Null), currency, None)
    ensures Calls(replies) == 4
  {
    DecideAtHit(id, currency, texts, replies, replies[..4], hotel);
  }

  /** The same for a property: the successful stay is the first 1-night one. */
  lemma LateHitClearsErrors(p: Probe, hotel: Hotel)
    requires ValidProbe(p)
    requires Replies(p)[0].Failed? && Replies(p)[1].Failed? && Replies(p)[2].Failed?
    requires Replies(p)[3] == Hit(hotel)
    ensures Verdict(p).status == Available && Verdict(p).errorMessage.None? && CallsMade(p) == 4
    ensures Verdict(p).successfulDates
            == Some(ProbeDates(p, 3).0 + " to " + ProbeDates(p, 3).1 + " (1 night)")
  {
    HitAfterFailures(p.propertyId, p.currency, Texts(p), Replies(p), hotel);
    ProbeTextTag(p, 3);
  }

  // ---------------------------------------------------------------------
  // The run: one report per link, the JSON summary and the exit code

  /** A link found in the blog post: its text, its URL and its decoded query. */
  datatype Link = Link(hyperlinkText: string, agodaUrl: string, params: QueryParams)

  /** A row of the run: the link's text and URL next to its verification. */
  datatype Report = Report(hyperlinkText: string, agodaUrl: string, verification: Verification)

  /** The clock reading, random rolls and transport outcomes one link's
      verification sees. */
  datatype ProbeEnv = ProbeEnv(today: Date, rolls: seq<nat>, scripts: seq<seq<Outcome>>)

  function ProbeFor(id: int, currency: string, adults: int, env: ProbeEnv): Probe {
    Probe(id, currency, adults, env.today, env.rolls, env.scripts)
  }

  predicate ValidEnv(env: ProbeEnv) {
    ValidProbe(ProbeFor(0, "", 0, env))
  }

  /** The fixed record of a link whose property id could not be read. */
  function Unresolved(currency: string): Verification {
    Verification(NotResolved, Error, Null, None, [], Null, currency, Some("Could not extract property ID"))
  }

  /** The report of one link: the fixed Error record when no property id
      can be read, else the verification of that id. */
  function ReportOf(link: Link, currency: string, adults: int, env: ProbeEnv): (r: Report)
    requires ValidEnv(env)
    ensures r.hyperlinkText == link.hyperlinkText && r.agodaUrl == link.agodaUrl
    ensures ExtractPropertyId(link.agodaUrl, link.params).None? <==> r.verification.propertyId.NotResolved?
  {
    match ExtractPropertyId(link.agodaUrl, link.params)
    case None => Report(link.hyperlinkText, link.agodaUrl, Unresolved(currency))
    case Some(id) =>
      Report(link.hyperlinkText, link.agodaUrl, Verdict(ProbeFor(id, currency, adults, env)))
  }

  /** The number of reports with the given status. */
  function Count(reports: seq<Report>, status: Status): (n: nat)
    ensures n <= |reports|
  {
    if reports == [] then 0
    else Count(reports[..|reports| - 1], status) + (if reports[|reports| - 1].verification.status == status then 1 else 0)
  }

  lemma {:induction false} CountZero(reports: seq<Report>, status: Status)
    ensures Count(reports, status) == 0 <==> forall i :: 0 <= i < |reports| ==> reports[i].verification.status != status
  {
    if reports != [] {
      var init := reports[..|reports| - 1];
      CountZero(init, status);
      assert forall i :: 0 <= i < |init| ==> init[i] == reports[i];
    }
  }

  /** Every report has exactly one of the three statuses. */
  lemma {:induction false} CountsAddUp(reports: seq<Report>)
    ensures Count(reports, Available) + Count(reports, Unavailable) + Count(reports, Error) == |reports|
  {
    if reports != [] {
      CountsAddUp(reports[..|reports| - 1]);
    }
  }

  /** An entry of `all_hotels`. */
  datatype HotelEntry = HotelEntry(hotelName: Value, propertyId: PropertyRef, url: string, status: Status,
                                   errorMessage: Option<string>)

  /** An entry of `unavailable_hotels`. */
  datatype IssueEntry = IssueEntry(hotelName: Value, propertyId: PropertyRef, url: string,
                                   errorMessage: Option<string>)

  /** `actual_hotel_name or hyperlink_text` */
  function HotelName(r: Report): Value {
    if Truthy(r.verification.actualHotelName) then r.verification.actualHotelName else Str(r.hyperlinkText)
  }

  function HotelEntryOf(r: Report): HotelEntry {
    HotelEntry(HotelName(r), r.verification.propertyId, r.agodaUrl, r.verification.status, r.verification.errorMessage)
  }

  predicate IsIssue(r: Report) {
    r.verification.status == Unavailable || r.verification.status == Error
  }

  /** The `unavailable_hotels` list: the issue rows, in report order. */
  function IssuesOf(reports: seq<Report>): seq<IssueEntry> {
    if reports == [] then []
    else
      var r := reports[|reports| - 1];
      IssuesOf(reports[..|reports| - 1])
      + (if IsIssue(r) then [IssueEntry(HotelName(r), r.verification.propertyId, r.agodaUrl, r.verification.errorMessage)]
         else [])
  }

  /** The filter keeps order: the issues of two runs of rows are the issues
      of the first followed by those of the second. */
  lemma {:induction false} IssuesOfAppend(a: seq<Report>, b: seq<Report>)
    ensures IssuesOf(a + b) == IssuesOf(a) + IssuesOf(b)
    decreases |b|
  {
    if b == [] {
      assert a + b == a;
    } else {
      var init := b[..|b| - 1];
      IssuesOfAppend(a, init);
      assert (a + b)[..|a + b| - 1] == a + init;
    }
  }

  /** One issue per Unavailable or Error row. */
  lemma {:induction false} IssuesOfCount(reports: seq<Report>)
    ensures |IssuesOf(reports)| == Count(reports, Unavailable) + Count(reports, Error)
  {
    if reports != [] {
      IssuesOfCount(reports[..|reports| - 1]);
    }
  }

  /** The JSON summary of a run, without its timestamp. */
  datatype Summary = Summary(
    destination: string,
    blogUrl: string,
    totalHotels: nat,
    available: nat,
    unavailable: nat,
    errors: nat,
    status: string,
    allHotels: seq<HotelEntry>,
    unavailableHotels: seq<IssueEntry>)

  /** `save_json_summary`: nothing is written for an empty run; otherwise the
      counts, 'healthy' exactly when no row is Unavailable or Error, every
      row in order, and the issue rows in order. */
  function SaveJsonSummary(blogUrl: string, destination: string, reports: seq<Report>): (r: Option<Summary>)
    ensures r.None? <==> reports == []
    ensures r.Some? ==> |r.value.allHotels| == r.value.totalHotels == |reports|
                        && (forall i :: 0 <= i < |reports| ==> r.value.allHotels[i] == HotelEntryOf(reports[i]))
  {
    if reports == [] then None
    else
      var unavailable := Count(reports, Unavailable);
      var errors := Count(reports, Error);
      Some(Summary(destination, blogUrl, |reports|, Count(reports, Available), unavailable, errors,
                   if unavailable == 0 && errors == 0 then "healthy" else "issues",
                   seq(|reports|, i requires 0 <= i < |reports| => HotelEntryOf(reports[i])),
                   IssuesOf(reports)))
  }

  /** `main`'s exit code once every link is processed: 1 when any row is
      Unavailable or Error, else 0. */
  function ExitCode(reports: seq<Report>): int {
    if Count(reports, Unavailable) > 0 || Count(reports, Error) > 0 then 1 else 0
  }

  /** The exit code is 0 exactly when every row is Available, which is
      exactly when the summary says 'healthy'; the summary's counts add up
      and its issue list has one entry per bad row. */
  lemma SummaryAndExitCode(blogUrl: string, destination: string, reports: seq<Report>)
    requires reports != []
    ensures var s := SaveJsonSummary(blogUrl, destination, reports).value;
            && (ExitCode(reports) == 0 <==> forall i :: 0 <= i < |reports| ==> reports[i].verification.status == Available)
            && (ExitCode(reports) == 0 <==> s.status == "healthy")
            && s.available + s.unavailable + s.errors == s.totalHotels
            && |s.unavailableHotels| == s.unavailable + s.errors
  {
    CountZero(reports, Unavailable);
    CountZero(reports, Error);
    CountsAddUp(reports);
    IssuesOfCount(reports);
  }

  /** A link whose id cannot be read is never probed and always counts as
      an issue. */
  lemma UnresolvedLinkFails(links: seq<Link>, currency: string, adults: int, envs: seq<ProbeEnv>, i: nat,
                            reports: seq<Report>)
    requires |envs| == |links| == |reports| && i < |links|
    requires forall j :: 0 <= j < |links| ==> ValidEnv(envs[j])
    requires forall j :: 0 <= j < |links| ==> reports[j] == ReportOf(links[j], currency, adults, envs[j])
    requires ExtractPropertyId(links[i].agodaUrl, links[i].params).None?
    ensures reports[i].verification == Unresolved(currency)
    ensures ExitCode(reports) == 1
  {
    CountZero(reports, Error);
  }

  /** One link of `main`'s loop: read the id, then verify it or record the
      fixed Error row without any search. `calls` counts the searches made. */
  method ProcessLink(link: Link, currency: string, adults: int, env: ProbeEnv) returns (report: Report, calls: nat)
    requires ValidEnv(env)
    ensures report == ReportOf(link, currency, adults, env)
    ensures ExtractPropertyId(link.agodaUrl, link.params).None? ==> calls == 0
    ensures ExtractPropertyId(link.agodaUrl, link.params).Some? ==>
              calls == CallsMade(ProbeFor(ExtractPropertyId(link.agodaUrl, link.params).value, currency, adults, env))
  {
    var id := ExtractPropertyId(link.agodaUrl, link.params);
    match id {
      case None =>
        report := Report(link.hyperlinkText, link.agodaUrl, Unresolved(currency));
        calls := 0;
      case Some(pid) =>
        var v;
        v, calls := VerifyPropertyAvailability(ProbeFor(pid, currency, adults, env));
        report := Report(link.hyperlinkText, link.agodaUrl, v);
    }
  }

  /** The per-link part of `main`: no links exit 0 before a client is built;
      missing credentials make the client constructor raise, caught as exit
      1; otherwise each link is reported in order (an id that cannot be read
      gives the fixed Error record, else the id is verified) and the exit
      code follows the rows. `envSiteId`/`envApiKey` are the environment's
      credentials. */
  method VerifyLinks(links: seq<Link>, envSiteId: Option<string>, envApiKey: Option<string>,
                     currency: string, adults: int, envs: seq<ProbeEnv>)
    returns (exitCode: int, reports: seq<Report>)
    requires |envs| == |links| && forall j :: 0 <= j < |envs| ==> ValidEnv(envs[j])
    ensures links == [] ==> exitCode == 0 && reports == []
    ensures links != [] && NewClient(None, None, envSiteId, envApiKey).Failure? ==> exitCode == 1 && reports == []
    ensures links != [] && NewClient(None, None, envSiteId, envApiKey).Success? ==>
              && |reports| == |links|
              && (forall j :: 0 <= j < |links| ==> reports[j] == ReportOf(links[j], currency, adults, envs[j]))
              && exitCode == ExitCode(reports)
  {
    reports := [];
    if links == [] {
      return 0, reports;
    }
    var client := NewClient(None, None, envSiteId, envApiKey);
    if client.Failure? {
      return 1, reports;
    }
    for i := 0 to |links|
      invariant |reports| == i
      invariant forall j :: 0 <= j < i ==> reports[j] == ReportOf(links[j], currency, adults, envs[j])
    {
      var report, _ := ProcessLink(links[i], currency, adults, envs[i]);
      reports := reports + [report];
    }
    var unavailable := Count(reports, Unavailable);
    var errors := Count(reports, Error);
    if unavailable > 0 || errors > 0 {
      return 1, reports;
    }
    return 0, reports;
  }
}
