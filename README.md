# Blog hotel links verifier, modelled in Dafny

The system checks that the Agoda hotel links in travel-blog posts still
lead to bookable hotels. It is made of:

- an Agoda affiliate API client: credentials, a retrying POST, and the city
  and hotel search payloads;
- a verifier that takes each link's property id and probes availability
  over six date ranges in the coming months, writing a per-destination
  summary and an exit code;
- two command-line search scripts;
- a dashboard that aggregates the summaries.

The model has one module per source file. There are also three shared
modules:

- `Values`: `Option`, `Result`, JSON scalars, `dict.get` and truthiness;
- `Text`: Python's `int()`/`str()` on integers, `strip`, `split` and `join`,
  and comma-separated integer lists;
- `Calendar`: Gregorian dates, `timedelta` days, and `strftime`/`strptime`
  with `%Y-%m-%d`.

The network, the clock and the random day choice are inputs:

- each POST is the next element of a sequence of transport outcomes;
- today's date is a parameter;
- each `randint` draw is a given roll `r`, standing for check-in day
  `1 + r % max_check_in_day`.

The request loop (`AgodaClient.MakeRequest`), the availability probe
(`BlogLinks.VerifyPropertyAvailability`) and the per-link loop
(`BlogLinks.VerifyLinks`) are imperative, with loop invariants. Each is
proved equal to a specification function, and the behaviour is then proved
about that function. Everything else is pure functions and lemmas.

Two behaviours of the code are worth stating up front; the model follows
the code:

- After the retries run out there is no separate "retries exhausted" error.
  The last status error or transport exception propagates unchanged.
- A verification with no error has `error_message` set to `None`, not to
  an empty string.

Two guards in the code can never fire, and the model shows why:

- In `hotel_search.py` the guard `if not hotel_ids` after parsing the ids
  is dead, because `split` never returns an empty list.
- Once `main` has accepted its arguments, the client's own check of the
  children ages always passes.

## Model

| member | source | states |
|---|---|---|
| AgodaClient.ErrorText | agoda_client.py:15-21 | the text of `AgodaAPIError` is the fixed prefix, the id, ": " and the message |
| AgodaClient.ErrorTextNamesId | agoda_client.py:21 | the id can be read back out of the error text |
| AgodaClient.NewClient | agoda_client.py:45-78 | fails exactly when the site id or the API key, after falling back to the environment, is missing or empty; otherwise the three headers the client sets on its session, with Authorization `site_id:api_key` |
| AgodaClient.ArgumentsOverrideEnvironment | agoda_client.py:59-60 | non-empty arguments win over the environment |
| AgodaClient.MakeRequest | agoda_client.py:80-183 | the attempt loop computes exactly the recursive specification `Request`: result, number of POSTs and sleeps |
| AgodaClient.RequestShape | agoda_client.py:95-97 | never more than `max_retries` POSTs; the sleeps are a prefix of 1, 2, 4, one fewer than the POSTs; `RetryError` exactly when `max_retries <= 0`; the delay table overflows only from 5 retries on |
| AgodaClient.RequestSettlesAt | agoda_client.py:97-180 | the first outcome that is not retried, or the last allowed one, settles the call after k sleeps |
| AgodaClient.ClientErrorNotRetried | agoda_client.py:110-128 | a non-200 status below 500 raises its status error after one POST and no sleep |
| AgodaClient.OkResponseNotRetried | agoda_client.py:130-149 | status 200 ends the call at once: invalid JSON gives error 0, an `error` object gives its id (default 0) and message (default "Unknown error"), and anything else returns the body |
| AgodaClient.ExhaustedRetriesSurfaceLastOutcome | agoda_client.py:118-128 | when every allowed attempt is retryable, the last outcome's own error propagates after sleeping 1, 2, ... |
| AgodaClient.ThreeServiceUnavailable | agoda_client.py:110-128 | three 503s make three POSTs, sleep 1 then 2, and raise the 503 error |
| AgodaClient.DelayTableOverflow | agoda_client.py:95-97 | with five or more retries, the fourth retryable failure reads past the delay table |
| AgodaClient.BuildOccupancy | agoda_client.py:231-238 | ages are carried only for a non-empty list, which must have one age per child; an empty list counts as none |
| AgodaClient.Truncate | agoda_client.py:259-260 | `int()` of a finite float truncates toward zero (NaN and infinities are outside the model, see Left out) |
| AgodaClient.CityPayload | agoda_client.py:226-271 | `max_results` outside 1..30 is refused first; then the occupancy check; otherwise every key of the criteria, with the optional filters present exactly when given and the price band defaults 1 and 100000 |
| AgodaClient.DailyRateDefaults | agoda_client.py:255-261 | one price bound takes the other from the defaults; inverted bounds are not checked |
| AgodaClient.HotelPayload | agoda_client.py:304-330 | an empty id list is refused; otherwise ids, dates, currency, language, occupancy and discount flag only |
| AgodaClient.CitySearch | agoda_client.py:185-273 | refused exactly when the payload is; otherwise one request with three attempts |
| AgodaClient.HotelSearch | agoda_client.py:275-332 | refused exactly when the payload is; otherwise one request with three attempts |
| AgodaClient.SearchPostsBounded | agoda_client.py:273 | a search makes one to three POSTs, sleeping a prefix of 1, 2 |
| AgodaClient.RequestFrom | agoda_client.py:97-183 | the attempt loop of `_make_request` from a given attempt, branch by branch: return on a plain 200 body, raise on a fatal outcome or on the last attempt, otherwise sleep `retry_delays[attempt]` and go on; `RequestShape` and `RequestSettlesAt` state its properties |
| AgodaClient.Request | agoda_client.py:80-183 | `_make_request` over a sequence of transport outcomes, starting at attempt 0 with no sleeps; the specification that `MakeRequest` is proved equal to |
| AgodaClient.CitySearchCall | agoda_client.py:185-273 | `city_search` as a value: the refused payload, or the payload sent with a three-attempt `Request`; `CitySearch` is proved equal to it |
| AgodaClient.HotelSearchCall | agoda_client.py:275-332 | `hotel_search` as a value: the refused payload, or the payload sent with a three-attempt `Request`; `HotelSearch` is proved equal to it |
| Text.ParseInt | verify_blog_links.py:110 | Python `int()` on text: optional blanks (whitespace except `\x1c`-`\x1f`), an optional sign, digit groups joined by single underscores |
| Text.SeparatorIsNotIntBlank | verify_blog_links.py:110 | `int()` refuses a leading `\x1c` that `strip()` removes, so `int(p.strip())` accepts what `int(p)` refuses |
| Text.ParseIntRoundTrip | verify_blog_links.py:110 | `int(str(n)) == n` |
| Text.ParseIntListRoundTrip | city_search.py:321 | the comma-joined decimal texts of a non-empty list parse back to that list |
| Text.ParseIntListNonEmpty | city_search.py:321 | a parsed list is never empty, and the empty text does not parse |
| Text.SplitJoin | city_search.py:321 | `split` undoes `join` when no part holds the separator |
| Text.ParseIntList | city_search.py:321 | `[int(p.strip()) for p in s.split(',')]`, None when some piece is not an integer; `ParseIntListRoundTrip` and `ParseIntListNonEmpty` state its properties |
| Calendar.NextDayPrevDay | verify_blog_links.py:161 | stepping a day forward and back are inverse |
| Calendar.LastDayOfMonth | verify_blog_links.py:156-161 | the day before the first of the next month is the month's length |
| Calendar.AddDaysIsLater | verify_blog_links.py:169 | adding a positive number of days gives a strictly later date |
| Calendar.BeforeTotal | city_search.py:85 | date order is a strict total order |
| Calendar.FormatParseRoundTrip | verify_blog_links.py:171-172 | `strptime` reads back every `strftime` date with a four-digit year |
| Calendar.ImpossibleDayRejected | city_search.py:63-69 | a well-formed text naming a day the month lacks does not parse |
| Calendar.FormatIsoDate | verify_blog_links.py:171-172 | `strftime('%Y-%m-%d')`: ten characters, read back by `FormatParseRoundTrip` |
| Calendar.ParseIsoDate | city_search.py:65-66 | `strptime(s, '%Y-%m-%d')`: only real dates are returned; `FormatParseRoundTrip` and `ImpossibleDayRejected` state what it accepts |
| BlogLinks.FirstValue | verify_blog_links.py:109-124 | `params[key][0]`, absent exactly when no pair has the key |
| BlogLinks.SearchFromLeftmost | verify_blog_links.py:127-132 | the URL search finds nothing exactly when no position matches `hotelid[=:]digits`, ignoring case; otherwise it finds the value at the leftmost match |
| BlogLinks.SearchFindsLeftmostMatch | verify_blog_links.py:128-130 | the leftmost match's digits are the result |
| BlogLinks.ExtractionPriority | verify_blog_links.py:108-135 | `selectedproperty` first, then `hid`, then `hotelId`, then the URL pattern |
| BlogLinks.NoFallbackAfterBadValue | verify_blog_links.py:108-139 | a `selectedproperty` value that is not an integer gives no id, with no fallback to the later keys |
| BlogLinks.ExtractFromKey | verify_blog_links.py:108-124 | a decimal id under any of the three keys is extracted exactly |
| BlogLinks.ExtractFromPattern | verify_blog_links.py:126-135 | without the three keys the result is the URL search |
| BlogLinks.ExtractPropertyId | verify_blog_links.py:92-139 | `extract_property_id` on a parsed query: the priority, the no-fallback rule and the pattern search are stated by `ExtractionPriority`, `NoFallbackAfterBadValue`, `ExtractFromKey` and `ExtractFromPattern` |
| BlogLinks.MaxCheckInDay | verify_blog_links.py:165 | `max(1, last_day - nights)`, within the month |
| BlogLinks.RandomStay | verify_blog_links.py:163-169 | the check-in lies in the given month no later than the maximum day, and the check-out is that many nights later |
| BlogLinks.GenerateRandomDates | verify_blog_links.py:140-176 | the two generated dates as ten-character `%Y-%m-%d` texts, which `GeneratedDatesParse` reads back as the stay's dates |
| BlogLinks.GeneratedDatesParse | verify_blog_links.py:171-176 | both generated texts read back as the stay's dates |
| BlogLinks.MonthsAfter | verify_blog_links.py:232-240 | the month `k` months on, always a valid month, and within one year for `k < 12` |
| BlogLinks.RollOver | verify_blog_links.py:237-240 | the month wrap loop keeps the month count and ends with a month from 1 to 12 |
| BlogLinks.ValidProbe | verify_blog_links.py:207-214 | the inputs a probe run needs: a real date for today within `datetime`'s range, six rolls and six outcome scripts |
| BlogLinks.FirstHit | verify_blog_links.py:264-275 | the index of the first probe whose response had results, with no such probe before it |
| BlogLinks.LastError | verify_blog_links.py:279-285 | none exactly when no probe raised; otherwise the text of a probe that raised |
| BlogLinks.DecideStatus | verify_blog_links.py:218-268 | Available exactly when some probe had results; the probe itself never reports Error |
| BlogLinks.CallsStopAtFirstHit | verify_blog_links.py:232-275 | probing stops right after the first hit and never makes more calls than probes |
| BlogLinks.DecideLog | verify_blog_links.py:252-270 | the dates tried are exactly the probes made, in order, and the successful dates are the last of them |
| BlogLinks.DecideErrorMessage | verify_blog_links.py:272-346 | a hit leaves no error message; with no hit the message is the last error seen, and none when no probe raised |
| BlogLinks.OneNightPhaseAfterMisses | verify_blog_links.py:287-290 | the one-night probes run only after all three two-night probes missed |
| BlogLinks.ProbeSchedule | verify_blog_links.py:207-298 | probes 0-2 are two nights over three consecutive months from next month; probes 3-5 are one night over the same months |
| BlogLinks.VerifyPropertyAvailability | verify_blog_links.py:179-348 | the two probing loops produce exactly the verdict `Verdict` and make `CallsMade` calls |
| BlogLinks.LateHitClearsErrors | verify_blog_links.py:279-333 | three failures then a hit on the first one-night probe: Available, no error message, four calls, one-night dates recorded |
| BlogLinks.ReportOf | verify_blog_links.py:558-590 | a link without a property id is reported as an error without any search; otherwise it is the verdict for its id |
| BlogLinks.CountsAddUp | verify_blog_links.py:431-433 | the three status counts add up to the number of reports |
| BlogLinks.IssuesOfCount | verify_blog_links.py:453-462 | `unavailable_hotels` has one entry per Unavailable or Error report |
| BlogLinks.SaveJsonSummary | verify_blog_links.py:421-463 | nothing is written for no results; otherwise one `all_hotels` entry per report, in order |
| BlogLinks.SummaryAndExitCode | verify_blog_links.py:431-443 | exit 0 exactly when every hotel is Available, exactly when the summary is healthy |
| BlogLinks.ExitCode | verify_blog_links.py:615-620 | 1 when some row is Unavailable or Error, else 0; `SummaryAndExitCode` proves it 0 exactly when every row is Available |
| BlogLinks.UnresolvedLinkFails | verify_blog_links.py:561-575 | a link whose id cannot be extracted is reported as an unresolved error |
| BlogLinks.VerifyLinks | verify_blog_links.py:527-627 | no links exit 0; missing credentials exit 1 with no reports; otherwise one report per link, in order, and the exit code of the counts |
| CitySearchCli.ValidateDate | city_search.py:52-69 | accepts exactly the texts `strptime` reads as `%Y-%m-%d` and returns them unchanged; otherwise the error naming the text |
| CitySearchCli.ValidateDateAcceptsWrittenDates | city_search.py:52-69 | every real date in `YYYY-MM-DD` passes |
| CitySearchCli.ValidateDateRejectsMissingDays | city_search.py:64-69 | a day the month does not have is refused |
| CitySearchCli.ValidateDates | city_search.py:72-92 | fails exactly when a text does not read as a date or the check-out is not strictly after the check-in; a past check-in only warns |
| CitySearchCli.PastCheckInOnlyWarns | city_search.py:88-92 | whether the check passes does not depend on today's date |
| CitySearchCli.ValidateDatesOrder | city_search.py:84-86 | for real dates, failure exactly when the check-out is the same day as the check-in or earlier |
| CitySearchCli.ParseChildrenAges | city_search.py:318-327 | absent or empty means no ages; a piece that is not an integer gives the format error; a wrong count gives the count error; otherwise the parsed ages |
| CitySearchCli.ChildrenAgesRoundTrip | city_search.py:319-324 | the text of an age list reads back as that list exactly when the count matches |
| CitySearchCli.ProjectValues | city_search.py:105-119 | each output key of a field table holds its field's value or default |
| CitySearchCli.FormatHotelData | city_search.py:95-119 | exactly the thirteen output keys, each from its API field; a missing review count is 0, any other missing field `None` |
| CitySearchCli.FormatResults | city_search.py:355-356 | one formatted hotel per result, in order; no `results` key gives none |
| CitySearchCli.LastDot | city_search.py:376 | the last dot of the name, or -1 when there is none |
| CitySearchCli.SuffixOfFileName | city_search.py:376 | `base.ext` has the suffix `.ext` |
| CitySearchCli.SuffixInDirectory | city_search.py:375-376 | a directory in front of the name does not change the suffix |
| CitySearchCli.OutputKindOfFileName | city_search.py:376-382 | for `base.ext` the output is JSON or CSV exactly when `ext`, ignoring case, is `json` or `csv` |
| CitySearchCli.SuffixExamples | city_search.py:376-382 | `hotels.JSON` is written as JSON; `hotels.txt` is refused |
| CitySearchCli.DotFileHasNoSuffix | city_search.py:376-382 | `.json` alone has no suffix and is refused |
| CitySearchCli.OutputKind | city_search.py:375-382 | no output without `--output`; JSON or CSV by the lowercased pathlib suffix; any other suffix is refused; `OutputKindOfFileName` states it per file name |
| CitySearchCli.Finish | city_search.py:336-395 | after the search: a refused or failed search exits 1; otherwise the results are formatted and displayed; exit 0 exactly when every hotel displays and the suffix is accepted, and the output file is only considered after a display that did not raise |
| CitySearchCli.DisplayableFormatted | city_search.py:122-146 | `display_results` prints a formatted hotel without raising exactly when its `dailyRate` converts to a float, its `discountPercentage` is a number and, for a positive discount, its `crossedOutRate` converts to a float too |
| CitySearchCli.Displayable | city_search.py:143-146 | a formatted hotel prints without raising: `daily_rate` is a float, a bool or an int below 2^1024 - 2^970 in magnitude (where `.2f` raises `OverflowError`), `discount_percentage` is a number, and `crossed_out_rate` is formattable like the rate for a positive discount |
| CitySearchCli.MissingRateFailsDisplay | city_search.py:355-395 | a returned hotel without `dailyRate` makes the display raise, so the run exits 1 |
| CitySearchCli.HugeRateFailsDisplay | city_search.py:143 | a returned hotel whose integer `dailyRate` is too large for a float makes `.2f` raise `OverflowError`, so the run exits 1 |
| CitySearchCli.CityMain | city_search.py:304-395 | no search exactly when a date check, the ages or the credentials fail, then exit 1; otherwise the city search with the parsed ages, then `Finish`, which exits 0 exactly when the body was returned, every hotel displays and the suffix is accepted |
| CitySearchCli.CityMainSucceeds | city_search.py:355-385 | exit 0 only after a returned body whose formatted hotels all display, with those formatted results, and an accepted suffix |
| CitySearchCli.BadSuffixAfterSearch | city_search.py:360-382 | a bad suffix exits 1, but only after the search was made |
| CitySearchCli.CitySearchRejectedOnlyForMaxResults | city_search.py:319-344 | a search started by `main` is refused only for `max_results` outside 1..30 |
| HotelSearchCli.ParseHotelIds | hotel_search.py:295-303 | succeeds exactly when every comma-separated piece is an integer, giving a non-empty list; otherwise the ids format error |
| HotelSearchCli.HotelIdsRoundTrip | hotel_search.py:297 | the text of an id list reads back as that list; the empty text is a format error |
| HotelSearchCli.FormatHotelData | hotel_search.py:95-120 | exactly the fourteen output keys; a missing room type is `N/A` |
| HotelSearchCli.HotelFormatExtendsCityFormat | hotel_search.py:95-120 | the hotel output is the city output plus `room_type_name` |
| HotelSearchCli.HotelDisplayableFormatted | hotel_search.py:123-149 | the hotel display raises on the same fields as the city one: `dailyRate` must convert to a float, `discountPercentage` must be a number and, for a positive discount, `crossedOutRate` must convert to a float |
| HotelSearchCli.HotelMain | hotel_search.py:282-377 | no search exactly when a date check, the ids, the ages or the credentials fail, then exit 1; otherwise the hotel search and `Finish`, which exits 0 exactly when the body was returned, every hotel displays and the suffix is accepted |
| HotelSearchCli.HotelSearchNeverRejected | hotel_search.py:297-334 | a search started by `main` is never refused by the client, and exits 0 exactly when a body was returned, every hotel of it displays and the suffix is accepted |
| HotelSearchCli.BadHotelIdsStopEarly | hotel_search.py:296-303 | malformed ids stop the run with exit 1 before any request |
| Dashboard.StrLeTotal | generate_dashboard.py:40 | string order is total |
| Dashboard.StrLeTransitive | generate_dashboard.py:40 | string order is transitive |
| Dashboard.StrLeAntisymmetric | generate_dashboard.py:40 | string order is antisymmetric |
| Dashboard.SortByDestination | generate_dashboard.py:40 | `results.sort(key=lambda x: x.get('destination', ''))` as a stable insertion sort; `SortByDestinationCorrect` proves it sorted, a permutation and stable |
| Dashboard.SortByDestinationCorrect | generate_dashboard.py:40 | the sort orders by destination (missing counts as ""), is a permutation, and keeps the file order among equal destinations |
| Dashboard.LoadVerificationResults | generate_dashboard.py:15-42 | the loaded files, sorted by destination, as a stable permutation; files that fail to load are skipped |
| Dashboard.SumZero | generate_dashboard.py:57-60 | a sum of non-negative counters is zero exactly when each counter is |
| Dashboard.OverallStatus | generate_dashboard.py:65-75 | healthy with no unavailable hotel and no error; warning when together below 5; critical otherwise |
| Dashboard.OverallStatusBySum | generate_dashboard.py:65-75 | for non-negative counts: healthy at 0, warning from 1 to 4, critical from 5 |
| Dashboard.TotalsOf | generate_dashboard.py:56-63 | the destination count, and issues destinations as destinations minus healthy ones |
| Dashboard.HealthyDestinationsCount | generate_dashboard.py:62-63 | healthy destinations count the summaries marked healthy; issues destinations are none exactly when all are healthy |
| Dashboard.RowOf | generate_dashboard.py:90-148 | the Healthy badge exactly for status `healthy`, otherwise the issue count; '-' exactly when that count is not positive; a details row exactly when `unavailable_hotels` is non-empty, naming each hotel (default "Unknown") |
| Dashboard.DashboardOf | generate_dashboard.py:56-150 | the totals and one row per summary, in order |
| Dashboard.RowOfVerifierSummary | generate_dashboard.py:108-148 | for a summary the verifier wrote, the badge, the issues cell and the details row agree, and the badge is Healthy exactly when the verifier exited 0 |
| Dashboard.OverallHealthyOverVerifierSummaries | generate_dashboard.py:62-75 | over verifier summaries the banner is healthy exactly when no destination has issues |

## Left out

- Network transport, the 30-second timeout, compression and session closing are left out. Each POST is one given transport outcome.
- `time.sleep` is left out. The requested delays are recorded instead.
- `datetime.now()` is replaced by a `today` parameter.
- `random.randint` is replaced by a given roll.
- The summary timestamp, the dashboard's latest-update time and all time formatting are left out.
- `load_dotenv` and environment lookup are not modelled. The environment's values are given as parameters.
- Logging, argparse, the text `display_results` prints, and CSV, JSON and HTML file writing are left out. The model records which output kind would be written, and whether `display_results` raises (which makes `main` exit 1).
- The save functions catch only `IOError` and never change the exit code; a JSON or CSV encoding failure is not modelled.
- `scrape_agoda_links` is left out. It is an HTTP fetch plus HTML parsing by a foreign library. The model starts from the scraped links.
- `urlparse` and `parse_qs` are not modelled: the query is a given list of key/value pairs. Percent-decoding and dropping blank values are therefore not part of the model.
- Text.ParseInt: does not model CPython's limit on the number of digits `int()` converts from text (4300 by default since Python 3.11, configurable by `sys.set_int_max_str_digits`). A longer digit string raises `ValueError` in the source but parses in the model. So a link whose id has more than 4300 digits is unresolved in the source and probed in the model, and such `--hotel-ids` or `--children-ages` make the source exit 1 where the model searches.
- Python's `int()` is modelled on ASCII digits and the blanks CPython skips (`isspace()` characters except `\x1c`-`\x1f`). It does not accept other Unicode digits.
- The URL pattern `hotelid[=:](\d+)` is matched on ASCII only: `\d` is an ASCII digit and IGNORECASE folds only ASCII letters. Python's `re` also matches other Unicode decimal digits and case-folds characters such as `ı` to `i`.
- `strptime` with `%Y-%m-%d` reads ASCII digits only. Python's `_strptime` uses `\d`, which also accepts other Unicode decimal digits such as the fullwidth ones.
- `str.lower()` is modelled on ASCII letters, which is exact for `.json` and `.csv`.
- JSON values of unexpected types are not modelled, because typed fields stand for the dictionary keys. Among them:
  - a `results` that is null or not a list;
  - an entry of `results` that is not an object. The source then sets `availability_status` to 'Available' before `hotel.get` raises (verify_blog_links.py:266-269 and 324-327); the error is caught, so a report can end 'Available' with an error message;
  - an `error` that is not an object;
  - a dashboard counter that is not an integer, a float included;
  - a destination that is not a string.
- Float prices and ratings are real numbers that pass through unchanged. Only the `int()` truncation of price bounds is modelled.
- AgodaClient.Truncate: floats are finite reals, so NaN and infinities are outside the model. `argparse` with `type=float` accepts `nan`, `inf` and `1e400` for `--min-price`/`--max-price`. `int()` of them at agoda_client.py:259-260 raises `ValueError` (NaN) or `OverflowError` (infinity), so the source exits 1 before any POST, where the model sends the search. A JSON `NaN` or `Infinity` in a response is not modelled either.
- BlogLinks.ValidProbe: requires today's year to be at most 9998, so a clock in year 9999 is not modelled. Python's `datetime` range ends at year 9999. With such a clock the source runs normally from January to August. From September on, the probes whose month is December 9999 or lies in year 10000 raise `ValueError` inside `generate_random_dates`. Those raises are caught as attempt errors (verify_blog_links.py:282-285 and 336-342), and the other probes run as usual.
- BlogLinks.GenerateRandomDates: requires the month not to be December of 9999, where the source raises `ValueError` building `datetime(10000, 1, 1)` (verify_blog_links.py:155). It also requires the check-out year to be at most 9999, where adding the `timedelta` raises `OverflowError`. The error paths themselves are not modelled.
- Calendar.FormatIsoDate: requires the year to be at most 9999, for the same reason.
- The `with` statement's `__enter__`, `__exit__` and `close` are not modelled.
