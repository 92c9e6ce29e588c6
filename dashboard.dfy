/** The dashboard over the per-destination summaries: loading and ordering
    them by destination, the totals, the overall health rule and what each
    destination row shows. The HTML text itself is not modelled. */
module Dashboard {
  import opened Values
  import BlogLinks

  /** A summary file as the dashboard reads it: each key may be missing. */
  datatype Loaded = Loaded(
    destination: Option<string>,
    totalHotels: Option<int>,
    available: Option<int>,
    unavailable: Option<int>,
    errors: Option<int>,
    status: Option<string>,
    unavailableHotels: Option<seq<Hotel>>)

  // ---------------------------------------------------------------------
  // Ordering by destination

  /** Python's `<=` on strings: lexicographic by code point. */
  predicate StrLe(a: string, b: string) {
    a == [] || (b != [] && (a[0] < b[0] || (a[0] == b[0] && StrLe(a[1..], b[1..]))))
  }

  lemma {:induction false} StrLeReflexive(a: string)
    ensures StrLe(a, a)
  {
    if a != [] {
      StrLeReflexive(a[1..]);
    }
  }

  lemma {:induction false} StrLeTotal(a: string, b: string)
    ensures StrLe(a, b) || StrLe(b, a)
  {
    if a != [] && b != [] && a[0] == b[0] {
      StrLeTotal(a[1..], b[1..]);
    }
  }

  lemma {:induction false} StrLeTransitive(a: string, b: string, c: string)
    requires StrLe(a, b) && StrLe(b, c)
    ensures StrLe(a, c)
  {
    if a != [] && b != [] && c != [] && a[0] == b[0] && b[0] == c[0] {
      StrLeTransitive(a[1..], b[1..], c[1..]);
    }
  }

  lemma {:induction false} StrLeAntisymmetric(a: string, b: string)
    requires StrLe(a, b) && StrLe(b, a)
    ensures a == b
  {
    if a != [] && b != [] {
      StrLeAntisymmetric(a[1..], b[1..]);
      assert a == [a[0]] + a[1..] && b == [b[0]] + b[1..];
    }
  }

  /** `x.get('destination', '')` */
  function Key(l: Loaded): string {
    l.destination.GetOr("")
  }

  /** Inserts `x` before the first entry whose key is not smaller. */
  function Insert(x: Loaded, s: seq<Loaded>): (r: seq<Loaded>)
    ensures |r| == |s| + 1
    ensures r[0] == x || (s != [] && r[0] == s[0])
  {
    if s == [] || StrLe(Key(x), Key(s[0])) then [x] + s
    else [s[0]] + Insert(x, s[1..])
  }

  /** `results.sort(key=lambda x: x.get('destination', ''))`: a stable sort. */
  function SortByDestination(s: seq<Loaded>): (r: seq<Loaded>)
    ensures |r| == |s|
  {
    if s == [] then [] else Insert(s[0], SortByDestination(s[1..]))
  }

  predicate Sorted(s: seq<Loaded>) {
    forall i :: 0 < i < |s| ==> StrLe(Key(s[i - 1]), Key(s[i]))
  }

  /** The entries with destination key `k`, in order. */
  function WithKey(s: seq<Loaded>, k: string): seq<Loaded> {
    if s == [] then [] else (if Key(s[0]) == k then [s[0]] else []) + WithKey(s[1..], k)
  }

  lemma {:induction false} InsertSorted(x: Loaded, s: seq<Loaded>)
    requires Sorted(s)
    ensures Sorted(Insert(x, s))
  {
    if s != [] && !StrLe(Key(x), Key(s[0])) {
      InsertSorted(x, s[1..]);
      StrLeTotal(Key(x), Key(s[0]));
      var t := Insert(x, s[1..]);
      assert Insert(x, s) == [s[0]] + t;
      if t[0] != x {
        assert |s| > 1 && t[0] == s[1];
      }
    }
  }

  lemma {:induction false} InsertPermutes(x: Loaded, s: seq<Loaded>)
    ensures multiset(Insert(x, s)) == multiset(s) + multiset{x}
  {
    if s != [] && !StrLe(Key(x), Key(s[0])) {
      InsertPermutes(x, s[1..]);
      assert s == [s[0]] + s[1..];
    }
  }

  /** Inserting `x` into any list puts it ahead of the entries with its own
      key and leaves the others' order alone. */
  lemma {:induction false} InsertWithKey(x: Loaded, s: seq<Loaded>, k: string)
    ensures WithKey(Insert(x, s), k) == (if Key(x) == k then [x] else []) + WithKey(s, k)
  {
    if s == [] || StrLe(Key(x), Key(s[0])) {
      assert ([x] + s)[1..] == s;
    } else {
      InsertWithKey(x, s[1..], k);
      var r := [s[0]] + Insert(x, s[1..]);
      assert r[1..] == Insert(x, s[1..]);
      if Key(x) == k {
        StrLeReflexive(k);
      }
    }
  }

  /** The sort orders by destination, keeps every summary, and keeps the
      file order among summaries for the same destination. */
  lemma {:induction false} SortByDestinationCorrect(s: seq<Loaded>)
    ensures Sorted(SortByDestination(s))
    ensures multiset(SortByDestination(s)) == multiset(s)
    ensures forall k :: WithKey(SortByDestination(s), k) == WithKey(s, k)
  {
    if s != [] {
      SortByDestinationCorrect(s[1..]);
      InsertSorted(s[0], SortByDestination(s[1..]));
      InsertPermutes(s[0], SortByDestination(s[1..]));
      assert s == [s[0]] + s[1..];
      forall k ensures WithKey(SortByDestination(s), k) == WithKey(s, k) {
        InsertWithKey(s[0], SortByDestination(s[1..]), k);
      }
    }
  }

  /** `load_verification_results`: the files that loaded (a file that failed
      to load is `None` and only warned about), ordered by destination. */
  function LoadVerificationResults(files: seq<Option<Loaded>>): (r: seq<Loaded>)
    ensures Sorted(r)
    ensures multiset(r) == multiset(Loadable(files))
    ensures forall k :: WithKey(r, k) == WithKey(Loadable(files), k)
  {
    SortByDestinationCorrect(Loadable(files));
    SortByDestination(Loadable(files))
  }

  /** The files that loaded, in glob order. */
  function Loadable(files: seq<Option<Loaded>>): (r: seq<Loaded>)
    ensures forall x :: x in r <==> Some(x) in files
  {
    if files == [] then []
    else (if files[0].Some? then [files[0].value] else []) + Loadable(files[1..])
  }

  // ---------------------------------------------------------------------
  // Totals and the overall status

  /** `sum(f(r) for r in results)` */
  function Sum(rs: seq<Loaded>, f: Loaded -> int): int {
    if rs == [] then 0 else f(rs[0]) + Sum(rs[1..], f)
  }

  /** A sum of non-negative terms is zero exactly when every term is. */
  lemma {:induction false} SumZero(rs: seq<Loaded>, f: Loaded -> int)
    requires forall i :: 0 <= i < |rs| ==> 0 <= f(rs[i])
    ensures 0 <= Sum(rs, f)
    ensures Sum(rs, f) == 0 <==> forall i :: 0 <= i < |rs| ==> f(rs[i]) == 0
  {
    if rs != [] {
      SumZero(rs[1..], f);
      assert forall i :: 1 <= i < |rs| ==> rs[1..][i - 1] == rs[i];
    }
  }

  function TotalHotels(l: Loaded): int { l.totalHotels.GetOr(0) }
  function Available(l: Loaded): int { l.available.GetOr(0) }
  function Unavailable(l: Loaded): int { l.unavailable.GetOr(0) }
  function Errors(l: Loaded): int { l.errors.GetOr(0) }
  function HealthyFlag(l: Loaded): int { if l.status == Some("healthy") then 1 else 0 }

  datatype Health = Healthy | Warning | Critical

  /** The overall banner: healthy with no unavailable hotel and no error,
      a warning below five of them together, critical otherwise. */
  function OverallStatus(unavailable: int, errors: int): (h: Health)
    ensures h == Healthy <==> unavailable == 0 && errors == 0
    ensures h == Warning <==> !(unavailable == 0 && errors == 0) && unavailable + errors < 5
    ensures h == Critical <==> !(unavailable == 0 && errors == 0) && 5 <= unavailable + errors
  {
    if unavailable == 0 && errors == 0 then Healthy
    else if unavailable + errors < 5 then Warning
    else Critical
  }

  /** For counts that cannot be negative the rule is a three-way split of
      their sum: 0, 1 to 4, and 5 or more. */
  lemma OverallStatusBySum(unavailable: nat, errors: nat)
    ensures OverallStatus(unavailable, errors) == Healthy <==> unavailable + errors == 0
    ensures OverallStatus(unavailable, errors) == Warning <==> 0 < unavailable + errors < 5
    ensures OverallStatus(unavailable, errors) == Critical <==> 5 <= unavailable + errors
  {
  }

  /** The figures at the top of the dashboard. */
  datatype Totals = Totals(
    destinations: nat, hotels: int, available: int, unavailable: int, errors: int,
    healthyDestinations: int, issuesDestinations: int, overall: Health)

  function TotalsOf(rs: seq<Loaded>): (t: Totals)
    ensures t.destinations == |rs|
    ensures t.issuesDestinations == |rs| - t.healthyDestinations
    ensures t.overall == OverallStatus(t.unavailable, t.errors)
  {
    var unavailable := Sum(rs, Unavailable);
    var errors := Sum(rs, Errors);
    var healthy := Sum(rs, HealthyFlag);
    Totals(|rs|, Sum(rs, TotalHotels), Sum(rs, Available), unavailable, errors,
           healthy, |rs| - healthy, OverallStatus(unavailable, errors))
  }

  /** The number of summaries whose status is exactly `healthy`. */
  function HealthyCount(rs: seq<Loaded>): (n: nat)
    ensures n <= |rs|
  {
    if rs == [] then 0 else (if rs[0].status == Some("healthy") then 1 else 0) + HealthyCount(rs[1..])
  }

  /** `healthy_destinations` counts the summaries marked healthy, so
      `issues_destinations` counts the others and is never negative. */
  lemma {:induction false} HealthyDestinationsCount(rs: seq<Loaded>)
    ensures TotalsOf(rs).healthyDestinations == HealthyCount(rs)
    ensures 0 <= TotalsOf(rs).issuesDestinations <= |rs|
    ensures TotalsOf(rs).issuesDestinations == 0 <==> forall i :: 0 <= i < |rs| ==> rs[i].status == Some("healthy")
  {
    HealthyIsCount(rs);
    AllHealthy(rs);
  }

  lemma {:induction false} HealthyIsCount(rs: seq<Loaded>)
    ensures Sum(rs, HealthyFlag) == HealthyCount(rs)
  {
    if rs != [] {
      HealthyIsCount(rs[1..]);
    }
  }

  lemma {:induction false} AllHealthy(rs: seq<Loaded>)
    ensures HealthyCount(rs) == |rs| <==> forall i :: 0 <= i < |rs| ==> rs[i].status == Some("healthy")
  {
    if rs != [] {
      AllHealthy(rs[1..]);
      assert forall i :: 1 <= i < |rs| ==> rs[1..][i - 1] == rs[i];
    }
  }

  // ---------------------------------------------------------------------
  // Destination rows

  datatype Badge = HealthyBadge | IssuesBadge(count: int)

  /** What one destination row shows (besides links and times): the
      destination, hotel and available counts, the issues cell (`None` for
      '-'), the badge, and the names listed in the details row when there
      is one. */
  datatype Row = Row(destination: string, total: int, available: int, issues: Option<int>, badge: Badge,
                     details: Option<seq<Value>>)

  /** `hotel.get('hotel_name', 'Unknown')` */
  function DetailName(h: Hotel): Value {
    Get(h, "hotel_name", Str("Unknown"))
  }

  function RowOf(l: Loaded): (row: Row)
    ensures row.destination == l.destination.GetOr("Unknown")
    ensures row.badge == HealthyBadge <==> l.status == Some("healthy")
    ensures row.badge.IssuesBadge? ==> row.badge.count == Unavailable(l) + Errors(l)
    ensures row.issues.None? <==> Unavailable(l) + Errors(l) <= 0
    ensures row.issues.Some? ==> row.issues.value == Unavailable(l) + Errors(l)
    ensures row.details.Some? <==> l.unavailableHotels.Some? && l.unavailableHotels.value != []
    ensures row.details.Some? ==>
              |row.details.value| == |l.unavailableHotels.value|
              && forall i :: 0 <= i < |row.details.value| ==>
                   row.details.value[i] == DetailName(l.unavailableHotels.value[i])
  {
    var issues := Unavailable(l) + Errors(l);
    var hotels := l.unavailableHotels.GetOr([]);
    Row(l.destination.GetOr("Unknown"), TotalHotels(l), Available(l),
        if issues > 0 then Some(issues) else None,
        if l.status.GetOr("unknown") == "healthy" then HealthyBadge else IssuesBadge(issues),
        if hotels != [] then Some(seq(|hotels|, i requires 0 <= i < |hotels| => DetailName(hotels[i]))) else None)
  }

  /** The dashboard: its totals and one row per summary, in the order given. */
  datatype View = View(totals: Totals, rows: seq<Row>)

  function DashboardOf(rs: seq<Loaded>): (v: View)
    ensures v.totals == TotalsOf(rs)
    ensures |v.rows| == |rs| && forall i :: 0 <= i < |rs| ==> v.rows[i] == RowOf(rs[i])
  {
    View(TotalsOf(rs), seq(|rs|, i requires 0 <= i < |rs| => RowOf(rs[i])))
  }

  // ---------------------------------------------------------------------
  // Summaries written by the verifier

  /** A summary file exactly as the verifier writes it. */
  function LoadedOf(s: BlogLinks.Summary): Loaded {
    Loaded(Some(s.destination), Some(s.totalHotels), Some(s.available), Some(s.unavailable), Some(s.errors),
           Some(s.status), Some(seq(|s.unavailableHotels|, i requires 0 <= i < |s.unavailableHotels| =>
                                      map["hotel_name" := s.unavailableHotels[i].hotelName])))
  }

  /** For a summary the verifier wrote, the row's badge, issues cell and
      details row agree with one another: all three say "no issue" together,
      and the details row names every unavailable or failed hotel. */
  lemma RowOfVerifierSummary(blogUrl: string, destination: string, reports: seq<BlogLinks.Report>)
    requires reports != []
    ensures var s := BlogLinks.SaveJsonSummary(blogUrl, destination, reports).value;
            var row := RowOf(LoadedOf(s));
            && (row.badge == HealthyBadge <==> row.issues.None?)
            && (row.badge == HealthyBadge <==> row.details.None?)
            && (row.details.Some? ==>
                  forall i :: 0 <= i < |row.details.value| ==> row.details.value[i] == s.unavailableHotels[i].hotelName)
            && (row.badge == HealthyBadge <==> BlogLinks.ExitCode(reports) == 0)
  {
    BlogLinks.SummaryAndExitCode(blogUrl, destination, reports);
  }

  /** Over summaries the verifier wrote, the banner is healthy exactly when
      no destination has issues. */
  lemma {:induction false} OverallHealthyOverVerifierSummaries(ss: seq<BlogLinks.Summary>)
    requires forall i :: 0 <= i < |ss| ==> ss[i].status == (if ss[i].unavailable == 0 && ss[i].errors == 0 then "healthy" else "issues")
    ensures var t := TotalsOf(seq(|ss|, i requires 0 <= i < |ss| => LoadedOf(ss[i])));
            t.overall == Healthy <==> t.issuesDestinations == 0
  {
    var rs := seq(|ss|, i requires 0 <= i < |ss| => LoadedOf(ss[i]));
    SumZero(rs, Unavailable);
    SumZero(rs, Errors);
    HealthyDestinationsCount(rs);
    assert forall i :: 0 <= i < |rs| ==> (rs[i].status == Some("healthy") <==> Unavailable(rs[i]) == 0 && Errors(rs[i]) == 0);
  }
}
