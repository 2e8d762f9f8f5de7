/**
 * The admin listing (`GET /admin`): default the page and the page size,
 * compute the page count and the skip offset, build the urgency/status
 * filter, and return one window of the filtered reports in store order,
 * with their references expanded.
 *
 * This handler only reads the store, so it is a function of the stored
 * collections and the query.
 */
module Admin {
  import opened Entities

  const DefaultPage := 1
  const DefaultLimit := 3
  /** The query value that stands for "no constraint". */
  const All := "all"

  /** The query string: `page` and `limit` as `parseInt` read them (None for NaN),
      `urgency` and `status` as given (None when absent). */
  datatype AdminQuery = AdminQuery(page: Option<int>, limit: Option<int>,
                                   urgency: Option<string>, status: Option<string>)

  /** The predicates added to the find query; None when the field is unconstrained. */
  datatype Filter = Filter(urgency: Option<string>, status: Option<string>)

  /** `parseInt(x) || d`: NaN and 0 are falsy and fall back to `d`; every other
      number, negative ones included, is kept. */
  function OrDefault(parsed: Option<int>, default: int): (r: int)
    requires default != 0
    ensures r != 0
    ensures parsed.Some? && parsed.value != 0 ==> r == parsed.value
    ensures parsed.None? || parsed.value == 0 ==> r == default
  {
    if parsed.None? || parsed.value == 0 then default else parsed.value
  }

  /** A parameter is added to the filter only when it is present, non-empty
      (the empty string is falsy) and not the sentinel "all". */
  predicate Constrains(param: Option<string>)
  {
    param.Some? && param.value != "" && param.value != All
  }

  function BuildFilter(q: AdminQuery): Filter
  {
    Filter(if Constrains(q.urgency) then q.urgency else None,
           if Constrains(q.status) then q.status else None)
  }

  /** Exact-match semantics of the filter; a report stored without an urgency
      matches no urgency predicate. */
  predicate Matches(f: Filter, r: Report)
  {
    && (f.urgency.Some? ==> r.urgency == f.urgency)
    && (f.status.Some? ==> r.status == f.status.value)
  }

  /** The reports the find query selects, in store order. */
  function Selected(reports: seq<Report>, q: AdminQuery): seq<Report>
  {
    Where(reports, (r: Report) => Matches(BuildFilter(q), r))
  }

  /** `Math.ceil(a / b)` for integers. */
  function CeilDiv(a: int, b: int): (r: int)
    requires b != 0
    ensures b > 0 ==> (r - 1) * b < a <= r * b
    ensures b < 0 ==> r * b <= a < (r - 1) * b
  {
    if b > 0 then -((-a) / b) else -(a / (-b))
  }

  function Abs(x: int): nat
  {
    if x < 0 then -x else x
  }

  /** The number of matching reports skipped before the page starts. */
  function Skip(page: int, limit: int): int
  {
    (page - 1) * limit
  }

  /** `skip(skip).limit(count)` over a result set; the store reads a limit of
      0 as no limit. */
  function Window<T>(items: seq<T>, skip: nat, count: nat): (r: seq<T>)
    ensures skip >= |items| ==> r == []
    ensures skip < |items| ==>
              |r| == if count != 0 && skip + count <= |items| then count else |items| - skip
    ensures forall i :: 0 <= i < |r| ==> skip + i < |items| && r[i] == items[skip + i]
  {
    if skip >= |items| then []
    else items[skip..if count != 0 && skip + count <= |items| then skip + count else |items|]
  }

  /** The listing handler. A negative skip offset (a negative page number with
      a positive page size, or the reverse) is refused by the document store
      and answered with a 500; a negative page size returns up to its absolute
      value of reports, as the store's driver reads it. The page count uses the
      count of ALL reports, not of the filtered ones. `storeFails` stands for a
      failure of the count or of the find query, also answered with a 500. */
  function ListReports(reports: seq<Report>, locations: seq<Location>, categories: seq<Category>,
                       q: AdminQuery, storeFails: bool): (r: Outcome)
    ensures r.AdminPage? || r == ServerError
    ensures r == ServerError <==>
              storeFails || Skip(OrDefault(q.page, DefaultPage), OrDefault(q.limit, DefaultLimit)) < 0
    ensures r.AdminPage? ==> r.currentPage == OrDefault(q.page, DefaultPage) && r.currentPage != 0
    ensures r.AdminPage? ==> r.totalPages == CeilDiv(|reports|, OrDefault(q.limit, DefaultLimit))
    ensures r.AdminPage? ==> |r.reports| <= Abs(OrDefault(q.limit, DefaultLimit))
    ensures r.AdminPage? ==>
              forall i :: 0 <= i < |r.reports| ==>
                && r.reports[i].report in reports
                && Matches(BuildFilter(q), r.reports[i].report)
    ensures r.AdminPage? ==>
              var skip := Skip(OrDefault(q.page, DefaultPage), OrDefault(q.limit, DefaultLimit));
              forall i :: 0 <= i < |r.reports| ==>
                skip + i < |Selected(reports, q)| && r.reports[i].report == Selected(reports, q)[skip + i]
    ensures r.AdminPage? ==>
              forall i :: 0 <= i < |r.reports| ==>
                && r.reports[i].location == Lookup(locations, r.reports[i].report.location)
                && r.reports[i].category == Lookup(categories, r.reports[i].report.category)
    ensures r.AdminPage? ==>
              var skip := Skip(OrDefault(q.page, DefaultPage), OrDefault(q.limit, DefaultLimit));
              var count := Abs(OrDefault(q.limit, DefaultLimit));
              |r.reports| == if skip >= |Selected(reports, q)| then 0
                             else if skip + count <= |Selected(reports, q)| then count
                             else |Selected(reports, q)| - skip
  {
    var page := OrDefault(q.page, DefaultPage);
    var limit := OrDefault(q.limit, DefaultLimit);
    var totalPages := CeilDiv(|reports|, limit);
    var skip := Skip(page, limit);
    if storeFails || skip < 0 then ServerError
    else
      var items := Window(Selected(reports, q), skip, Abs(limit));
      AdminPage(Populate(items, locations, categories), totalPages, page)
  }

  /** Filter composition: a report is listed iff it meets each constraint that
      was added, and a parameter that is absent, empty or "all" constrains nothing. */
  lemma SelectedExactly(reports: seq<Report>, q: AdminQuery, x: Report)
    ensures x in Selected(reports, q) <==>
              && x in reports
              && (Constrains(q.urgency) ==> x.urgency == q.urgency)
              && (Constrains(q.status) ==> Some(x.status) == q.status)
  {
  }

  /** Selection keeps store order: filtering a store that grew by some reports
      lists the old selection first, then the selected new reports. */
  lemma SelectedAppend(reports: seq<Report>, added: seq<Report>, q: AdminQuery)
    ensures Selected(reports + added, q) == Selected(reports, q) + Selected(added, q)
  {
    WhereAppend(reports, added, (r: Report) => Matches(BuildFilter(q), r));
  }

  /** Pagination is a tiling: with a positive page size, the selected report at
      position i is listed on page i / limit + 1, at position i % limit. */
  lemma {:induction false} PageOfPosition(reports: seq<Report>, locations: seq<Location>,
                                          categories: seq<Category>, q: AdminQuery, i: nat)
    requires q.limit.Some? && q.limit.value > 0
    requires q.page == Some(i / q.limit.value + 1)
    requires i < |Selected(reports, q)|
    ensures var r := ListReports(reports, locations, categories, q, false);
            r.AdminPage? && i % q.limit.value < |r.reports| &&
            r.reports[i % q.limit.value].report == Selected(reports, q)[i]
  {
    var limit := q.limit.value;
    var page := i / limit + 1;
    DivModSplit(i, limit);
    assert OrDefault(q.page, DefaultPage) == page;
    assert OrDefault(q.limit, DefaultLimit) == limit && Abs(limit) == limit;
    var r := ListReports(reports, locations, categories, q, false);
    assert r.AdminPage?;
    assert i % limit < |r.reports|;
  }

  lemma DivModSplit(i: nat, limit: int)
    requires limit > 0
    ensures 0 <= Skip(i / limit + 1, limit) <= i
    ensures Skip(i / limit + 1, limit) + i % limit == i
    ensures i % limit < limit
  {
  }

  /** With seven stored reports, no filter and the default page size, there are
      three pages and the third holds exactly the seventh report. */
  lemma SeventhReportAloneOnThirdPage(reports: seq<Report>, locations: seq<Location>, categories: seq<Category>)
    requires |reports| == 7
    ensures var r := ListReports(reports, locations, categories, AdminQuery(Some(3), None, None, Some(All)), false);
            r.AdminPage? && r.totalPages == 3 && |r.reports| == 1 && r.reports[0].report == reports[6]
  {
    var q := AdminQuery(Some(3), None, None, Some(All));
    assert forall x :: Matches(BuildFilter(q), x);
    WhereKeepsAll(reports, (x: Report) => Matches(BuildFilter(q), x));
  }

  /** The page count ignores the filter: with seven reports of which one is
      High, filtering on High still announces three pages, and page two is empty. */
  lemma PageCountIgnoresFilter(reports: seq<Report>, locations: seq<Location>, categories: seq<Category>)
    requires |reports| == 7
    requires reports[0].urgency == Some("High")
    requires forall i :: 1 <= i < 7 ==> reports[i].urgency != Some("High")
    ensures var r := ListReports(reports, locations, categories, AdminQuery(Some(2), None, Some("High"), None), false);
            r.AdminPage? && r.totalPages == 3 && r.reports == []
  {
    var q := AdminQuery(Some(2), None, Some("High"), None);
    assert reports == reports[..1] + reports[1..];
    SelectedAppend(reports[..1], reports[1..], q);
    forall x | x in reports[1..] ensures !Matches(BuildFilter(q), x) {
      var k :| 0 <= k < |reports[1..]| && reports[1..][k] == x;
      assert reports[k + 1] == x;
    }
    WhereKeepsNone(reports[1..], (x: Report) => Matches(BuildFilter(q), x));
  }
}
