/**
 * What an export run guarantees: the header comes once and first, every
 * row belongs to a business whose requests succeeded, the search offsets
 * are 0, s, 2s, ... below min(records, total), and at most one page's worth
 * of rows is written per search request.
 *
 * The page-loop lemmas hold for any inner-loop body; the few facts they
 * need about the exporters' own body are stated once, as `Fetches` and
 * `KeepsLocation`, and proved from `ItemPolicy`.
 */
module ExportProperties {
  import opened Wrappers
  import opened Json
  import opened Paging
  import opened Export

  /** A data row of `kind` written for a business whose detail (and, for reviews, review) request succeeded. */
  predicate Fetched(kind: Kind, api: Api, row: Row) {
    row.Exporter() == kind && api.details(row.Id()).Some? &&
    (kind == Reviews ==> api.reviews(row.Id()).Some?)
  }

  /** Every row the body writes is `Fetched`. */
  ghost predicate Fetches(env: Env, body: ItemBody) {
    forall page, j, st :: body(page, j, st).Wrote? ==> Fetched(env.kind, env.api, body(page, j, st).row)
  }

  /** The body never changes the search location or `hours_type`. */
  ghost predicate KeepsLocation(body: ItemBody) {
    forall page, j, st :: body(page, j, st).Wrote? ==>
      body(page, j, st).location == st.location && body(page, j, st).hoursType == st.hoursType
  }

  /** Both exporters write only rows of businesses whose requests succeeded. */
  lemma BodyFetches(env: Env)
    ensures Fetches(env, Body(env))
  {
    forall page, j, st | Body(env)(page, j, st).Wrote?
      ensures Fetched(env.kind, env.api, Body(env)(page, j, st).row)
    {
      ItemPolicy(env, page, j, st);
    }
  }

  /** The review exporter's body leaves the location and `hours_type` alone. */
  lemma ReviewBodyKeepsLocation(env: Env)
    requires env.kind == Reviews
    ensures KeepsLocation(Body(env))
  {
    forall page, j, st | Body(env)(page, j, st).Wrote?
      ensures Body(env)(page, j, st).location == st.location &&
              Body(env)(page, j, st).hoursType == st.hoursType
    {
      ItemPolicy(env, page, j, st);
    }
  }

  /**
   * The output so far: empty exactly while the header is pending; otherwise
   * the header, then at least one row, and only rows after it.
   */
  predicate WellFormed(kind: Kind, api: Api, lines: seq<Line>, headerPending: bool) {
    (headerPending <==> lines == []) &&
    (lines != [] ==> |lines| >= 2 && lines[0] == Header(kind)) &&
    forall i :: 1 <= i < |lines| ==> lines[i].Data? && Fetched(kind, api, lines[i].row)
  }

  /** The number of data rows among the lines. */
  function RowCount(lines: seq<Line>): nat
    decreases |lines|
  {
    if lines == [] then 0
    else RowCount(lines[..|lines| - 1]) + if lines[|lines| - 1].Data? then 1 else 0
  }

  /** One more page of `limit` rows. */
  lemma MulSucc(n: int, limit: int)
    ensures (n + 1) * limit == n * limit + limit
  {
  }

  /** The state after the body wrote at index `j`. */
  function AfterWrite(env: Env, body: ItemBody, page: Option<seq<Id>>, j: nat, st: State): State
    requires body(page, j, st).Wrote?
  {
    var s := body(page, j, st);
    Emit(env.kind, st, s.row).(hoursType := s.hoursType, location := s.location)
  }

  /** An inner loop sends no search request. */
  lemma {:induction false} ItemsKeepQueries(env: Env, body: ItemBody, offset: int, page: Option<seq<Id>>, j: nat, st: State)
    ensures Items(env, body, offset, page, j, st).st.queries == st.queries
    decreases env.Limit() - j
  {
    if j < env.Limit() {
      var s := body(page, j, st);
      if s.Skip? {
        ItemsKeepQueries(env, body, offset, page, j + 1, st);
      } else if s.Wrote? && offset + j + 1 <= env.total {
        var st' := AfterWrite(env, body, page, j, st);
        ItemsKeepQueries(env, body, offset, page, j + 1, st');
        assert Items(env, body, offset, page, j, st) == Items(env, body, offset, page, j + 1, st');
      }
    }
  }

  /** Writing a fetched row keeps the output well formed. */
  lemma EmitWellFormed(kind: Kind, api: Api, st: State, row: Row)
    requires WellFormed(kind, api, st.lines, st.headerPending)
    requires Fetched(kind, api, row)
    ensures var st' := Emit(kind, st, row);
      WellFormed(kind, api, st'.lines, st'.headerPending)
  {
    var st' := Emit(kind, st, row);
    forall i | 1 <= i < |st'.lines|
      ensures st'.lines[i].Data? && Fetched(kind, api, st'.lines[i].row)
    {
      if i < |st'.lines| - 1 {
        assert st'.lines[i] == st.lines[i];
      }
    }
  }

  /** An inner loop keeps the output well formed. */
  lemma {:induction false} ItemsWellFormed(env: Env, body: ItemBody, offset: int, page: Option<seq<Id>>, j: nat, st: State)
    requires Fetches(env, body)
    requires WellFormed(env.kind, env.api, st.lines, st.headerPending)
    ensures var end := Items(env, body, offset, page, j, st).st;
      WellFormed(env.kind, env.api, end.lines, end.headerPending)
    decreases env.Limit() - j
  {
    if j < env.Limit() {
      var s := body(page, j, st);
      if s.Skip? {
        ItemsWellFormed(env, body, offset, page, j + 1, st);
      } else if s.Wrote? {
        var st' := AfterWrite(env, body, page, j, st);
        EmitWellFormed(env.kind, env.api, st, s.row);
        if offset + j + 1 <= env.total {
          ItemsWellFormed(env, body, offset, page, j + 1, st');
          assert Items(env, body, offset, page, j, st) == Items(env, body, offset, page, j + 1, st');
        } else {
          assert Items(env, body, offset, page, j, st) == PageEnd(st', None);
        }
      }
    }
  }

  /** The page loop keeps the output well formed. */
  lemma {:induction false} PagesWellFormed(env: Env, body: ItemBody, offset: nat, st: State)
    requires Fetches(env, body)
    requires WellFormed(env.kind, env.api, st.lines, st.headerPending)
    ensures var end := Pages(env, body, offset, st).st;
      WellFormed(env.kind, env.api, end.lines, end.headerPending)
    decreases env.Bound() - offset
  {
    if offset < env.Bound() {
      var end := PageRound(env, body, offset, st);
      var q := Query(env.term, st.location, env.Limit(), offset);
      ItemsWellFormed(env, body, offset, env.api.search(q).businesses, 0, st.(queries := st.queries + [q]));
      if end.crash.None? {
        PagesWellFormed(env, body, offset + env.Limit(), end.st);
      }
    }
  }

  /**
   * The header is written exactly once, as the first line, immediately
   * before the first row, and only if a row is written; every row belongs
   * to a business whose detail request (and, for reviews, review request)
   * succeeded.
   */
  lemma RunOutputShape(kind: Kind, api: Api, term: string, location: string, records: int)
    ensures var r := Run(kind, api, term, location, records);
      (r.lines != [] ==> |r.lines| >= 2 && r.lines[0] == Header(kind) && r.lines[1].Data?) &&
      (forall i :: 1 <= i < |r.lines| ==> r.lines[i].Data? && Fetched(kind, api, r.lines[i].row))
  {
    var first := FirstQuery(term, location);
    if api.search(first).total.Some? {
      var env := Env(kind, api, term, api.search(first).total.value, records);
      BodyFetches(env);
      PagesWellFormed(env, Body(env), 0, State([], [first], true, None, Requested(location)));
    }
  }

  /** The page loop only appends search requests, the first of them with the current location. */
  lemma {:induction false} PagesExtendQueries(env: Env, body: ItemBody, offset: nat, st: State)
    ensures var p := Pages(env, body, offset, st);
      |p.st.queries| >= |st.queries| && p.st.queries[..|st.queries|] == st.queries &&
      (offset < env.Bound() ==> |p.st.queries| > |st.queries| && p.st.queries[|st.queries|].location == st.location)
    decreases env.Bound() - offset
  {
    if offset < env.Bound() {
      var end := PageRound(env, body, offset, st);
      var q := Query(env.term, st.location, env.Limit(), offset);
      ItemsKeepQueries(env, body, offset, env.api.search(q).businesses, 0, st.(queries := st.queries + [q]));
      if end.crash.None? {
        PagesExtendQueries(env, body, offset + env.Limit(), end.st);
        var qs := Pages(env, body, offset + env.Limit(), end.st).st.queries;
        assert qs[..|end.st.queries|] == end.st.queries;
        assert qs[..|st.queries|] == end.st.queries[..|st.queries|];
        assert qs[|st.queries|] == end.st.queries[|st.queries|];
      }
    }
  }

  /**
   * The page loop from `offset` sends as many search requests as the loop
   * condition allows, fewer only when it crashes.
   */
  lemma {:induction false} PagesCount(env: Env, body: ItemBody, offset: nat, st: State)
    ensures var p := Pages(env, body, offset, st);
      |p.st.queries| - |st.queries| <= PageCount(offset, env.Bound(), env.Limit()) &&
      (p.outcome == Finished ==> |p.st.queries| - |st.queries| == PageCount(offset, env.Bound(), env.Limit()))
    decreases env.Bound() - offset
  {
    if offset < env.Bound() {
      var end := PageRound(env, body, offset, st);
      var q := Query(env.term, st.location, env.Limit(), offset);
      ItemsKeepQueries(env, body, offset, env.api.search(q).businesses, 0, st.(queries := st.queries + [q]));
      if end.crash.None? {
        PagesCount(env, body, offset + env.Limit(), end.st);
      }
    }
  }

  /**
   * From index `from` on, `qs` holds requests for `term` with `limit`
   * results each, at offsets `offset`, `offset + limit`, ..., all below `bound`.
   */
  predicate Paged(qs: seq<Query>, from: nat, term: string, limit: int, offset: int, bound: int) {
    forall k :: from <= k < |qs| ==>
      qs[k].term == term && qs[k].limit == limit &&
      qs[k].offset == offset + (k - from) * limit && qs[k].offset < bound
  }

  /** One request in front of a paged run makes a paged run one page earlier. */
  lemma PagedStep(qs: seq<Query>, from: nat, term: string, limit: int, offset: int, bound: int)
    requires from < |qs| && qs[from].term == term && qs[from].limit == limit
    requires qs[from].offset == offset && offset < bound
    requires Paged(qs, from + 1, term, limit, offset + limit, bound)
    ensures Paged(qs, from, term, limit, offset, bound)
  {
    forall k | from < k < |qs|
      ensures qs[k].offset == offset + (k - from) * limit
    {
      MulSucc(k - from - 1, limit);
    }
  }

  /**
   * The page loop from `offset` requests `search_limit` results at offsets
   * `offset`, `offset + search_limit`, ..., all below the bound.
   */
  lemma {:induction false} PagesOffsets(env: Env, body: ItemBody, offset: nat, st: State)
    ensures Paged(Pages(env, body, offset, st).st.queries, |st.queries|, env.term, env.Limit(), offset, env.Bound())
    decreases env.Bound() - offset
  {
    if offset < env.Bound() {
      var end := PageRound(env, body, offset, st);
      var q := Query(env.term, st.location, env.Limit(), offset);
      ItemsKeepQueries(env, body, offset, env.api.search(q).businesses, 0, st.(queries := st.queries + [q]));
      if end.crash.None? {
        var next := offset + env.Limit();
        PagesOffsets(env, body, next, end.st);
        PagesExtendQueries(env, body, next, end.st);
        var qs := Pages(env, body, next, end.st).st.queries;
        assert qs[..|end.st.queries|] == end.st.queries;
        assert qs[|st.queries|] == end.st.queries[|st.queries|];
        PagedStep(qs, |st.queries|, env.term, env.Limit(), offset, env.Bound());
      }
    }
  }

  /** Counting rows over two stretches of output. */
  lemma {:induction false} RowCountAppend(a: seq<Line>, b: seq<Line>)
    ensures RowCount(a + b) == RowCount(a) + RowCount(b)
    decreases |b|
  {
    if b != [] {
      var b' := b[..|b| - 1];
      assert (a + b)[..|a + b| - 1] == a + b';
      RowCountAppend(a, b');
    } else {
      assert a + b == a;
    }
  }

  /** Writing one row adds exactly one data row, whether or not the header comes with it. */
  lemma EmitCount(kind: Kind, st: State, row: Row)
    ensures RowCount(Emit(kind, st, row).lines) == RowCount(st.lines) + 1
  {
    var written := (if st.headerPending then [Header(kind)] else []) + [Data(row)];
    assert Emit(kind, st, row).lines == st.lines + written;
    RowCountAppend(st.lines, written);
    assert RowCount([Data(row)]) == 1;
    assert RowCount(written) == 1 by {
      if st.headerPending {
        assert written[..1] == [Header(kind)];
      } else {
        assert written == [Data(row)];
      }
    }
  }

  /** Within one page the inner loop writes at most one row per remaining index. */
  lemma {:induction false} ItemsRowBound(env: Env, body: ItemBody, offset: int, page: Option<seq<Id>>, j: nat, st: State)
    requires j <= env.Limit()
    ensures RowCount(Items(env, body, offset, page, j, st).st.lines) <= RowCount(st.lines) + (env.Limit() - j)
    decreases env.Limit() - j
  {
    if j < env.Limit() {
      var s := body(page, j, st);
      if s.Skip? {
        ItemsRowBound(env, body, offset, page, j + 1, st);
        assert Items(env, body, offset, page, j, st) == Items(env, body, offset, page, j + 1, st);
      } else if s.Wrote? {
        var st' := AfterWrite(env, body, page, j, st);
        EmitCount(env.kind, st, s.row);
        assert RowCount(st'.lines) == RowCount(st.lines) + 1;
        if offset + j + 1 <= env.total {
          ItemsRowBound(env, body, offset, page, j + 1, st');
          assert Items(env, body, offset, page, j, st) == Items(env, body, offset, page, j + 1, st');
        } else {
          assert Items(env, body, offset, page, j, st) == PageEnd(st', None);
        }
      }
    }
  }

  /** Room for `pages` pages of `limit` rows each. */
  function Capacity(pages: int, limit: int): int
    decreases pages
  {
    if pages <= 0 then 0 else Capacity(pages - 1, limit) + limit
  }

  lemma {:induction false} CapacityIsProduct(pages: nat, limit: int)
    ensures Capacity(pages, limit) == pages * limit
  {
    if pages > 0 {
      CapacityIsProduct(pages - 1, limit);
      MulSucc(pages - 1, limit);
    }
  }

  /** The page loop writes at most `search_limit` rows per search request it sends. */
  lemma {:induction false} PagesRowBound(env: Env, body: ItemBody, offset: nat, st: State)
    ensures var p := Pages(env, body, offset, st);
      RowCount(p.st.lines) <= RowCount(st.lines) + Capacity(|p.st.queries| - |st.queries|, env.Limit())
    decreases env.Bound() - offset
  {
    if offset < env.Bound() {
      var end := PageRound(env, body, offset, st);
      var q := Query(env.term, st.location, env.Limit(), offset);
      var st1 := st.(queries := st.queries + [q]);
      ItemsRowBound(env, body, offset, env.api.search(q).businesses, 0, st1);
      ItemsKeepQueries(env, body, offset, env.api.search(q).businesses, 0, st1);
      assert |end.st.queries| == |st.queries| + 1;
      if end.crash.None? {
        var next := offset + env.Limit();
        PagesRowBound(env, body, next, end.st);
        PagesExtendQueries(env, body, next, end.st);
        var pages := |Pages(env, body, next, end.st).st.queries| - |st.queries|;
        assert Capacity(pages, env.Limit()) == Capacity(pages - 1, env.Limit()) + env.Limit();
      } else {
        assert Capacity(1, env.Limit()) == env.Limit();
      }
    }
  }

  /** The page loop writes at most `search_limit` rows per search request it sends. */
  lemma PagesRowProduct(env: Env, body: ItemBody, st: State)
    ensures var p := Pages(env, body, 0, st);
      RowCount(p.st.lines) <= RowCount(st.lines) + (|p.st.queries| - |st.queries|) * env.Limit()
  {
    PagesRowBound(env, body, 0, st);
    PagesExtendQueries(env, body, 0, st);
    CapacityIsProduct(|Pages(env, body, 0, st).st.queries| - |st.queries|, env.Limit());
  }

  /**
   * A run starts with the request for `total`; when the answer has no
   * `total` the run raises at once, having written nothing.
   */
  lemma RunFirstQuery(kind: Kind, api: Api, term: string, location: string, records: int)
    ensures var r, first := Run(kind, api, term, location, records), FirstQuery(term, location);
      |r.queries| >= 1 && r.queries[0] == first &&
      (api.search(first).total.None? ==> r == RunResult([], [first], Crashed(MissingTotal)))
  {
    var first := FirstQuery(term, location);
    if api.search(first).total.Some? {
      var env := Env(kind, api, term, api.search(first).total.value, records);
      PagesExtendQueries(env, Body(env), 0, State([], [first], true, None, Requested(location)));
      assert Run(kind, api, term, location, records).queries[..1] == [first];
    }
  }

  /**
   * After the request for `total`, a run sends at most `PageCount` search
   * requests (the ceiling of min(records, total) / search_limit), and
   * exactly that many when it finishes.
   */
  lemma RunPageCount(kind: Kind, api: Api, term: string, location: string, records: int)
    requires api.search(FirstQuery(term, location)).total.Some?
    ensures var r, total := Run(kind, api, term, location, records), api.search(FirstQuery(term, location)).total.value;
      var p := PageSize(records);
      |r.queries| - 1 <= PageCount(0, Min(p.records, total), p.limit) &&
      (r.outcome == Finished ==> |r.queries| - 1 == PageCount(0, Min(p.records, total), p.limit))
  {
    var first := FirstQuery(term, location);
    var env := Env(kind, api, term, api.search(first).total.value, records);
    PagesCount(env, Body(env), 0, State([], [first], true, None, Requested(location)));
  }

  /**
   * The k-th page (k >= 1) is requested for `term` and search_limit
   * results, at offset (k - 1) * search_limit, which is below
   * min(records, total).
   */
  lemma RunOffsets(kind: Kind, api: Api, term: string, location: string, records: int)
    requires api.search(FirstQuery(term, location)).total.Some?
    ensures var r, total := Run(kind, api, term, location, records), api.search(FirstQuery(term, location)).total.value;
      var p := PageSize(records);
      forall k :: 1 <= k < |r.queries| ==>
        r.queries[k].term == term && r.queries[k].limit == p.limit &&
        r.queries[k].offset == (k - 1) * p.limit && r.queries[k].offset < Min(p.records, total)
  {
    var first := FirstQuery(term, location);
    var env := Env(kind, api, term, api.search(first).total.value, records);
    PagesOffsets(env, Body(env), 0, State([], [first], true, None, Requested(location)));
  }

  /** A run writes at most search_limit rows per page it requests. */
  lemma RunRowBound(kind: Kind, api: Api, term: string, location: string, records: int)
    requires api.search(FirstQuery(term, location)).total.Some?
    ensures var r := Run(kind, api, term, location, records);
      RowCount(r.lines) <= (|r.queries| - 1) * PageSize(records).limit
  {
    var first := FirstQuery(term, location);
    var env := Env(kind, api, term, api.search(first).total.value, records);
    PagesRowProduct(env, Body(env), State([], [first], true, None, Requested(location)));
  }

  /**
   * The cap that does hold: a run writes at most `PageCount` pages of
   * search_limit rows, hence never more than 1000 rows, and never more than
   * `records` when 1 <= records <= 50 (one page).
   */
  lemma RunRowsBounded(kind: Kind, api: Api, term: string, location: string, records: int)
    requires api.search(FirstQuery(term, location)).total.Some?
    ensures var r, total := Run(kind, api, term, location, records), api.search(FirstQuery(term, location)).total.value;
      var p := PageSize(records);
      RowCount(r.lines) <= PageCount(0, Min(p.records, total), p.limit) * p.limit &&
      RowCount(r.lines) <= 1000 &&
      (1 <= records <= 50 ==> RowCount(r.lines) <= records)
  {
    var r, total := Run(kind, api, term, location, records), api.search(FirstQuery(term, location)).total.value;
    var p := PageSize(records);
    var b := Min(p.records, total);
    RunFirstQuery(kind, api, term, location, records);
    RunRowBound(kind, api, term, location, records);
    RunPageCount(kind, api, term, location, records);
    var pages, n := |r.queries| - 1, PageCount(0, b, p.limit);
    assert RowCount(r.lines) <= pages * p.limit;
    if b <= 0 {
      assert n == 0 && pages == 0;
    } else {
      assert 1 <= p.limit <= 50;
      assert (n - pages) * p.limit >= 0 by { MultipleBound(n - pages, p.limit); }
      assert pages * p.limit <= n * p.limit;
      PageCountIsCeiling(0, b, p.limit);
      if p.records <= 50 {
        DivisionUnique(b + p.limit - 1, p.limit, 1, b - 1);
        assert n == 1;
      } else {
        assert p.limit == 50 && b <= 1000;
        assert n <= 20;
      }
    }
  }

  /**
   * When 1 <= records <= 50 and the search reports at least one business,
   * exactly one page is requested, at offset 0 with the caller's location,
   * for `records` results, and at most `records` rows are written.
   */
  lemma RunOnePage(kind: Kind, api: Api, term: string, location: string, records: int)
    requires 1 <= records <= 50
    requires api.search(FirstQuery(term, location)).total.Some?
    requires api.search(FirstQuery(term, location)).total.value >= 1
    ensures var r := Run(kind, api, term, location, records);
      |r.queries| == 2 && r.queries[1] == Query(term, Requested(location), records, 0) &&
      RowCount(r.lines) <= records
  {
    var first := FirstQuery(term, location);
    var total := api.search(first).total.value;
    var env := Env(kind, api, term, total, records);
    var st0 := State([], [first], true, None, Requested(location));
    PagesExtendQueries(env, Body(env), 0, st0);
    RunPageCount(kind, api, term, location, records);
    RunOffsets(kind, api, term, location, records);
    RunRowBound(kind, api, term, location, records);
    assert PageCount(records, env.Bound(), records) == 0;
  }

  /** An inner loop whose body keeps the location keeps the location, `hours_type` and the requests. */
  lemma {:induction false} ItemsKeepLocation(env: Env, body: ItemBody, offset: int, page: Option<seq<Id>>, j: nat, st: State)
    requires KeepsLocation(body)
    ensures var end := Items(env, body, offset, page, j, st).st;
      end.queries == st.queries && end.hoursType == st.hoursType && end.location == st.location
    decreases env.Limit() - j
  {
    if j < env.Limit() {
      var s := body(page, j, st);
      if s.Skip? {
        ItemsKeepLocation(env, body, offset, page, j + 1, st);
      } else if s.Wrote? && offset + j + 1 <= env.total {
        var st' := AfterWrite(env, body, page, j, st);
        ItemsKeepLocation(env, body, offset, page, j + 1, st');
        assert Items(env, body, offset, page, j, st) == Items(env, body, offset, page, j + 1, st');
      }
    }
  }

  /** A page loop whose body keeps the location searches with that location throughout. */
  lemma {:induction false} PagesKeepLocation(env: Env, body: ItemBody, offset: nat, st: State)
    requires KeepsLocation(body)
    requires forall q :: q in st.queries ==> q.location == st.location
    ensures var p := Pages(env, body, offset, st);
      p.st.location == st.location && forall q :: q in p.st.queries ==> q.location == st.location
    decreases env.Bound() - offset
  {
    if offset < env.Bound() {
      var end := PageRound(env, body, offset, st);
      var q := Query(env.term, st.location, env.Limit(), offset);
      ItemsKeepLocation(env, body, offset, env.api.search(q).businesses, 0, st.(queries := st.queries + [q]));
      if end.crash.None? {
        PagesKeepLocation(env, body, offset + env.Limit(), end.st);
      }
    }
  }

  /**
   * The review exporter searches every page with the caller's location (the
   * details exporter instead rebinds `location`, see `ItemPolicy`).
   */
  lemma RunReviewsKeepLocation(api: Api, term: string, location: string, records: int)
    ensures var r := Run(Reviews, api, term, location, records);
      forall q :: q in r.queries ==> q.location == Requested(location)
  {
    var first := FirstQuery(term, location);
    if api.search(first).total.Some? {
      var env := Env(Reviews, api, term, api.search(first).total.value, records);
      ReviewBodyKeepsLocation(env);
      PagesKeepLocation(env, Body(env), 0, State([], [first], true, None, Requested(location)));
    }
  }

  /**
   * A failed detail request makes the details exporter go on with the next
   * index without writing, and makes the review exporter end the page; so
   * does a failed review request.
   */
  lemma FailurePolicy(env: Env, offset: int, page: seq<Id>, j: nat, st: State)
    requires j < env.Limit() && j < |page|
    ensures env.kind == Details && env.api.details(page[j]).None? ==>
      Items(env, Body(env), offset, Some(page), j, st) == Items(env, Body(env), offset, Some(page), j + 1, st)
    ensures env.kind == Reviews && (env.api.details(page[j]).None? || env.api.reviews(page[j]).None?) ==>
      Items(env, Body(env), offset, Some(page), j, st) == PageEnd(st, None)
  {
    ItemPolicy(env, Some(page), j, st);
    assert Body(env)(Some(page), j, st) == ItemStep(env, Some(page), j, st);
  }

  /**
   * From `offset` on, every page the loop requests ends at or before
   * `total`, so the check `offset + j > total` never ends one early.
   */
  predicate NoEarlyStop(env: Env, offset: nat)
    decreases env.Bound() - offset
  {
    offset < env.Bound() ==> offset + env.Limit() <= env.total && NoEarlyStop(env, offset + env.Limit())
  }

  /** The body writes a row at every index of every page the search endpoint returns. */
  ghost predicate WritesEveryIndex(env: Env, body: ItemBody) {
    forall q: Query, k: nat, s: State :: q.limit == env.Limit() && k < env.Limit() ==>
      body(env.api.search(q).businesses, k, s).Wrote?
  }

  /** An inner loop whose body writes at every index writes one row per remaining index. */
  lemma {:induction false} ItemsWriteAll(env: Env, body: ItemBody, offset: int, page: Option<seq<Id>>, j: nat, st: State)
    requires j <= env.Limit() && offset + env.Limit() <= env.total
    requires forall k: nat, s: State :: j <= k < env.Limit() ==> body(page, k, s).Wrote?
    ensures var end := Items(env, body, offset, page, j, st);
      end.crash.None? && end.st.queries == st.queries &&
      RowCount(end.st.lines) == RowCount(st.lines) + (env.Limit() - j)
    decreases env.Limit() - j
  {
    if j < env.Limit() {
      var st' := AfterWrite(env, body, page, j, st);
      EmitCount(env.kind, st, body(page, j, st).row);
      ItemsWriteAll(env, body, offset, page, j + 1, st');
      assert Items(env, body, offset, page, j, st) == Items(env, body, offset, page, j + 1, st');
    }
  }

  /**
   * A page loop whose pages are all written in full finishes with
   * search_limit rows for every page it requests.
   */
  lemma {:induction false} PagesWriteAll(env: Env, body: ItemBody, offset: nat, st: State)
    requires WritesEveryIndex(env, body) && NoEarlyStop(env, offset)
    ensures var p := Pages(env, body, offset, st);
      p.outcome == Finished &&
      RowCount(p.st.lines) == RowCount(st.lines) + Capacity(PageCount(offset, env.Bound(), env.Limit()), env.Limit())
    decreases env.Bound() - offset
  {
    if offset < env.Bound() {
      var q := Query(env.term, st.location, env.Limit(), offset);
      var end := PageRound(env, body, offset, st);
      ItemsWriteAll(env, body, offset, env.api.search(q).businesses, 0, st.(queries := st.queries + [q]));
      PagesWriteAll(env, body, offset + env.Limit(), end.st);
      var n := PageCount(offset + env.Limit(), env.Bound(), env.Limit());
      assert Capacity(n + 1, env.Limit()) == Capacity(n, env.Limit()) + env.Limit();
    }
  }

  /**
   * Rows are not capped at `records`: with `records` = 75 and `total` = 100,
   * when every page is full and every request succeeds, the run requests
   * two pages of 50 and writes 100 rows.
   */
  lemma RowsNotCappedAtRecords(kind: Kind, api: Api, term: string, location: string)
    requires api.search(FirstQuery(term, location)).total == Some(100)
    requires forall q: Query :: q.limit == 50 ==>
      api.search(q).businesses.Some? && |api.search(q).businesses.value| >= 50
    requires forall id: Id :: api.details(id).Some?
    requires kind == Details ==> forall id: Id ::
      api.details(id).value.hours.Some? && |api.details(id).value.hours.value| > 0
    requires kind == Reviews ==> forall id: Id :: api.reviews(id).Some?
    ensures var r := Run(kind, api, term, location, 75);
      r.outcome == Finished && RowCount(r.lines) == 100
  {
    var first := FirstQuery(term, location);
    var env := Env(kind, api, term, 100, 75);
    assert env.Limit() == 50 && env.Bound() == 75;
    forall q: Query, k: nat, s: State | q.limit == env.Limit() && k < env.Limit()
      ensures Body(env)(api.search(q).businesses, k, s).Wrote?
    {
      assert Body(env)(api.search(q).businesses, k, s) == ItemStep(env, api.search(q).businesses, k, s);
    }
    assert NoEarlyStop(env, 100);
    assert NoEarlyStop(env, 50);
    assert PageCount(0, 75, 50) == 2 by {
      assert PageCount(100, 75, 50) == 0;
      assert PageCount(50, 75, 50) == 1;
    }
    assert Capacity(2, 50) == 100 by {
      assert Capacity(0, 50) == 0;
      assert Capacity(1, 50) == 50;
    }
    PagesWriteAll(env, Body(env), 0, State([], [first], true, None, Requested(location)));
  }

  /**
   * A first page on which index 0 writes a row and index 1 raises ends the
   * run right there, with that row written.
   */
  lemma WriteThenRaise(env: Env, body: ItemBody, st: State, c: Crash)
    requires 0 < env.Bound() && 2 <= env.Limit() && 1 <= env.total
    requires var q := Query(env.term, st.location, env.Limit(), 0);
      var page, st1 := env.api.search(q).businesses, st.(queries := st.queries + [q]);
      body(page, 0, st1).Wrote? && body(page, 1, AfterWrite(env, body, page, 0, st1)) == Abort(c)
    ensures var q := Query(env.term, st.location, env.Limit(), 0);
      var page, st1 := env.api.search(q).businesses, st.(queries := st.queries + [q]);
      Pages(env, body, 0, st) == Progress(AfterWrite(env, body, page, 0, st1), Crashed(c))
  {
    var q := Query(env.term, st.location, env.Limit(), 0);
    var page, st1 := env.api.search(q).businesses, st.(queries := st.queries + [q]);
    var st2 := AfterWrite(env, body, page, 0, st1);
    assert Items(env, body, 0, page, 1, st2) == PageEnd(st2, Some(c));
    assert Items(env, body, 0, page, 0, st1) == PageEnd(st2, Some(c));
  }

  /**
   * The inner loop stops only once `offset + j > total`, one index too
   * late: when fewer businesses exist than were asked for, the last page
   * is indexed one past its end.  With `total` = 1, `records` = 2 and a
   * page holding the one business, the run writes the header and that
   * business's row and then raises at index 1.
   */
  lemma ShortLastPageCrashes(kind: Kind, api: Api, term: string, location: string, b: Id)
    requires api.search(FirstQuery(term, location)).total == Some(1)
    requires api.search(Query(term, Requested(location), 2, 0)).businesses == Some([b])
    requires api.details(b).Some?
    requires kind == Details ==> api.details(b).value.hours.Some? && |api.details(b).value.hours.value| > 0
    requires kind == Reviews ==> api.reviews(b).Some?
    ensures var r := Run(kind, api, term, location, 2);
      r.outcome == Crashed(IndexOutOfRange(1)) && |r.lines| == 2 && r.lines[0] == Header(kind) &&
      r.lines[1].Data? && r.lines[1].row.Id() == b
  {
    var first := FirstQuery(term, location);
    var env := Env(kind, api, term, 1, 2);
    var st0 := State([], [first], true, None, Requested(location));
    var q := Query(term, Requested(location), 2, 0);
    var st1 := st0.(queries := st0.queries + [q]);
    var page := Some([b]);
    ItemPolicy(env, page, 0, st1);
    assert Body(env)(page, 0, st1) == ItemStep(env, page, 0, st1);
    var st2 := AfterWrite(env, Body(env), page, 0, st1);
    ItemPolicy(env, page, 1, st2);
    assert Body(env)(page, 1, st2) == ItemStep(env, page, 1, st2);
    WriteThenRaise(env, Body(env), st0, IndexOutOfRange(1));
  }
}
