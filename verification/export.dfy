/**
 * The two exporters of business.py: `get_all_business_details` and
 * `get_all_business_reviews`.  Each asks the search endpoint for the total,
 * then walks the result pages by offset, fetches every business on a page,
 * flattens it into one row and appends the row, after a single header line,
 * to the output.
 *
 * The HTTP endpoints are inputs (`Api`).  An exception the source does not
 * catch ends the export with `Crashed`; the lines appended before it stay in
 * the output.  `Run` is the specification of one export run, written as the
 * recursion the loops unfold to; `ExportDetails` and `ExportReviews` are the
 * loops themselves, proved equal to it.
 */
module Export {
  import opened Wrappers
  import opened Json
  import opened Paging
  import BusinessRows
  import ReviewRows

  /** A business id as the search endpoint returns it. */
  type Id = string

  /** Which of the two exporters runs. */
  datatype Kind = Details | Reviews

  /**
   * The `location` argument of a search request: the caller's location, or,
   * once the details exporter has rebound the name `location`, the
   * `location` field of the last business it flattened (possibly missing).
   */
  datatype SearchLocation = Requested(name: string) | FromDetail(location: Option<Location>)

  /** One request to the search endpoint. */
  datatype Query = Query(term: string, location: SearchLocation, limit: int, offset: int)

  /** The answer of the search endpoint: the ids on the page and the total, either possibly missing. */
  datatype Page = Page(businesses: Option<seq<Id>>, total: Option<int>)

  /**
   * The endpoints, as the exporters see them.  A detail or review request
   * that raises is `None`.  `listRepr` stands for Python's `str()` of a
   * list of leaves, as a function of the leaves' `str()` texts.
   */
  datatype Api = Api(
    search: Query -> Page,
    details: Id -> Option<Detail>,
    reviews: Id -> Option<ReviewSet>,
    listRepr: seq<Scalar> -> string)

  /** A flattened row of either exporter. */
  datatype Row = BusinessLine(business: BusinessRows.BusinessRow) | ReviewLine(review: ReviewRows.ReviewRow) {
    /** The exporter that writes rows of this shape. */
    function Exporter(): Kind {
      if BusinessLine? then Details else Reviews
    }
    /** The `id` column. */
    function Id(): Id {
      match this
      case BusinessLine(b) => b.id
      case ReviewLine(r) => r.id
    }
    /** The cells written for the row, one per column of its exporter's header. */
    function Cells(): (cells: seq<Scalar>)
      ensures |cells| == |Columns(Exporter())|
      ensures cells[0] == Text(Id())
    {
      match this
      case BusinessLine(b) => b.Cells()
      case ReviewLine(r) => r.Cells()
    }
  }

  /** One line of the delimited output: the header of an exporter (its `Columns`), or one row. */
  datatype Line = Header(kind: Kind) | Data(row: Row)

  /** The exceptions that escape an exporter and end it. */
  datatype Crash =
    | MissingTotal                                  // `min(records, None)`
    | NoBusinesses                                  // `None[j]`: the page has no `businesses`
    | IndexOutOfRange(index: int)                   // `businesses[j]` past the end of the page
    | Flattening(error: BusinessRows.FlattenError)

  /** How an export run ends. */
  datatype Outcome = Finished | Crashed(crash: Crash)

  /** Everything one export run leaves behind. */
  datatype RunResult = RunResult(lines: seq<Line>, queries: seq<Query>, outcome: Outcome)

  /**
   * The variables the loops update: the output so far, the search requests
   * sent so far, the `flag` that says the header is still to be written,
   * the variable `hours_type` (`None` while unbound) and the search location.
   */
  datatype State = State(
    lines: seq<Line>, queries: seq<Query>, headerPending: bool,
    hoursType: Option<Scalar>, location: SearchLocation)

  /** What stays fixed during the page loop: the exporter, the endpoints, the term, `total` and the requested records. */
  datatype Env = Env(kind: Kind, api: Api, term: string, total: int, requested: int) {
    /** `search_limit`. */
    function Limit(): int {
      PageSize(requested).limit
    }
    /** `min(records, total)` with `records` already capped. */
    function Bound(): int {
      Min(PageSize(requested).records, total)
    }
  }

  /** The header each exporter writes. */
  function Columns(kind: Kind): seq<string> {
    match kind
    case Details => BusinessRows.Columns
    case Reviews => ReviewRows.Columns
  }

  /** What processing the item at index `j` of a page does. */
  datatype Step =
    | Abort(crash: Crash)   // an uncaught exception
    | Skip                  // `continue`: nothing written, go on with the next index
    | EndPage               // `break` after a failed request: nothing written, the page is over
    | Wrote(row: Row, hoursType: Option<Scalar>, location: SearchLocation)

  /** `businesses[j]`: the id at index `j`, or the exception indexing raises. */
  function Lookup(page: Option<seq<Id>>, j: nat): Result<Id, Crash> {
    if page.None? then Failure(NoBusinesses)
    else if j >= |page.value| then Failure(IndexOutOfRange(j))
    else Success(page.value[j])
  }

  /**
   * The body of the details exporter's inner loop for index `j`, up to the
   * row it writes: a failed detail request is skipped; flattening may raise.
   */
  function DetailStep(api: Api, page: Option<seq<Id>>, j: nat, st: State): Step {
    match Lookup(page, j)
    case Failure(c) => Abort(c)
    case Success(id) =>
      match api.details(id)
      case None => Skip
      case Some(d) =>
        match BusinessRows.FlattenBusiness(id, d, st.hoursType, api.listRepr)
        case Failure(e) => Abort(Flattening(e))
        case Success(row) => Wrote(BusinessLine(row), Some(row.hoursType), FromDetail(d.location))
  }

  /**
   * The body of the review exporter's inner loop for index `j`, up to the
   * row it writes: a failed detail or review request ends the page.
   */
  function ReviewStep(api: Api, page: Option<seq<Id>>, j: nat, st: State): Step {
    match Lookup(page, j)
    case Failure(c) => Abort(c)
    case Success(id) =>
      match api.details(id)
      case None => EndPage
      case Some(d) =>
        match api.reviews(id)
        case None => EndPage
        case Some(rs) => Wrote(ReviewLine(ReviewRows.FlattenReviews(id, d, rs, api.listRepr)),
                               st.hoursType, st.location)
  }

  /** The body of the inner loop of `env`'s exporter for index `j`. */
  function ItemStep(env: Env, page: Option<seq<Id>>, j: nat, st: State): Step {
    match env.kind
    case Details => DetailStep(env.api, page, j, st)
    case Reviews => ReviewStep(env.api, page, j, st)
  }

  /**
   * The details exporter at index `j`: a missing page or index raises; a
   * failed detail request is skipped (`continue`); a fetched business is
   * flattened, which may raise, and otherwise written, `hours_type` and the
   * search location becoming that business's.
   */
  lemma DetailsItemPolicy(api: Api, page: Option<seq<Id>>, j: nat, st: State)
    ensures var s := DetailStep(api, page, j, st);
      (page.None? ==> s == Abort(NoBusinesses)) &&
      (page.Some? && j >= |page.value| ==> s == Abort(IndexOutOfRange(j))) &&
      !s.EndPage?
    ensures page.Some? && j < |page.value| ==>
      var s, id := DetailStep(api, page, j, st), page.value[j];
      (s.Skip? <==> api.details(id).None?) &&
      (api.details(id).Some? ==>
        var flat := BusinessRows.FlattenBusiness(id, api.details(id).value, st.hoursType, api.listRepr);
        (flat.Failure? ==> s == Abort(Flattening(flat.error))) &&
        (flat.Success? ==> s.Wrote? && s.row == BusinessLine(flat.value) && s.row.Id() == id &&
                           s.hoursType == Some(flat.value.hoursType) &&
                           s.location == FromDetail(api.details(id).value.location)))
  {
  }

  /**
   * The review exporter at index `j`: a missing page or index raises; a
   * failed detail or review request ends the page (`break`); otherwise the
   * business's row is written, leaving `hours_type` and the location alone.
   */
  lemma ReviewsItemPolicy(api: Api, page: Option<seq<Id>>, j: nat, st: State)
    ensures var s := ReviewStep(api, page, j, st);
      (page.None? ==> s == Abort(NoBusinesses)) &&
      (page.Some? && j >= |page.value| ==> s == Abort(IndexOutOfRange(j))) &&
      !s.Skip?
    ensures page.Some? && j < |page.value| ==>
      var s, id := ReviewStep(api, page, j, st), page.value[j];
      !s.Abort? &&
      (s.EndPage? <==> api.details(id).None? || api.reviews(id).None?) &&
      (s.Wrote? ==>
        s.row == ReviewLine(ReviewRows.FlattenReviews(id, api.details(id).value, api.reviews(id).value, api.listRepr)) &&
        s.row.Id() == id && s.hoursType == st.hoursType && s.location == st.location)
  {
  }

  /** The two item policies above, for either exporter. */
  lemma ItemPolicy(env: Env, page: Option<seq<Id>>, j: nat, st: State)
    ensures var s := ItemStep(env, page, j, st);
      (page.None? ==> s == Abort(NoBusinesses)) &&
      (page.Some? && j >= |page.value| ==> s == Abort(IndexOutOfRange(j))) &&
      (s.Skip? ==> env.kind == Details) &&
      (s.EndPage? ==> env.kind == Reviews)
    ensures page.Some? && j < |page.value| ==>
      var s, id := ItemStep(env, page, j, st), page.value[j];
      (env.kind == Details && env.api.details(id).None? ==> s == Skip) &&
      (env.kind == Reviews && (env.api.details(id).None? || env.api.reviews(id).None?) ==> s == EndPage) &&
      (s.Wrote? ==> s.row.Exporter() == env.kind && s.row.Id() == id &&
                    env.api.details(id).Some? &&
                    (env.kind == Reviews ==> env.api.reviews(id).Some?)) &&
      (s.Wrote? && env.kind == Details ==> s.location == FromDetail(env.api.details(id).value.location)) &&
      (s.Wrote? && env.kind == Reviews ==> s.location == st.location && s.hoursType == st.hoursType)
  {
    if env.kind == Details {
      DetailsItemPolicy(env.api, page, j, st);
    } else {
      ReviewsItemPolicy(env.api, page, j, st);
    }
  }

  /**
   * The body of an inner loop, index by index.  The page loop below is the
   * same for both exporters; they differ only in this body.
   */
  type ItemBody = (Option<seq<Id>>, nat, State) -> Step

  /** The body of the inner loop of `env`'s exporter. */
  function Body(env: Env): ItemBody {
    match env.kind
    case Details => (page: Option<seq<Id>>, j: nat, st: State) => DetailStep(env.api, page, j, st)
    case Reviews => (page: Option<seq<Id>>, j: nat, st: State) => ReviewStep(env.api, page, j, st)
  }

  /**
   * `body` agrees with the details exporter's loop body at every index.
   * The loop methods below are proved for any such body, `Body(env)` among
   * them; stating the agreement pointwise keeps the flattening out of the
   * proofs that do not look at a single index.
   */
  ghost predicate DetailsBody(api: Api, body: ItemBody) {
    forall page, j, st {:trigger DetailStep(api, page, j, st)} :: body(page, j, st) == DetailStep(api, page, j, st)
  }

  /** `body` agrees with the review exporter's loop body at every index. */
  ghost predicate ReviewsBody(api: Api, body: ItemBody) {
    forall page, j, st {:trigger ReviewStep(api, page, j, st)} :: body(page, j, st) == ReviewStep(api, page, j, st)
  }

  /** Writing one row: the header first if it is still pending, then the row. */
  function Emit(kind: Kind, st: State, row: Row): State {
    st.(lines := (if st.headerPending then st.lines + [Header(kind)] else st.lines) + [Data(row)],
        headerPending := false)
  }

  /** How a page ends: the state after it, and the exception that ended the run, if any. */
  datatype PageEnd = PageEnd(st: State, crash: Option<Crash>)

  /**
   * The inner loop from index `j` on: it stops after `search_limit` indices,
   * after a `break`, or as soon as `offset + j > total` after a written row.
   */
  function Items(env: Env, body: ItemBody, offset: int, page: Option<seq<Id>>, j: nat, st: State): PageEnd
    decreases env.Limit() - j
  {
    if j < env.Limit() then
      match body(page, j, st)
      case Abort(c) => PageEnd(st, Some(c))
      case Skip => Items(env, body, offset, page, j + 1, st)
      case EndPage => PageEnd(st, None)
      case Wrote(row, hoursType, location) =>
        var st' := Emit(env.kind, st, row).(hoursType := hoursType, location := location);
        if offset + j + 1 > env.total then PageEnd(st', None)
        else Items(env, body, offset, page, j + 1, st')
    else PageEnd(st, None)
  }

  /** The result of the page loop: the final state and how the run ended. */
  datatype Progress = Progress(st: State, outcome: Outcome)

  /** The outer loop from `offset` on: one search request and one inner loop per page. */
  function Pages(env: Env, body: ItemBody, offset: nat, st: State): Progress
    decreases env.Bound() - offset
  {
    if offset < env.Bound() then
      var q := Query(env.term, st.location, env.Limit(), offset);
      var end := Items(env, body, offset, env.api.search(q).businesses, 0, st.(queries := st.queries + [q]));
      if end.crash.Some? then Progress(end.st, Crashed(end.crash.value))
      else Pages(env, body, offset + env.Limit(), end.st)
    else Progress(st, Finished)
  }

  /** One round of the page loop: the request it sends, the inner loop it runs, and what follows. */
  lemma PageRound(env: Env, body: ItemBody, offset: nat, st: State) returns (end: PageEnd)
    requires offset < env.Bound()
    ensures var q := Query(env.term, st.location, env.Limit(), offset);
      end == Items(env, body, offset, env.api.search(q).businesses, 0, st.(queries := st.queries + [q]))
    ensures end.crash.Some? ==> Pages(env, body, offset, st) == Progress(end.st, Crashed(end.crash.value))
    ensures end.crash.None? ==> Pages(env, body, offset, st) == Pages(env, body, offset + env.Limit(), end.st)
  {
    var q := Query(env.term, st.location, env.Limit(), offset);
    end := Items(env, body, offset, env.api.search(q).businesses, 0, st.(queries := st.queries + [q]));
  }

  /** The first search request, which is sent only to learn `total`. */
  function FirstQuery(term: string, location: string): Query {
    Query(term, Requested(location), 1, 0)
  }

  /** One export run of either exporter. */
  function Run(kind: Kind, api: Api, term: string, location: string, records: int): RunResult {
    var first := FirstQuery(term, location);
    match api.search(first).total
    case None => RunResult([], [first], Crashed(MissingTotal))
    case Some(total) =>
      var env := Env(kind, api, term, total, records);
      var p := Pages(env, Body(env), 0, State([], [first], true, None, Requested(location)));
      RunResult(p.st.lines, p.st.queries, p.outcome)
  }

  /**
   * The inner loop of `get_all_business_details` over one page: `j` runs
   * over the indices of the page.  The exporter's loop variables (the
   * output, `flag`, `hours_type`, `location`) are the fields of `s`; they
   * come in through `st` and go out through the result.
   */
  method DetailsPage(env: Env, ghost body: ItemBody, offset: int, businesses: Option<seq<Id>>, st: State) returns (end: PageEnd)
    requires env.kind == Details && DetailsBody(env.api, body)
    ensures end == Items(env, body, offset, businesses, 0, st)
  {
    var api, total, searchLimit := env.api, env.total, env.Limit();
    var s := st;
    var j: nat := 0;
    while j < searchLimit
      invariant Items(env, body, offset, businesses, j, s) == Items(env, body, offset, businesses, 0, st)
    {
      assert body(businesses, j, s) == DetailStep(api, businesses, j, s);
      if businesses.None? {
        return PageEnd(s, Some(NoBusinesses));
      }
      if j >= |businesses.value| {
        return PageEnd(s, Some(IndexOutOfRange(j)));
      }
      var businessId := businesses.value[j];
      var fetched := api.details(businessId);
      if fetched.None? {
        j := j + 1;
        continue;
      }
      var flat := BusinessRows.FlattenDetails(businessId, fetched.value, s.hoursType, api.listRepr);
      if flat.Failure? {
        return PageEnd(s, Some(Flattening(flat.error)));
      }
      s := s.(hoursType := Some(flat.value.hoursType), location := FromDetail(fetched.value.location));
      if s.headerPending {
        s := s.(lines := s.lines + [Header(Details)], headerPending := false);
      }
      s := s.(lines := s.lines + [Data(BusinessLine(flat.value))]);
      j := j + 1;
      if offset + j > total {
        break;
      }
    }
    end := PageEnd(s, None);
  }

  /**
   * The inner loop of `get_all_business_reviews` over one page: a failed
   * detail or review request ends the page with `break`.
   */
  method ReviewsPage(env: Env, ghost body: ItemBody, offset: int, businesses: Option<seq<Id>>, st: State) returns (end: PageEnd)
    requires env.kind == Reviews && ReviewsBody(env.api, body)
    ensures end == Items(env, body, offset, businesses, 0, st)
  {
    var api, total, searchLimit := env.api, env.total, env.Limit();
    var s := st;
    var j: nat := 0;
    while j < searchLimit
      invariant Items(env, body, offset, businesses, j, s) == Items(env, body, offset, businesses, 0, st)
    {
      assert body(businesses, j, s) == ReviewStep(api, businesses, j, s);
      if businesses.None? {
        return PageEnd(s, Some(NoBusinesses));
      }
      if j >= |businesses.value| {
        return PageEnd(s, Some(IndexOutOfRange(j)));
      }
      var businessId := businesses.value[j];
      var fetched := api.details(businessId);
      if fetched.None? {
        j := j + 1;
        break;
      }
      var businessReviews := api.reviews(businessId);
      if businessReviews.None? {
        j := j + 1;
        break;
      }
      var row := ReviewRows.FlattenReviewSet(businessId, fetched.value, businessReviews.value, api.listRepr);
      if s.headerPending {
        s := s.(lines := s.lines + [Header(Reviews)], headerPending := false);
      }
      s := s.(lines := s.lines + [Data(ReviewLine(row))]);
      j := j + 1;
      if offset + j > total {
        break;
      }
    }
    end := PageEnd(s, None);
  }

  /**
   * The page loop of `get_all_business_details`: `records` is capped and
   * `search_limit` chosen, then one search request and one inner loop run
   * per page while `offset < min(records, total)`.
   */
  method DetailsPages(env: Env, ghost body: ItemBody, st: State) returns (p: Progress)
    requires env.kind == Details && DetailsBody(env.api, body)
    ensures p == Pages(env, body, 0, st)
  {
    var setting := PageSize(env.requested);
    var records, searchLimit := setting.records, setting.limit;
    var s := st;
    var offset: nat := 0;
    ghost var result := Pages(env, body, 0, st);
    while offset < Min(records, env.total)
      invariant Pages(env, body, offset, s) == result
      decreases Min(records, env.total) - offset
    {
      var q := Query(env.term, s.location, searchLimit, offset);
      var end := DetailsPage(env, body, offset, env.api.search(q).businesses, s.(queries := s.queries + [q]));
      if end.crash.Some? {
        return Progress(end.st, Crashed(end.crash.value));
      }
      s := end.st;
      offset := searchLimit + offset;
    }
    p := Progress(s, Finished);
  }

  /**
   * The page loop of `get_all_business_reviews`, the same loop as the
   * details exporter's around the other inner loop.
   */
  method ReviewsPages(env: Env, ghost body: ItemBody, st: State) returns (p: Progress)
    requires env.kind == Reviews && ReviewsBody(env.api, body)
    ensures p == Pages(env, body, 0, st)
  {
    var setting := PageSize(env.requested);
    var records, searchLimit := setting.records, setting.limit;
    var s := st;
    var offset: nat := 0;
    ghost var result := Pages(env, body, 0, st);
    while offset < Min(records, env.total)
      invariant Pages(env, body, offset, s) == result
      decreases Min(records, env.total) - offset
    {
      var q := Query(env.term, s.location, searchLimit, offset);
      var end := ReviewsPage(env, body, offset, env.api.search(q).businesses, s.(queries := s.queries + [q]));
      if end.crash.Some? {
        return Progress(end.st, Crashed(end.crash.value));
      }
      s := end.st;
      offset := searchLimit + offset;
    }
    p := Progress(s, Finished);
  }

  /**
   * `get_all_business_details`: the request for `total`, then the page
   * loop, writing one row per business whose detail request succeeds.
   */
  method ExportDetails(api: Api, term: string, location: string, records: int)
    returns (lines: seq<Line>, queries: seq<Query>, outcome: Outcome)
    ensures RunResult(lines, queries, outcome) == Run(Details, api, term, location, records)
  {
    var first := FirstQuery(term, location);
    var response := api.search(first);
    if response.total.None? {
      return [], [first], Crashed(MissingTotal);
    }
    var env := Env(Details, api, term, response.total.value, records);
    var p := DetailsPages(env, Body(env), State([], [first], true, None, Requested(location)));
    return p.st.lines, p.st.queries, p.outcome;
  }

  /**
   * `get_all_business_reviews`: the request for `total`, then the page
   * loop, writing one row per business whose detail and review requests
   * both succeed.
   */
  method ExportReviews(api: Api, term: string, location: string, records: int)
    returns (lines: seq<Line>, queries: seq<Query>, outcome: Outcome)
    ensures RunResult(lines, queries, outcome) == Run(Reviews, api, term, location, records)
  {
    var first := FirstQuery(term, location);
    var response := api.search(first);
    if response.total.None? {
      return [], [first], Crashed(MissingTotal);
    }
    var env := Env(Reviews, api, term, response.total.value, records);
    // this exporter never binds `hours_type`; the state carries it unbound
    var p := ReviewsPages(env, Body(env), State([], [first], true, None, Requested(location)));
    return p.st.lines, p.st.queries, p.outcome;
  }
}
