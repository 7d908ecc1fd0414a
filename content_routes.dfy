/** The GET /range handler of server/routes/contentRoutes.js: three guards on
    the query parameters, then three date-range queries issued together,
    then a response that echoes the range, carries the three lists and
    counts them. The queries themselves are given as functions. */
module ContentRoutes {
  import opened Outcomes
  import opened RangeDates

  const StartDateRequired := "Valid startDate parameter is required (YYYY-MM-DD)"
  const EndDateInvalid := "If provided, endDate must be valid (YYYY-MM-DD)"
  const EndBeforeStart := "endDate cannot be earlier than startDate"
  const FailurePrefix := "Failed to get content: "

  /** The arguments each query receives: the start date and the end date, or
      None where the handler passes null. */
  datatype RangeArgs = RangeArgs(startDate: string, endDate: Option<string>)

  /** What one query promise settles to. */
  datatype QueryResult<T> = Rows(rows: seq<T>) | Rejected(message: string)

  /** getFactsByDateRange, getJokesByDateRange, getRecipesByDateRange. */
  datatype Queries<T> = Queries(
    facts: RangeArgs -> QueryResult<T>,
    jokes: RangeArgs -> QueryResult<T>,
    recipes: RangeArgs -> QueryResult<T>)

  /** A query call the handler issued, with its arguments. */
  datatype QueryCall =
    | FactsByDateRange(args: RangeArgs)
    | JokesByDateRange(args: RangeArgs)
    | RecipesByDateRange(args: RangeArgs)

  datatype DateRange = DateRange(startDate: string, endDate: string)
  datatype RangeContent<T> = RangeContent(facts: seq<T>, jokes: seq<T>, recipes: seq<T>)
  datatype Counts = Counts(facts: nat, jokes: nat, recipes: nat, total: nat)
  datatype RangeBody<T> = RangeBody(dateRange: DateRange, content: RangeContent<T>, counts: Counts)

  /** Status 200 with a body, 400 or 500 with an error message. */
  datatype Response<T> =
    | Ok(body: RangeBody<T>)
    | BadRequest(error: string)
    | ServerError(error: string)

  /** The response together with the queries issued on the way to it. */
  datatype Exchange<T> = Exchange(response: Response<T>, issued: seq<QueryCall>)

  /** A query parameter counts as given when it is present and not empty
      (the handler tests it for truthiness). */
  predicate Given(p: Option<string>)
  {
    p.Some? && p.value != ""
  }

  /** The three guards, in the handler's order. */
  function ValidateRange(startDate: Option<string>, endDate: Option<string>): (r: Result<RangeArgs, string>)
    ensures r.Success? <==>
              && Given(startDate) && IsValidDate(startDate.value)
              && (Given(endDate) ==> IsValidDate(endDate.value) && !Earlier(endDate.value, startDate.value))
    ensures r.Success? ==> r.value.startDate == startDate.value
    ensures r.Success? ==> (r.value.endDate.Some? <==> Given(endDate))
    ensures r.Success? && Given(endDate) ==> r.value.endDate == endDate
    ensures r.Failure? ==> r.error in {StartDateRequired, EndDateInvalid, EndBeforeStart}
  {
    if !Given(startDate) || !IsValidDate(startDate.value) then
      Failure(StartDateRequired)
    else if Given(endDate) && !IsValidDate(endDate.value) then
      Failure(EndDateInvalid)
    else if Given(endDate) && Earlier(endDate.value, startDate.value) then
      Failure(EndBeforeStart)
    else
      Success(RangeArgs(startDate.value, if Given(endDate) then endDate else None))
  }

  /** The response body for three lists; the echoed end date falls back to
      the start date. */
  function BuildBody<T>(args: RangeArgs, facts: seq<T>, jokes: seq<T>, recipes: seq<T>): (b: RangeBody<T>)
    ensures b.content == RangeContent(facts, jokes, recipes)
    ensures b.counts.facts == |b.content.facts|
    ensures b.counts.jokes == |b.content.jokes|
    ensures b.counts.recipes == |b.content.recipes|
    ensures b.counts.total == b.counts.facts + b.counts.jokes + b.counts.recipes
    ensures b.counts.total == |facts + jokes + recipes|
    ensures b.dateRange.startDate == args.startDate
    ensures b.dateRange.endDate == if args.endDate.Some? then args.endDate.value else args.startDate
  {
    RangeBody(
      DateRange(args.startDate, match args.endDate case Some(e) => e case None => args.startDate),
      RangeContent(facts, jokes, recipes),
      Counts(|facts|, |jokes|, |recipes|, |facts| + |jokes| + |recipes|))
  }

  /** Combines the three settled queries as Promise.all does: the lists when
      all three succeed, otherwise one rejection. Which rejection wins when
      several fail depends on timing; this model takes the first in argument
      order. */
  function Gather<T>(f: QueryResult<T>, j: QueryResult<T>, r: QueryResult<T>): (g: Result<(seq<T>, seq<T>, seq<T>), string>)
    ensures g.Success? <==> f.Rows? && j.Rows? && r.Rows?
    ensures g.Success? ==> g.value == (f.rows, j.rows, r.rows)
    ensures g.Failure? ==>
              (f.Rejected? && g.error == f.message)
              || (j.Rejected? && g.error == j.message)
              || (r.Rejected? && g.error == r.message)
  {
    if f.Rejected? then Failure(f.message)
    else if j.Rejected? then Failure(j.message)
    else if r.Rejected? then Failure(r.message)
    else Success((f.rows, j.rows, r.rows))
  }

  /** router.get("/range", ...). */
  function HandleRange<T>(startDate: Option<string>, endDate: Option<string>, db: Queries<T>): (x: Exchange<T>)
    ensures ValidateRange(startDate, endDate).Failure? ==>
              x == Exchange(BadRequest(ValidateRange(startDate, endDate).error), [])
    ensures ValidateRange(startDate, endDate).Success? ==>
              var args := ValidateRange(startDate, endDate).value;
              && x.issued == [FactsByDateRange(args), JokesByDateRange(args), RecipesByDateRange(args)]
              && (x.response.Ok? <==> db.facts(args).Rows? && db.jokes(args).Rows? && db.recipes(args).Rows?)
              && (x.response.Ok? ==> x.response.body == BuildBody(args, db.facts(args).rows, db.jokes(args).rows, db.recipes(args).rows))
              && (!x.response.Ok? ==> x.response.ServerError?)
  {
    match ValidateRange(startDate, endDate)
    case Failure(message) => Exchange(BadRequest(message), [])
    case Success(args) =>
      var issued := [FactsByDateRange(args), JokesByDateRange(args), RecipesByDateRange(args)];
      match Gather(db.facts(args), db.jokes(args), db.recipes(args))
      case Failure(message) => Exchange(ServerError(FailurePrefix + message), issued)
      case Success(lists) => Exchange(Ok(BuildBody(args, lists.0, lists.1, lists.2)), issued)
  }

  // ---------------------------------------------------------------------
  // The guards

  /** A missing, empty or malformed startDate is rejected with the first
      message, whatever endDate holds, and no query is issued. */
  lemma StartDateGuard<T>(startDate: Option<string>, endDate: Option<string>, db: Queries<T>)
    requires !Given(startDate) || !IsValidDate(startDate.value)
    ensures HandleRange(startDate, endDate, db) == Exchange(BadRequest(StartDateRequired), [])
  {
  }

  /** A present but invalid endDate is rejected with its own message, once
      startDate has passed. */
  lemma EndDateGuard<T>(startDate: string, endDate: string, db: Queries<T>)
    requires IsValidDate(startDate) && endDate != "" && !IsValidDate(endDate)
    ensures HandleRange(Some(startDate), Some(endDate), db) == Exchange(BadRequest(EndDateInvalid), [])
  {
  }

  /** An endDate earlier than startDate is rejected; the same date is not. */
  lemma OrderGuard<T>(startDate: string, endDate: string, db: Queries<T>)
    requires IsValidDate(startDate) && IsValidDate(endDate)
    ensures (HandleRange(Some(startDate), Some(endDate), db).response == BadRequest(EndBeforeStart))
            <==> Earlier(endDate, startDate)
    ensures HandleRange(Some(startDate), Some(startDate), db).issued != []
  {
  }

  /** The unit test: 2023-10-10 is earlier than 2023-10-15 and is refused. */
  lemma OrderGuardExample<T>(db: Queries<T>)
    ensures HandleRange(Some("2023-10-15"), Some("2023-10-10"), db) == Exchange(BadRequest(EndBeforeStart), [])
  {
    var s, e := "2023-10-15", "2023-10-10";
    assert s[..4] == "2023" && s[5..7] == "10" && s[8..] == "15";
    assert e[..4] == "2023" && e[5..7] == "10" && e[8..] == "10";
    assert Number("2023") == 2023 by {
      assert "2023"[..3] == "202" && "202"[..2] == "20" && "20"[..1] == "2";
    }
    assert Number("10") == 10 by { assert "10"[..1] == "1"; }
    assert Number("15") == 15 by { assert "15"[..1] == "1"; }
  }

  // ---------------------------------------------------------------------
  // The response

  /** Without endDate each query receives null and the echoed range ends on
      the start date; an empty endDate is treated the same way. */
  lemma OmittedEndDate<T>(startDate: string, db: Queries<T>)
    requires IsValidDate(startDate)
    ensures var x := HandleRange(Some(startDate), None, db);
            var args := RangeArgs(startDate, None);
            && x.issued == [FactsByDateRange(args), JokesByDateRange(args), RecipesByDateRange(args)]
            && (x.response.Ok? ==> x.response.body.dateRange == DateRange(startDate, startDate))
    ensures HandleRange(Some(startDate), Some(""), db) == HandleRange(Some(startDate), None, db)
  {
  }

  /** An empty parameter is falsy, so it behaves exactly like an absent one,
      for startDate and for endDate alike. */
  lemma EmptyIsAbsent<T>(startDate: Option<string>, endDate: Option<string>, db: Queries<T>)
    ensures HandleRange(startDate, Some(""), db) == HandleRange(startDate, None, db)
    ensures HandleRange(Some(""), endDate, db) == HandleRange(None, endDate, db)
  {
  }

  /** On success every count is the length of its list and the total is their
      sum: the number of items in the response. */
  lemma CountsMatchContent<T>(startDate: Option<string>, endDate: Option<string>, db: Queries<T>)
    requires HandleRange(startDate, endDate, db).response.Ok?
    ensures var b := HandleRange(startDate, endDate, db).response.body;
            && b.counts.facts == |b.content.facts|
            && b.counts.jokes == |b.content.jokes|
            && b.counts.recipes == |b.content.recipes|
            && b.counts.total == |b.content.facts| + |b.content.jokes| + |b.content.recipes|
  {
  }

  /** If any query fails the whole request fails with one message built from
      a rejected query, and no content is returned; all three queries were
      still issued. */
  lemma QueryFailureIsTotal<T>(startDate: Option<string>, endDate: Option<string>, db: Queries<T>)
    requires ValidateRange(startDate, endDate).Success?
    requires var args := ValidateRange(startDate, endDate).value;
             db.facts(args).Rejected? || db.jokes(args).Rejected? || db.recipes(args).Rejected?
    ensures var args := ValidateRange(startDate, endDate).value;
            var x := HandleRange(startDate, endDate, db);
            && |x.issued| == 3
            && x.response.ServerError?
            && exists m :: x.response.error == FailurePrefix + m
                           && ((db.facts(args).Rejected? && m == db.facts(args).message)
                               || (db.jokes(args).Rejected? && m == db.jokes(args).message)
                               || (db.recipes(args).Rejected? && m == db.recipes(args).message))
  {
    var args := ValidateRange(startDate, endDate).value;
    var g := Gather(db.facts(args), db.jokes(args), db.recipes(args));
    assert HandleRange(startDate, endDate, db).response.error == FailurePrefix + g.error;
  }
}
