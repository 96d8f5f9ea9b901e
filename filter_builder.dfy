/** Filters of the search listing: parsing and validating the query string
    into a set of filters, and turning the filters into the text of a SQL
    `WHERE` condition. Values are interpolated into the text as they are,
    without escaping, exactly as the source does. */
module FilterBuilder {
  import opened Wrappers
  import opened JsValues
  import opened Strings

  /** `getType`: `typeof`, refined to tell null, arrays and dates apart. */
  function GetType(v: JsValue): (t: string)
    ensures t == "null" <==> v.Null?
    ensures t == "array" <==> v.Arr?
    ensures t == "date" <==> v.Date?
    ensures !(v.Null? || v.Arr? || v.Date?) ==> t == TypeOf(v)
  {
    if v.Null? then "null"
    else if v.Arr? then "array"
    else if v.Date? then "date"
    else TypeOf(v)
  }

  /** The filters `parseFilterParams` returns and `getFilterConditions`
      consumes. */
  datatype Filters = Filters(
    keyword: JsValue,
    voteIds: JsValue,
    searchLocations: seq<JsValue>,
    usStates: seq<JsValue>,
    countries: seq<JsValue>,
    years: seq<JsValue>,
    startDate: JsValue,
    endDate: JsValue)

  // ---------------------------------------------------------------------
  // Building the condition text
  // ---------------------------------------------------------------------

  /** How `v && v.length > 0 && v.map(...)` treats a value: skipped when
      falsy or without a positive length, mapped when a non-empty array,
      and a TypeError for a non-empty string or an object whose `length`
      is positive (neither has `map`). */
  datatype ListUse = Skip | Items(xs: seq<JsValue>) | NotMappable

  function AsList(v: JsValue): (u: ListUse)
    ensures u.Items? <==> v.Arr? && |v.elems| > 0
    ensures u.Items? ==> u.xs == v.elems
    ensures u.NotMappable? <==> (v.Str? && v.s != "") || (v.Obj? && v.positiveLength)
  {
    match v
    case Arr(xs) => if |xs| > 0 then Items(xs) else Skip
    case Str(s) => if s != "" then NotMappable else Skip
    case Obj(positiveLength) => if positiveLength then NotMappable else Skip
    case _ => Skip
  }

  const VoteIdsTypeError: string := "vote_ids.map is not a function"

  // The fixed text around each clause.
  const KeywordOpen: string := "to_tsvector(s.search_term_initial) @@ plainto_tsquery('"
  const KeywordClose: string := "')"
  const VoteOpen: string := "s.search_id IN (SELECT search_id FROM have_votes WHERE "
  const VoteColumn: string := "hv.vote_id"
  const YearOpen: string := "(s.search_timestamp >= "
  const YearMiddle: string := " AND s.search_timestamp <= "
  const StartDateOpen: string := "to_timestamp(s.search_timestamp/1000) >= '"
  const StartOfDay: string := " 00:00:00'::timestamp"
  const EndDateOpen: string := "to_timestamp(s.search_timestamp/1000) <= '"
  const EndOfDay: string := " 23:59:59'::timestamp"
  const OrSeparator: string := " OR "
  const AndSeparator: string := " AND "

  /** `${column} = '${value}'`. */
  function Equality(column: string, x: JsValue): string {
    column + " = '" + Render(x) + "'"
  }

  /** One equality per element, in order. */
  function Equalities(column: string, xs: seq<JsValue>): seq<string> {
    seq(|xs|, i requires 0 <= i < |xs| => Equality(column, xs[i]))
  }

  function KeywordClause(keyword: JsValue): string {
    KeywordOpen + Render(keyword) + KeywordClose
  }

  function VoteClause(ids: seq<JsValue>): string {
    VoteOpen + Join(OrSeparator, Equalities(VoteColumn, ids)) + ")"
  }

  /** A list filter on one column: its equalities OR-joined in parentheses. */
  function AnyOf(column: string, xs: seq<JsValue>): string {
    "(" + Join(OrSeparator, Equalities(column, xs)) + ")"
  }

  /** One year's range; `dateTime` gives the text of
      `new Date(text).getTime()` (possibly "NaN"). */
  function YearRange(dateTime: string -> string, year: JsValue): string {
    YearOpen + dateTime(Render(year) + "-01-01") + YearMiddle + dateTime(Render(year) + "-12-31") + ")"
  }

  function YearsClause(dateTime: string -> string, years: seq<JsValue>): string {
    "(" + Join(OrSeparator, seq(|years|, i requires 0 <= i < |years| => YearRange(dateTime, years[i]))) + ")"
  }

  function StartDateClause(d: JsValue): string {
    StartDateOpen + Render(d) + StartOfDay
  }

  function EndDateClause(d: JsValue): string {
    EndDateOpen + Render(d) + EndOfDay
  }

  const LocationColumn: string := "s.search_location"
  const StateColumn: string := "s.search_region"
  const CountryColumn: string := "s.search_country_code"

  /** The clause when its filter is active, otherwise nothing. */
  function If(b: bool, clause: string): (r: seq<string>)
    ensures |r| == if b then 1 else 0
  {
    if b then [clause] else []
  }

  function VotePart(voteIds: JsValue): (r: seq<string>)
    ensures |r| == if AsList(voteIds).Items? then 1 else 0
  {
    match AsList(voteIds)
    case Items(ids) => [VoteClause(ids)]
    case _ => []
  }

  /** The clauses of the active filters, in the fixed order keyword,
      vote ids, locations, states, countries, years, start date, end date. */
  function Conditions(f: Filters, dateTime: string -> string): seq<string> {
    If(Truthy(f.keyword), KeywordClause(f.keyword))
    + VotePart(f.voteIds)
    + If(|f.searchLocations| > 0, AnyOf(LocationColumn, f.searchLocations))
    + If(|f.usStates| > 0, AnyOf(StateColumn, f.usStates))
    + If(|f.countries| > 0, AnyOf(CountryColumn, f.countries))
    + If(|f.years| > 0, YearsClause(dateTime, f.years))
    + If(Truthy(f.startDate), StartDateClause(f.startDate))
    + If(Truthy(f.endDate), EndDateClause(f.endDate))
  }

  /** The clauses after the keyword's. */
  function ConditionsAfterKeyword(f: Filters, dateTime: string -> string): seq<string> {
    VotePart(f.voteIds)
    + If(|f.searchLocations| > 0, AnyOf(LocationColumn, f.searchLocations))
    + If(|f.usStates| > 0, AnyOf(StateColumn, f.usStates))
    + If(|f.countries| > 0, AnyOf(CountryColumn, f.countries))
    + If(|f.years| > 0, YearsClause(dateTime, f.years))
    + If(Truthy(f.startDate), StartDateClause(f.startDate))
    + If(Truthy(f.endDate), EndDateClause(f.endDate))
  }

  function ConditionText(f: Filters, dateTime: string -> string): string {
    Join(AndSeparator, Conditions(f, dateTime))
  }

  /** How many of the eight filters are active. */
  function ActiveCount(f: Filters): nat {
    (if Truthy(f.keyword) then 1 else 0)
    + (if AsList(f.voteIds).Items? then 1 else 0)
    + (if |f.searchLocations| > 0 then 1 else 0)
    + (if |f.usStates| > 0 then 1 else 0)
    + (if |f.countries| > 0 then 1 else 0)
    + (if |f.years| > 0 then 1 else 0)
    + (if Truthy(f.startDate) then 1 else 0)
    + (if Truthy(f.endDate) then 1 else 0)
  }

  /** `if (active) conditions.push(clause)`. */
  method PushIf(conditions: seq<string>, active: bool, clause: string) returns (r: seq<string>)
    ensures r == conditions + If(active, clause)
  {
    r := conditions;
    if active {
      r := r + [clause];
    }
  }

  /** Pushes the clauses of the location, state and country filters. */
  method PushListClauses(conditions: seq<string>, f: Filters) returns (r: seq<string>)
    ensures r == conditions
      + If(|f.searchLocations| > 0, AnyOf(LocationColumn, f.searchLocations))
      + If(|f.usStates| > 0, AnyOf(StateColumn, f.usStates))
      + If(|f.countries| > 0, AnyOf(CountryColumn, f.countries))
  {
    r := PushIf(conditions, |f.searchLocations| > 0, AnyOf(LocationColumn, f.searchLocations));
    r := PushIf(r, |f.usStates| > 0, AnyOf(StateColumn, f.usStates));
    r := PushIf(r, |f.countries| > 0, AnyOf(CountryColumn, f.countries));
  }

  /** Pushes the clauses of the years, start date and end date filters. */
  method PushDateClauses(conditions: seq<string>, f: Filters, dateTime: string -> string) returns (r: seq<string>)
    ensures r == conditions
      + If(|f.years| > 0, YearsClause(dateTime, f.years))
      + If(Truthy(f.startDate), StartDateClause(f.startDate))
      + If(Truthy(f.endDate), EndDateClause(f.endDate))
  {
    r := PushIf(conditions, |f.years| > 0, YearsClause(dateTime, f.years));
    r := PushIf(r, Truthy(f.startDate), StartDateClause(f.startDate));
    r := PushIf(r, Truthy(f.endDate), EndDateClause(f.endDate));
  }

  /** The clause-pushing part of `getFilterConditions`. Vote ids that
      pass the length test but have no `map` throw. */
  method CollectConditions(f: Filters, dateTime: string -> string) returns (r: Result<seq<string>, string>)
    ensures r.Failure? <==> AsList(f.voteIds).NotMappable?
    ensures r.Failure? ==> r.error == VoteIdsTypeError
    ensures r.Success? ==> r.value == Conditions(f, dateTime)
  {
    var conditions: seq<string> := [];
    if Truthy(f.keyword) {
      conditions := conditions + [KeywordClause(f.keyword)];
    }
    ghost var done := conditions;
    assert done == If(Truthy(f.keyword), KeywordClause(f.keyword));
    match AsList(f.voteIds) {
      case NotMappable =>
        return Failure(VoteIdsTypeError);
      case Items(ids) =>
        conditions := conditions + [VoteClause(ids)];
      case Skip =>
    }
    assert conditions == done + VotePart(f.voteIds);
    conditions := PushListClauses(conditions, f);
    conditions := PushDateClauses(conditions, f, dateTime);
    r := Success(conditions);
  }

  /** `getFilterConditions`: the clauses of the active filters joined with
      " AND ", or the TypeError that vote ids without `map` raise. */
  method GetFilterConditions(f: Filters, dateTime: string -> string) returns (r: Result<string, string>)
    ensures r.Failure? <==> AsList(f.voteIds).NotMappable?
    ensures r.Failure? ==> r.error == VoteIdsTypeError
    ensures r.Success? ==> r.value == ConditionText(f, dateTime)
  {
    var conditions := CollectConditions(f, dateTime);
    match conditions {
      case Failure(e) => return Failure(e);
      case Success(cs) => return Success(Join(AndSeparator, cs));
    }
  }

  /** With every filter absent or empty the condition text is empty. */
  lemma NoFiltersNoConditions(f: Filters, dateTime: string -> string)
    requires ActiveCount(f) == 0
    ensures ConditionText(f, dateTime) == ""
  {
    assert Conditions(f, dateTime) == [];
  }

  /** Each active filter contributes exactly one clause. */
  lemma OneClausePerActiveFilter(f: Filters, dateTime: string -> string)
    ensures |Conditions(f, dateTime)| == ActiveCount(f)
  {
  }

  /** Setting an end date on filters without one appends exactly
      " AND " and its clause, or yields the clause alone when nothing else
      was active: the end date's clause always comes last. */
  lemma EndDateClauseComesLast(f: Filters, dateTime: string -> string, d: JsValue)
    requires !Truthy(f.endDate) && Truthy(d)
    ensures var g := f.(endDate := d);
            ConditionText(g, dateTime) ==
              if ActiveCount(f) == 0 then EndDateClause(d)
              else ConditionText(f, dateTime) + AndSeparator + EndDateClause(d)
  {
    var g := f.(endDate := d);
    assert Conditions(g, dateTime) == Conditions(f, dateTime) + [EndDateClause(d)];
    JoinSnoc(AndSeparator, Conditions(f, dateTime), EndDateClause(d));
  }

  /** Setting a keyword on filters without one puts its clause first. */
  lemma KeywordClauseComesFirst(f: Filters, dateTime: string -> string, k: JsValue)
    requires !Truthy(f.keyword) && Truthy(k)
    ensures var g := f.(keyword := k);
            ConditionText(g, dateTime) ==
              if ActiveCount(f) == 0 then KeywordClause(k)
              else KeywordClause(k) + AndSeparator + ConditionText(f, dateTime)
  {
    var g := f.(keyword := k);
    var rest := ConditionsAfterKeyword(f, dateTime);
    assert ConditionsAfterKeyword(g, dateTime) == rest;
    KeywordThenRest(f, dateTime);
    KeywordThenRest(g, dateTime);
    assert Conditions(f, dateTime) == rest;
    assert Conditions(g, dateTime) == [KeywordClause(k)] + rest;
    OneClausePerActiveFilter(f, dateTime);
    if ActiveCount(f) > 0 {
      JoinAppend(AndSeparator, [KeywordClause(k)], rest);
    }
  }

  lemma KeywordThenRest(f: Filters, dateTime: string -> string)
    ensures Conditions(f, dateTime) == If(Truthy(f.keyword), KeywordClause(f.keyword)) + ConditionsAfterKeyword(f, dateTime)
  {
    var kw := If(Truthy(f.keyword), KeywordClause(f.keyword));
    var v := VotePart(f.voteIds);
    var l := If(|f.searchLocations| > 0, AnyOf(LocationColumn, f.searchLocations));
    var st := If(|f.usStates| > 0, AnyOf(StateColumn, f.usStates));
    var c := If(|f.countries| > 0, AnyOf(CountryColumn, f.countries));
    var y := If(|f.years| > 0, YearsClause(dateTime, f.years));
    var sd := If(Truthy(f.startDate), StartDateClause(f.startDate));
    var ed := If(Truthy(f.endDate), EndDateClause(f.endDate));
    calc {
      Conditions(f, dateTime);
      kw + v + l + st + c + y + sd + ed;
      { SeqAssoc8(kw, v, l, st, c, y, sd, ed); }
      kw + (v + l + st + c + y + sd + ed);
    }
  }

  lemma SeqAssoc8<T>(a: seq<T>, b: seq<T>, c: seq<T>, d: seq<T>, e: seq<T>, f: seq<T>, g: seq<T>, h: seq<T>)
    ensures a + b + c + d + e + f + g + h == a + (b + c + d + e + f + g + h)
  {
  }

  /** A single location (the only kind parsing lets through) gives one
      parenthesised equality. */
  lemma SingleLocationClause(loc: JsValue)
    ensures AnyOf(LocationColumn, [loc]) == "(" + Equality(LocationColumn, loc) + ")"
  {
    assert Equalities(LocationColumn, [loc]) == [Equality(LocationColumn, loc)];
  }

  /** Adding one more value to a list filter appends " OR " and its
      equality inside the parentheses. */
  lemma ListClauseAppendsEquality(column: string, xs: seq<JsValue>, x: JsValue)
    requires |xs| > 0
    ensures AnyOf(column, xs + [x]) ==
              "(" + Join(OrSeparator, Equalities(column, xs)) + OrSeparator + Equality(column, x) + ")"
  {
    assert Equalities(column, xs + [x]) == Equalities(column, xs) + [Equality(column, x)];
    JoinSnoc(OrSeparator, Equalities(column, xs), Equality(column, x));
  }

  // ---------------------------------------------------------------------
  // Parsing the query string
  // ---------------------------------------------------------------------

  /** The two rejections of `parseFilterParams`, both with status 400. */
  datatype FilterError =
    | MultipleSearchLocations(provided: seq<JsValue>)
    | ConflictingFilters(searchLocation: JsValue, usStates: seq<JsValue>, countries: seq<JsValue>)
  {
    function Status(): int { 400 }

    function Error(): string {
      match this
      case MultipleSearchLocations(_) => "Multiple search_locations not allowed"
      case ConflictingFilters(_, _, _) => "Conflicting filters"
    }

    function Message(): string {
      match this
      case MultipleSearchLocations(_) => "Only one search_location can be selected at a time"
      case ConflictingFilters(_, _, _) =>
        "Cannot use search_location with geographic filters (us_states or countries). "
        + "Use either search_location OR geographic filters, not both."
    }
  }

  /** `extractData`: parse a truthy parameter as JSON (its text as a
      template literal would render it), and fall back to `[]` when parsing
      throws or the parameter is falsy. `json` is `JSON.parse`, with `None`
      standing for a thrown SyntaxError. */
  function ExtractData(data: JsValue, json: string -> Option<JsValue>): (v: JsValue)
    ensures !Truthy(data) ==> v == Arr([])
    ensures Truthy(data) && json(Render(data)).None? ==> v == Arr([])
    ensures Truthy(data) && json(Render(data)).Some? ==> v == json(Render(data)).value
  {
    if Truthy(data) then json(Render(data)).GetOr(Arr([])) else Arr([])
  }

  /** A string becomes a one-element list, an array is kept, anything else
      is dropped. */
  function AsFilterList(v: JsValue): (xs: seq<JsValue>)
    ensures GetType(v) == "string" ==> xs == [v]
    ensures GetType(v) == "array" ==> xs == v.elems
    ensures !(v.Str? || v.Arr?) ==> xs == []
  {
    if GetType(v) == "string" then [v]
    else if GetType(v) == "array" then v.elems
    else []
  }

  /** The same for `us_states` and `countries`, which are first tested for
      truthiness (so an empty string is dropped). */
  function GeographicList(v: JsValue): (xs: seq<JsValue>)
    ensures Truthy(v) ==> xs == AsFilterList(v)
    ensures !Truthy(v) ==> xs == []
  {
    if Truthy(v) then AsFilterList(v) else []
  }

  /** `parseFilterParams`: validates the query and collects the filters. */
  function ParseFilterParams(query: JsObject, json: string -> Option<JsValue>): (r: Result<Filters, FilterError>)
    ensures var sl := Get(query, "search_locations");
            r.Failure? && r.error.MultipleSearchLocations? <==> sl.Arr? && |sl.elems| > 1
    ensures var sl := Get(query, "search_locations");
            sl.Arr? && |sl.elems| > 1 ==> r == Failure(MultipleSearchLocations(sl.elems))
    ensures var sl := Get(query, "search_locations");
            r.Failure? && r.error.ConflictingFilters? <==>
              !(sl.Arr? && |sl.elems| > 1) && |AsFilterList(sl)| > 0
              && (|GeographicList(Get(query, "us_states"))| > 0 || |GeographicList(Get(query, "countries"))| > 0)
    ensures r.Success? ==>
              && |r.value.searchLocations| <= 1
              && (|r.value.searchLocations| > 0 ==> r.value.usStates == [] && r.value.countries == [])
              && |r.value.years| <= 1
    ensures r.Success? ==>
              && r.value.searchLocations == AsFilterList(Get(query, "search_locations"))
              && r.value.usStates == GeographicList(Get(query, "us_states"))
              && r.value.countries == GeographicList(Get(query, "countries"))
  {
    var sl := Get(query, "search_locations");
    if GetType(sl) == "array" && |sl.elems| > 1 then
      Failure(MultipleSearchLocations(sl.elems))
    else
      var locations := AsFilterList(sl);
      var states := GeographicList(Get(query, "us_states"));
      var countries := GeographicList(Get(query, "countries"));
      if |locations| > 0 && (|states| > 0 || |countries| > 0) then
        Failure(ConflictingFilters(locations[0], states, countries))
      else
        var years := Get(query, "years");
        Success(Filters(
          keyword := Or(Or(Get(query, "keyword"), Get(query, "query")), Null),
          voteIds := ExtractData(Get(query, "vote_ids"), json),
          searchLocations := locations,
          usStates := states,
          countries := countries,
          years := if Truthy(years) then [ExtractData(years, json)] else [],
          startDate := Or(Get(query, "start_date"), Null),
          endDate := Or(Get(query, "end_date"), Null)))
  }

  /** `keyword` falls back to `query`, then to null; the dates fall back
      to null; `years` holds the one parsed value when present; unparsable
      vote ids become an empty list. */
  lemma ParsedScalarFilters(query: JsObject, json: string -> Option<JsValue>)
    requires ParseFilterParams(query, json).Success?
    ensures var f := ParseFilterParams(query, json).value;
            var kw := Get(query, "keyword");
            var q := Get(query, "query");
            && f.keyword == (if Truthy(kw) then kw else if Truthy(q) then q else Null)
            && f.startDate == (if Truthy(Get(query, "start_date")) then Get(query, "start_date") else Null)
            && f.endDate == (if Truthy(Get(query, "end_date")) then Get(query, "end_date") else Null)
            && (Truthy(Get(query, "years")) ==> f.years == [ExtractData(Get(query, "years"), json)])
            && (!Truthy(Get(query, "years")) ==> f.years == [])
            && (Truthy(Get(query, "vote_ids")) && json(Render(Get(query, "vote_ids"))).None? ==> f.voteIds == Arr([]))
  {
  }

  /** A search location given as a string is accepted as a one-element
      list unless a geographic filter is also present. */
  lemma StringSearchLocationIsSingleton(query: JsObject, json: string -> Option<JsValue>)
    requires Get(query, "search_locations").Str?
    requires GeographicList(Get(query, "us_states")) == [] && GeographicList(Get(query, "countries")) == []
    ensures ParseFilterParams(query, json).Success?
    ensures ParseFilterParams(query, json).value.searchLocations == [Get(query, "search_locations")]
  {
  }
}
