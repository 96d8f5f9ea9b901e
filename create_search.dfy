/** The search-creation endpoint: it merges the two naming conventions a
    client may use into one set of search fields, rejects a search without
    a term or a timestamp, looks up the client's location when an IP address
    is given, inserts the search and answers with its new id. The
    geolocation lookup and the INSERT are oracles passed in as functions;
    authentication, CORS and logging are not modelled. */
module CreateSearch {
  import opened Wrappers
  import opened JsValues

  /** The request body fields the handler destructures, under their own
      (wire) names; an absent field is `undefined`. The first fourteen are
      the `search_*` convention, the last eight the alternate one. */
  datatype CreateRequest = CreateRequest(
    search_timestamp: JsValue,
    search_location: JsValue,
    search_ip_address: JsValue,
    search_client_name: JsValue,
    search_engine_initial: JsValue,
    search_engine_translation: JsValue,
    search_term_initial: JsValue,
    search_term_initial_language_code: JsValue,
    search_term_initial_language_confidence: JsValue,
    search_term_initial_language_alternate_code: JsValue,
    search_term_translation: JsValue,
    search_term_translation_language_code: JsValue,
    search_term_status_banned: JsValue,
    search_term_status_sensitive: JsValue,
    timestamp: JsValue,
    location: JsValue,
    search_engine: JsValue,
    search: JsValue,
    translation: JsValue,
    lang_from: JsValue,
    banned: JsValue,
    sensitive: JsValue)

  /** The search fields after the two naming conventions are merged. */
  datatype Search = Search(
    timestamp: JsValue,
    location: JsValue,
    engineInitial: JsValue,
    engineTranslation: JsValue,
    termInitial: JsValue,
    termTranslation: JsValue,
    termLangCode: JsValue,
    banned: JsValue,
    sensitive: JsValue)

  /** The engine a search is translated for when the client does not say:
      Baidu for a Google search, Google otherwise. */
  function DefaultTranslationEngine(searchEngine: JsValue): (e: JsValue)
    ensures searchEngine == Str("google") ==> e == Str("baidu")
    ensures searchEngine != Str("google") ==> e == Str("google")
  {
    if searchEngine == Str("google") then Str("baidu") else Str("google")
  }

  /** `v !== undefined ? v : (alternate || false)`: any defined value is
      kept, `null` and `false` included. */
  function DefinedOr(v: JsValue, alternate: JsValue): (r: JsValue)
    ensures !v.Undefined? ==> r == v
    ensures v.Undefined? && Truthy(alternate) ==> r == alternate
    ensures v.Undefined? && !Truthy(alternate) ==> r == Bool(false)
  {
    if !v.Undefined? then v else Or(alternate, Bool(false))
  }

  /** The merged fields of a request body: each takes its `search_*` name
      when that is truthy and its alternate name otherwise. */
  function Normalize(b: CreateRequest): (s: Search)
    ensures s.timestamp == (if Truthy(b.search_timestamp) then b.search_timestamp else b.timestamp)
    ensures s.location == (if Truthy(b.search_location) then b.search_location else b.location)
    ensures s.engineInitial == (if Truthy(b.search_engine_initial) then b.search_engine_initial else b.search_engine)
    ensures s.engineTranslation ==
              (if Truthy(b.search_engine_translation) then b.search_engine_translation
               else DefaultTranslationEngine(b.search_engine))
    ensures s.termInitial == (if Truthy(b.search_term_initial) then b.search_term_initial else b.search)
    ensures s.termTranslation == (if Truthy(b.search_term_translation) then b.search_term_translation else b.translation)
    ensures s.termLangCode ==
              (if Truthy(b.search_term_initial_language_code) then b.search_term_initial_language_code else b.lang_from)
    ensures s.banned == DefinedOr(b.search_term_status_banned, b.banned)
    ensures s.sensitive == DefinedOr(b.search_term_status_sensitive, b.sensitive)
    ensures Truthy(s.timestamp) <==> Truthy(b.search_timestamp) || Truthy(b.timestamp)
    ensures Truthy(s.termInitial) <==> Truthy(b.search_term_initial) || Truthy(b.search)
    ensures Truthy(s.engineTranslation)
    ensures !s.banned.Undefined? && !s.sensitive.Undefined?
  {
    Search(
      timestamp := Or(b.search_timestamp, b.timestamp),
      location := Or(b.search_location, b.location),
      engineInitial := Or(b.search_engine_initial, b.search_engine),
      engineTranslation := Or(b.search_engine_translation, DefaultTranslationEngine(b.search_engine)),
      termInitial := Or(b.search_term_initial, b.search),
      termTranslation := Or(b.search_term_translation, b.translation),
      termLangCode := Or(b.search_term_initial_language_code, b.lang_from),
      banned := DefinedOr(b.search_term_status_banned, b.banned),
      sensitive := DefinedOr(b.search_term_status_sensitive, b.sensitive))
  }

  /** The values a client sends for one search, independent of naming. */
  datatype SearchInput = SearchInput(
    timestamp: JsValue,
    location: JsValue,
    engine: JsValue,
    term: JsValue,
    translation: JsValue,
    langCode: JsValue,
    banned: JsValue,
    sensitive: JsValue)

  /** A body that uses only the `search_*` names, with the translation
      engine spelt out. */
  function StandardBody(v: SearchInput, engineTranslation: JsValue): CreateRequest {
    CreateRequest(
      v.timestamp, v.location, Undefined, Undefined, v.engine, engineTranslation, v.term, v.langCode,
      Undefined, Undefined, v.translation, Undefined, v.banned, v.sensitive,
      Undefined, Undefined, Undefined, Undefined, Undefined, Undefined, Undefined, Undefined)
  }

  /** A body that uses only the alternate names. */
  function AlternateBody(v: SearchInput): CreateRequest {
    CreateRequest(
      Undefined, Undefined, Undefined, Undefined, Undefined, Undefined, Undefined, Undefined,
      Undefined, Undefined, Undefined, Undefined, Undefined, Undefined,
      v.timestamp, v.location, v.engine, v.term, v.translation, v.langCode, v.banned, v.sensitive)
  }

  /** Either naming gives the same search, provided the values that fall
      back with `||` are truthy, the two flags are booleans, and the
      standard body names the engine the alternate one defaults to. */
  lemma NamingConventionsAgree(v: SearchInput)
    requires Truthy(v.timestamp) && Truthy(v.location) && Truthy(v.engine)
    requires Truthy(v.term) && Truthy(v.translation) && Truthy(v.langCode)
    requires v.banned.Bool? && v.sensitive.Bool?
    ensures Normalize(StandardBody(v, DefaultTranslationEngine(v.engine))) == Normalize(AlternateBody(v))
    ensures Normalize(AlternateBody(v)) ==
              Search(v.timestamp, v.location, v.engine, DefaultTranslationEngine(v.engine),
                     v.term, v.translation, v.langCode, v.banned, v.sensitive)
  {
  }

  /** The responses of the endpoint. The message of a thrown error is the
      engine's own text and is not modelled. */
  datatype Response =
    | Created(searchId: JsValue)
    | MissingFields(search: bool, timestamp: bool)
    | Failed
  {
    function Status(): (s: int)
      ensures s in {201, 400, 500}
    {
      match this
      case Created(_) => 201
      case MissingFields(_, _) => 400
      case Failed => 500
    }
  }

  /** The required-field check: a search needs a truthy term and a truthy
      timestamp, and the rejection flags exactly the ones that are not. */
  function Validate(s: Search): (r: Option<Response>)
    ensures r.None? <==> Truthy(s.termInitial) && Truthy(s.timestamp)
    ensures r.Some? ==> r.value.MissingFields? && r.value.Status() == 400
    ensures r.Some? ==> (r.value.search <==> !Truthy(s.termInitial)) && (r.value.timestamp <==> !Truthy(s.timestamp))
    ensures r.Some? ==> r.value.search || r.value.timestamp
  {
    if !Truthy(s.termInitial) || !Truthy(s.timestamp) then
      Some(MissingFields(!Truthy(s.termInitial), !Truthy(s.timestamp)))
    else
      None
  }

  /** What `getLocation` resolves to when it does not throw. */
  datatype GeoData = GeoData(country: JsValue, countryCode: JsValue, region: JsValue, city: JsValue, latitude: JsValue, longitude: JsValue)

  /** The location looked up for the request: only when an IP address is
      given; a lookup that throws (or resolves to nothing) leaves none. */
  function LookupLocation(ip: JsValue, lookup: JsValue -> Option<GeoData>): (geo: Option<GeoData>)
    ensures !Truthy(ip) ==> geo.None?
    ensures Truthy(ip) ==> geo == lookup(ip)
  {
    if Truthy(ip) then lookup(ip) else None
  }

  /** `geoData?.field || null` for the six location columns. */
  function GeoColumns(geo: Option<GeoData>): (cols: seq<JsValue>)
    ensures |cols| == 6
    ensures geo.None? ==> forall k :: 0 <= k < 6 ==> cols[k] == Null
    ensures forall k :: 0 <= k < 6 ==> cols[k] == Null || Truthy(cols[k])
    ensures geo.Some? ==>
              var g := geo.value;
              cols == [Or(g.country, Null), Or(g.countryCode, Null), Or(g.region, Null),
                       Or(g.city, Null), Or(g.latitude, Null), Or(g.longitude, Null)]
  {
    match geo
    case None => [Null, Null, Null, Null, Null, Null]
    case Some(g) =>
      [Or(g.country, Null), Or(g.countryCode, Null), Or(g.region, Null),
       Or(g.city, Null), Or(g.latitude, Null), Or(g.longitude, Null)]
  }

  /** The twenty parameters of the INSERT, in column order. */
  function InsertValues(body: CreateRequest, s: Search, geo: Option<GeoData>): (values: seq<JsValue>)
    ensures |values| == 20
    ensures values[0] == s.timestamp && values[1] == s.location
    ensures values[2] == body.search_ip_address && values[3] == body.search_client_name
    ensures values[4..10] == GeoColumns(geo)
    ensures values[10] == s.engineInitial && values[11] == s.engineTranslation
    ensures values[12] == s.termInitial && values[13] == s.termLangCode
    ensures values[14] == body.search_term_initial_language_confidence
    ensures values[15] == body.search_term_initial_language_alternate_code
    ensures values[16] == s.termTranslation && values[17] == body.search_term_translation_language_code
    ensures values[18] == s.banned && values[19] == s.sensitive
  {
    [s.timestamp, s.location, body.search_ip_address, body.search_client_name]
    + GeoColumns(geo)
    + [s.engineInitial, s.engineTranslation, s.termInitial, s.termLangCode,
       body.search_term_initial_language_confidence, body.search_term_initial_language_alternate_code,
       s.termTranslation, body.search_term_translation_language_code, s.banned, s.sensitive]
  }

  /** The handler. `lookup` is `getLocation` and `insert` runs the INSERT
      with the given parameters, answering the new row's `search_id`, or
      nothing when the query throws. */
  function Handle(body: CreateRequest, lookup: JsValue -> Option<GeoData>, insert: seq<JsValue> -> Option<JsValue>): (r: Response)
    ensures var s := Normalize(body);
            Validate(s).Some? ==> r == Validate(s).value
    ensures var s := Normalize(body);
            var values := InsertValues(body, s, LookupLocation(body.search_ip_address, lookup));
            Validate(s).None? ==>
              && (insert(values).Some? ==> r == Created(insert(values).value))
              && (insert(values).None? ==> r == Failed)
    ensures r.Status() == 201 <==> r.Created?
  {
    var s := Normalize(body);
    match Validate(s)
    case Some(rejection) => rejection
    case None =>
      var geo := LookupLocation(body.search_ip_address, lookup);
      match insert(InsertValues(body, s, geo))
      case Some(searchId) => Created(searchId)
      case None => Failed
  }

  /** The request is rejected with 400 exactly when neither name of the
      term, or neither name of the timestamp, carries a truthy value; the
      flags say which. */
  lemma MissingFieldsIffNeitherName(body: CreateRequest, lookup: JsValue -> Option<GeoData>, insert: seq<JsValue> -> Option<JsValue>)
    ensures var r := Handle(body, lookup, insert);
            var noTerm := !Truthy(body.search_term_initial) && !Truthy(body.search);
            var noTime := !Truthy(body.search_timestamp) && !Truthy(body.timestamp);
            (r.Status() == 400 <==> noTerm || noTime)
            && (r.Status() == 400 ==> r == MissingFields(noTerm, noTime))
  {
    var s := Normalize(body);
    assert Validate(s).None? <==> Truthy(s.termInitial) && Truthy(s.timestamp);
  }

  /** A search without a term or timestamp is rejected before any lookup
      or insert: the oracles' answers do not matter. */
  lemma RejectionReachesNoOracle(body: CreateRequest,
                                 lookup1: JsValue -> Option<GeoData>, insert1: seq<JsValue> -> Option<JsValue>,
                                 lookup2: JsValue -> Option<GeoData>, insert2: seq<JsValue> -> Option<JsValue>)
    requires !Truthy(Normalize(body).termInitial) || !Truthy(Normalize(body).timestamp)
    ensures Handle(body, lookup1, insert1) == Handle(body, lookup2, insert2)
    ensures Handle(body, lookup1, insert1).Status() == 400
  {
  }

  /** Without an IP address no location is looked up, and a failed lookup
      stores six nulls: in both cases the search is inserted with every
      location column null. */
  lemma NoLocationMeansNullColumns(body: CreateRequest, lookup: JsValue -> Option<GeoData>)
    requires !Truthy(body.search_ip_address) || lookup(body.search_ip_address).None?
    ensures var values := InsertValues(body, Normalize(body), LookupLocation(body.search_ip_address, lookup));
            forall k :: 4 <= k < 10 ==> values[k] == Null
  {
    var values := InsertValues(body, Normalize(body), LookupLocation(body.search_ip_address, lookup));
    forall k | 4 <= k < 10
      ensures values[k] == Null
    {
      assert values[k] == values[4..10][k - 4];
    }
  }

  /** Without an IP address the lookup is never consulted. */
  lemma NoIpNoLookup(body: CreateRequest, lookup1: JsValue -> Option<GeoData>, lookup2: JsValue -> Option<GeoData>,
                     insert: seq<JsValue> -> Option<JsValue>)
    requires !Truthy(body.search_ip_address)
    ensures Handle(body, lookup1, insert) == Handle(body, lookup2, insert)
  {
  }
}
