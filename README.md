# Image ingestion, filtering and pagination core, in Dafny

This project models the core of a search-archive backend. The backend
records searches made on two engines (Google and Baidu), re-hosts the
images each search returned, and serves filtered, paginated listings.
The model covers six pieces:

- **Object-store client** (`spaces.dfy`, module `Spaces`). It derives a
  file name from a URL. It stores an image under `images/<md5 of the URL>`,
  makes one retry, and returns the public URL or nothing.
- **Image pipeline** (`image_processor.dfy`, module `ImageProcessor`).
  For each URL it downloads, uploads and inserts one row, with the fallback
  rows the code writes. It works in groups of five, Google before Baidu,
  and returns the `{saved, errors}` counts.
- **Pagination** (`pagination.dfy`, module `Pagination`). It reads page,
  page size and offset from a query string, and builds the metadata
  wrapped around a page of results.
- **Filter builder** (`filter_builder.dfy`, module `FilterBuilder`). It
  parses and validates the listing filters, and turns them into the text
  of a SQL `WHERE` condition. Values go into the text raw, as the source
  does.
- **Image-processing endpoint** (`process_images.dfy`, module
  `ProcessImages`). It falls back from `searchId` to `search_id`, rejects
  bad requests, and reports the response counts.
- **Search-creation endpoint** (`create_search.dfy`, module
  `CreateSearch`). It merges the two field-naming conventions, checks the
  required fields, runs the optional geolocation, and builds the INSERT
  parameters and the 201 response.

Supporting modules:

- `Wrappers` holds `Option` and `Result`.
- `JsValues` models JavaScript values: truthiness, `||`, `typeof`, and
  template-literal rendering.
- `Strings` models `indexOf`, `lastIndexOf`, `split(sep)[1]`, `slice` and
  `join`.
- `World` holds the oracles.

The outside world is modelled as oracles. The clock, the download, the
object-store `send` and the `images` INSERT are methods of
`World.Environment`. Each may return any value, and each appends an event
to a ghost log. The rows left in the table are a function of that log
(`World.StoredRows`). The pipeline's methods state their effect as
`log == old(log) + <events>`. They also return ghost traces of what the
oracles answered, so that properties of the stored rows can be proved as
lemmas.

Some operations are passed in as function parameters instead:

- MD5, as `SpacesConfig.md5`;
- `JSON.parse`;
- `new Date(text).getTime()`;
- the geolocation lookup;
- the search INSERT.

`parseInt` results arrive as `Option<int>`.

Three behaviours of the code are easy to miss:

- A failed image may still leave a row of its original URL. In
  `saveImage`, an insert that throws is followed by a second insert of
  the original URL (lib/image-processor.js:128-141). The image counts as
  an error either way. `ImageProcessor.FallbackTable` and
  `ImageProcessor.RowsBetweenSavedAndTotal` state this.
- `processAndSaveImages` itself returns `{saved: 0, errors: 0}` for two
  empty lists and does not check the search id
  (lib/image-processor.js:32-35). Only the endpoint rejects a missing id
  or two empty lists (api/process-images.js:22-34).
- A failed upload counts as saved only when the insert that follows
  succeeds (lib/image-processor.js:111-125).

## Model

| member | source | states |
|---|---|---|
| Spaces.StripJpg | lib/spaces.js:20 | exactly one trailing `.jpg` is removed when the last four characters are `.jpg`; otherwise the URL is unchanged |
| Spaces.FilenameFromUrl | lib/spaces.js:16-26 | the character loop builds exactly `Filename(url)`: the URL after `://` with no `.jpg` suffix, every charset character replaced by `_` |
| Spaces.SanitizePointwise | lib/spaces.js:22-24 | sanitising keeps the length, and character `i` of the result is `_` for a charset character and the original character otherwise |
| Spaces.FilenameReplacesCharset | lib/spaces.js:16-26 | the file name has the stripped URL's length; exactly its charset characters become `_` and all others are kept |
| Spaces.FilenameHasNoCharsetChar | lib/spaces.js:17-24 | no character of a file name is in the charset |
| Spaces.SanitizeFixesCleanText | lib/spaces.js:22-24 | text without charset characters is left unchanged by the loop |
| Spaces.StripLeavesCleanText | lib/spaces.js:19-20 | text without charset characters contains no `://` and has no `.jpg` suffix, so both strips leave it unchanged |
| Spaces.FilenameIdempotent | lib/spaces.js:16-26 | deriving a file name from a file name gives the same name |
| Spaces.GetFilenameFromUrl | lib/spaces.js:28-31 | the result is the suffix of the pathname after its last `/` (the whole pathname when there is none) and contains no `/` |
| Spaces.SpacesConfig.Key | lib/spaces.js:33-35 | the key is `images/` followed by the 32-digit MD5 of the URL, 39 characters long |
| Spaces.SpacesConfig.PublicUrl | lib/spaces.js:57 | the public URL starts with `https://` and ends with the key |
| Spaces.SpacesConfig.Command | lib/spaces.js:40-50 | the upload command carries the bucket, the URL's key, the payload, `public-read` and `image/jpeg` |
| Spaces.RegionFromEnv | lib/spaces.js:5 | the region is the environment value when it is non-empty, else `nyc3` |
| Spaces.Attempts | lib/spaces.js:38 | a call with retry count `r` may send between 1 and `maxRetries + 1` (2) times |
| Spaces.SaveImage | lib/spaces.js:37-76 | sends the same command 1 to 2 times (from retry count 0); all sends but the last failed; the result is the public URL exactly when the last send succeeded, and nothing only when every attempt was used |
| Spaces.FirstSuccessMeansNoRetry | lib/spaces.js:52-60 | when the first send succeeds it is the only send and the public URL is returned |
| Spaces.NothingOnlyAfterTwoFailures | lib/spaces.js:66-74 | from retry count 0, nothing is returned exactly when the run is two failed sends of the same command |
| Spaces.KeysCollideOnlyWhenDigestsDo | lib/spaces.js:41-46 | two uploads get the same key exactly when their URLs have the same digest, whatever the payloads |
| World.Environment.DownloadImage | lib/image-processor.js:10-22 | the download answers a payload or nothing (it never throws), and the fetch is logged |
| World.Environment.Send | lib/spaces.js:54 | the send succeeds or fails (throws), and the attempt is logged |
| World.Environment.InsertImage | lib/image-processor.js:103-106 | the insert succeeds or throws, and the row and its outcome are logged |
| World.Environment.Now | lib/image-processor.js:95 | the clock reading is logged |
| ImageProcessor.Engine.Name | lib/image-processor.js:44-51 | the engine column value is `google` or `baidu` |
| ImageProcessor.SaveImage | lib/image-processor.js:94-143 | one image causes exactly clock, fetch, the upload sends, the first insert and (only if it threw) the fallback insert; no upload after a failed download; the result is whether the first insert went through |
| ImageProcessor.StoredItemRows | lib/image-processor.js:94-143 | an image stores exactly its first row if the first insert went through, the original URL if only the fallback did, else nothing |
| ImageProcessor.FallbackTable | lib/image-processor.js:99-141 | failed download → original URL only; successful upload → the public URL of the URL's key plus the original; failed upload → original URL only; an error stores the original URL or nothing |
| ImageProcessor.ItemInsertsShareTimestamp | lib/image-processor.js:95-136 | every insert made for one image carries the same timestamp, search id and engine, and at most one row is stored |
| ImageProcessor.BatchesPartition | lib/image-processor.js:72-74 | the `slice(i, i + 5)` groups concatenate to the whole list in order; each holds 1 to 5 URLs and all but the last exactly 5 |
| ImageProcessor.SaveBatch | lib/image-processor.js:75-77 | one group saves its images in order; the results are the images' outcomes, one per image |
| ImageProcessor.Tally | lib/image-processor.js:79-85 | `saved` grows by the number of true results and `saved + errors` by the number of results |
| ImageProcessor.SaveImages | lib/image-processor.js:63-89 | the groups processed are exactly the batches of the list; the images are saved in list order; `saved` counts the first inserts that went through and `saved + errors` is the list length |
| ImageProcessor.ProcessAndSaveImages | lib/image-processor.js:28-58 | two empty lists touch nothing and give `{0, 0}`; otherwise Google's images are saved before Baidu's and the counts add up to the total number of images |
| ImageProcessor.RowsBetweenSavedAndTotal | lib/image-processor.js:73-85 | a run stores at least `saved` rows and at most one row per URL |
| ImageProcessor.EveryRowLocatesItsImage | lib/image-processor.js:103-124 | every stored row belongs to the search and engine, and points either at one of the URLs or at the public URL of one URL's key, with that URL as original |
| ImageProcessor.AllSavedRowsInOrder | lib/image-processor.js:73-85 | when every first insert succeeds, the table receives one row per URL, in list order, and `saved` equals the list length |
| Pagination.GetPaginationParams | lib/pagination.js:8-19 | page and page size take the parsed value unless it is NaN or 0 (page size falls back to `limit`, then 25; page to 1); offset is `(page - 1) * pageSize` and limit equals page size |
| Pagination.CeilDiv | lib/pagination.js:39 | the quotient is the ceiling of `total / pageSize` for either sign of the divisor |
| Pagination.FormatPaginatedResponse | lib/pagination.js:29-43 | the fields are copied; `totalPages` is the least page count that covers `total`; `hasMore` holds exactly when `page * pageSize < total` |
| Pagination.HasMoreIffBeforeLastPage | lib/pagination.js:39-40 | with a positive page size, `hasMore` holds exactly when `page < totalPages` |
| Pagination.NextPageStartsWhereThisEnds | lib/pagination.js:9-17 | the next page keeps the page size and starts at this page's offset plus limit |
| Pagination.RecordOnExactlyOnePage | lib/pagination.js:9-17 | with a positive page size, record `k` lies on page `p` exactly when `p == k / pageSize + 1` |
| FilterBuilder.GetType | lib/filter-builder.js:6-11 | `null`, `array` and `date` are told apart from other objects; everything else is `typeof` |
| FilterBuilder.AsList | lib/filter-builder.js:24-26 | vote ids are mapped exactly when they are a non-empty array; they raise the TypeError exactly when they pass the length test but have no `map` (a non-empty string, or an object whose `length` is positive); otherwise they are skipped |
| FilterBuilder.PushListClauses | lib/filter-builder.js:29-42 | the location, state and country clauses are appended in that order, each exactly when its list is non-empty |
| FilterBuilder.PushDateClauses | lib/filter-builder.js:44-59 | the years, start-date and end-date clauses are appended in that order, each exactly when its filter is active |
| FilterBuilder.CollectConditions | lib/filter-builder.js:17-59 | the clauses pushed are exactly the active filters' clauses in the fixed order; it fails exactly when vote ids pass the length test but have no `map` |
| FilterBuilder.GetFilterConditions | lib/filter-builder.js:17-62 | the result is the active clauses joined with ` AND `, or the TypeError for vote ids without `map` |
| FilterBuilder.NoFiltersNoConditions | lib/filter-builder.js:18-61 | with no active filter the condition text is empty |
| FilterBuilder.OneClausePerActiveFilter | lib/filter-builder.js:20-59 | the number of clauses equals the number of active filters |
| FilterBuilder.EndDateClauseComesLast | lib/filter-builder.js:57-61 | adding an end date appends ` AND ` and its clause (or gives the clause alone) |
| FilterBuilder.KeywordClauseComesFirst | lib/filter-builder.js:20-22 | adding a keyword puts its clause and ` AND ` in front (or gives the clause alone) |
| FilterBuilder.SingleLocationClause | lib/filter-builder.js:29-32 | a single location gives one parenthesised equality |
| FilterBuilder.ListClauseAppendsEquality | lib/filter-builder.js:29-42 | one more list value appends ` OR ` and its equality inside the parentheses |
| FilterBuilder.ExtractData | lib/filter-builder.js:68-74 | a falsy value or text that fails to parse gives `[]`; otherwise the parsed value |
| FilterBuilder.AsFilterList | lib/filter-builder.js:80-92 | a string becomes a one-element list, an array is kept, anything else gives `[]` |
| FilterBuilder.GeographicList | lib/filter-builder.js:96-112 | a falsy value gives `[]`; otherwise the value is read like `search_locations` |
| FilterBuilder.ParseFilterParams | lib/filter-builder.js:67-141 | more than one search location is rejected with that list; a location together with a geographic filter is rejected; a success has at most one location, never together with states or countries, and at most one years entry |
| FilterBuilder.ParsedScalarFilters | lib/filter-builder.js:126-129 | `keyword` falls back to `query` and then null; the dates fall back to null; `years` is the one parsed value or empty; vote ids that fail to parse become `[]` |
| FilterBuilder.StringSearchLocationIsSingleton | lib/filter-builder.js:80-81 | a string search location without geographic filters is accepted as a one-element list |
| Strings.IndexOf | lib/spaces.js:19 | the first position where the pattern occurs, or -1 exactly when it occurs nowhere |
| Strings.SecondField | lib/spaces.js:19 | `split(sep)[1]` is the text after the first separator, up to the next separator or the end, and contains no separator |
| Strings.LastIndexOf | lib/spaces.js:30 | the last position of the character, or -1 when it does not occur |
| Strings.Slice | lib/spaces.js:20 | `slice` within bounds is the subsequence, and an end past the length stops at the length |
| Strings.JoinAppend | lib/filter-builder.js:61 | joining two non-empty lists puts exactly one separator between their joins |
| JsValues.Or | api/create-search.js:39 | `a \|\| b` is `a` when truthy, else `b`; it is truthy exactly when one of them is |
| JsValues.TypeOf | lib/filter-builder.js:10 | `typeof` gives one of the five type names that occur |
| ProcessImages.Images | api/process-images.js:15-16 | an absent image list defaults to `[]` |
| ProcessImages.CheckRequest | api/process-images.js:12-34 | the id is `searchId`, else `search_id`; with neither truthy the answer is 400 "Missing searchId" before anything else; a `null` list throws (500); two empty lists give 400 "No images provided"; a request with a truthy id, no `null` list and some image is admitted with both lists |
| ProcessImages.Report | api/process-images.js:44-52 | 200 with `total` = the sum of both list lengths, and `saved` and `errors` copied from the pipeline |
| ProcessImages.Handle | api/process-images.js:8-61 | a rejected request reaches no oracle; an admitted one runs the pipeline over both lists and reports a total equal to `saved + errors` |
| ProcessImages.ProcessedRowsBetweenSavedAndTotal | api/process-images.js:40-49 | the table receives between `saved` and `total` rows |
| CreateSearch.DefaultTranslationEngine | api/create-search.js:42 | the default translation engine is `baidu` for a `google` search and `google` otherwise |
| CreateSearch.DefinedOr | api/create-search.js:46-47 | a defined `search_term_status_*` value is kept, `null` and `false` included; otherwise the alternate when truthy, else `false` |
| CreateSearch.Normalize | api/create-search.js:39-47 | each of timestamp, location, engine, term, translation and language code is its `search_*` value when truthy and its alternate otherwise; the translation engine falls back to the default for the engine, so it is always set; each flag is its `search_term_status_*` value when defined, else the alternate `|| false`, so never undefined |
| CreateSearch.NamingConventionsAgree | api/create-search.js:10-47 | a body in the `search_*` naming and the same values in the alternate naming give the same search, provided the six `\|\|`-merged values are truthy, both flags are booleans and the standard body names the default translation engine |
| CreateSearch.Validate | api/create-search.js:50-55 | the request is rejected (400) exactly when the term or the timestamp is falsy, and the `missing` flags say exactly which |
| CreateSearch.LookupLocation | api/create-search.js:58-65 | geolocation is asked only when an IP address is given; a failure leaves no location |
| CreateSearch.GeoColumns | api/create-search.js:82-84 | the six location columns are each null or a truthy value, and all null without a location |
| CreateSearch.InsertValues | api/create-search.js:80-90 | the twenty INSERT parameters in column order: the merged fields, the raw fields and the six location columns |
| CreateSearch.Handle | api/create-search.js:8-104 | a missing field gives the 400 response; otherwise 201 with the id the INSERT returned, or 500 when the INSERT throws |
| CreateSearch.MissingFieldsIffNeitherName | api/create-search.js:39-55 | the answer is 400 exactly when neither name of the term, or neither name of the timestamp, is truthy |
| CreateSearch.RejectionReachesNoOracle | api/create-search.js:50-55 | a rejected request does not depend on the lookup or the INSERT |
| CreateSearch.NoLocationMeansNullColumns | api/create-search.js:58-65 | without an IP address, or after a failed lookup, all six location columns are null |
| CreateSearch.NoIpNoLookup | api/create-search.js:59-65 | without an IP address the lookup is never consulted |

## Left out

- Network, object store and database I/O are oracles. The model keeps no
  contents for the `images` and `searches` tables beyond the rows derived
  from the log.
- The download's 8-second timeout and 10 MB cap only decide whether a
  payload arrives, so the oracle may answer either way.
- The one-second pause before the upload retry (`setTimeout`) is not
  modelled. Neither is logging.
- `Promise.allSettled` runs a group's five saves concurrently. Here they
  run one after the other. Each save catches its own failures and only
  counts are combined, so the outcomes do not depend on the order. The
  interleaving of the log does.
- ImageProcessor.SaveImage: it never rejects here. `downloadImage` and
  `spaces.saveImage` catch their own errors, so the only throwing step is
  the insert. A `rejected` status in `allSettled` is therefore not
  modelled.
- ImageProcessor.SaveImages: the upload's exact retry shape is stated by
  `ImageProcessor.SaveImage` per image. Across a list, `WellFormed` keeps
  only that sends are all `Put` events and that the location is the
  public URL of the image's key.
- MD5, `JSON.parse`, `new Date(text).getTime()`, `parseInt` and
  `new URL(url).pathname` are uninterpreted parameters or inputs.
- Numbers are integers plus NaN. Fractional page numbers, sizes and
  totals are not modelled.
- Strings are sequences of Unicode scalar values, so a character outside
  the Basic Multilingual Plane is one element, as `[...url]` keeps it.
  JavaScript's `length`, `slice` and `indexOf` count UTF-16 code units
  instead, and lone surrogates exist only there. Neither is modelled. The
  patterns the core searches for (`://`, `.jpg`, `/`) are ASCII.
- CreateSearch.NamingConventionsAgree: the two namings are not promised to
  agree in general, because the code does not make them agree. A falsy
  value under the `search_*` name falls through `||` to the alternate name
  (`undefined` when that is absent), while the alternate body keeps the
  falsy value. A `null` flag is kept under `search_term_status_*`
  (`!== undefined`), but becomes `false` under the alternate name
  (`|| false`). `CreateSearch.Normalize` states both merges field by
  field.
- Pagination.FormatPaginatedResponse: requires a non-zero page size. The
  source always passes a page size from `getPaginationParams`, which is
  never 0. `Math.ceil` of a division by zero (Infinity) is not modelled.
- ProcessImages.CheckRequest: image lists are absent, `null` or arrays of
  URL strings. Other values, such as a string or a number whose `length`
  JavaScript would read, are not modelled.
- ProcessImages.Handle: the message of a thrown error (500) is the
  engine's own text and is not modelled. Authentication and CORS wrap the
  handler and are not modelled.
- CreateSearch.Handle: the geolocation lookup answers a location or
  nothing, with nothing standing for both a throw and a null result. The
  INSERT answers the new row's `search_id` or nothing, with nothing
  standing for a throw. The message of a thrown error is not modelled.
- The SQL text of the INSERT statements is not modelled. Only the
  parameter lists are.
