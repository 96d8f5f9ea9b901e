/** The image ingestion pipeline: every image URL of a search is fetched,
    uploaded to the object store and recorded as a row of the `images`
    table, in groups of five, one engine after the other. The clock, the
    download, the upload and the insert are oracles of `World`; what they
    answered for one image is kept as a ghost `ItemTrace`, so that the
    rows stored and the counts returned can be stated. */
module ImageProcessor {
  import opened Wrappers
  import opened JsValues
  import opened Strings
  import opened World
  import Spaces

  const BatchSize: nat := 5

  datatype Engine = Google | Baidu
  {
    /** The `image_search_engine` column value. */
    function Name(): (s: string)
      ensures s in {"google", "baidu"}
    {
      if Google? then "google" else "baidu"
    }
  }

  /** The `{ saved, errors }` object. */
  datatype Counts = Counts(saved: nat, errors: nat)

  /** The oracles' answers while one image was saved: the timestamp, the
      download, the upload attempts and their result, whether the first
      insert went through, and the outcome of the fallback insert when
      one was made. */
  datatype ItemTrace = ItemTrace(
    time: int,
    download: Option<Bytes>,
    upload: seq<Event>,
    location: Option<string>,
    firstInsert: bool,
    fallback: Option<bool>)

  /** A row holding only the original URL. */
  function OriginalRow(searchId: JsValue, engine: Engine, url: string, time: int): ImageRow {
    ImageRow(searchId, engine.Name(), url, None, time)
  }

  /** A row holding the uploaded copy's URL and the original URL. */
  function UploadedRow(searchId: JsValue, engine: Engine, newUrl: string, url: string, time: int): ImageRow {
    ImageRow(searchId, engine.Name(), newUrl, Some(url), time)
  }

  /** The row the first insert writes: the uploaded copy when there is one,
      else the original URL. */
  function FirstRow(searchId: JsValue, engine: Engine, url: string, t: ItemTrace): ImageRow {
    if t.location.Some? then UploadedRow(searchId, engine, t.location.value, url, t.time)
    else OriginalRow(searchId, engine, url, t.time)
  }

  /** What the rest of the pipeline relies on about one image's trace:
      nothing is uploaded after a failed download, the upload makes only
      sends and yields the object's public URL when it succeeds, and a
      fallback insert is made exactly when the first insert threw. */
  predicate WellFormed(cfg: Spaces.SpacesConfig, url: string, t: ItemTrace) {
    (t.download.None? ==> t.upload == [] && t.location.None?)
    && (forall k :: 0 <= k < |t.upload| ==> t.upload[k].Put?)
    && (t.location.Some? ==> t.location.value == cfg.PublicUrl(cfg.Key(url)))
    && (t.fallback.None? <==> t.firstInsert)
  }

  /** `WellFormed` for every image of a list, stated one image at a time
      from the end, like `BatchEvents`. */
  predicate AllWellFormed(cfg: Spaces.SpacesConfig, urls: seq<string>, traces: seq<ItemTrace>) {
    |urls| == |traces|
    && (|urls| > 0 ==>
          AllWellFormed(cfg, urls[..|urls| - 1], traces[..|urls| - 1])
          && WellFormed(cfg, urls[|urls| - 1], traces[|urls| - 1]))
  }

  lemma {:induction false} AllWellFormedAppend(cfg: Spaces.SpacesConfig, urls1: seq<string>, traces1: seq<ItemTrace>,
                                               urls2: seq<string>, traces2: seq<ItemTrace>)
    requires AllWellFormed(cfg, urls1, traces1) && AllWellFormed(cfg, urls2, traces2)
    decreases |urls2|
    ensures AllWellFormed(cfg, urls1 + urls2, traces1 + traces2)
  {
    if |urls2| == 0 {
      assert urls1 + urls2 == urls1 && traces1 + traces2 == traces1;
    } else {
      var n := |urls2| - 1;
      assert (urls1 + urls2)[..|urls1| + n] == urls1 + urls2[..n];
      assert (traces1 + traces2)[..|traces1| + n] == traces1 + traces2[..n];
      AllWellFormedAppend(cfg, urls1, traces1, urls2[..n], traces2[..n]);
    }
  }

  /** The events `saveImage` causes for one image, in order. */
  function ItemEvents(searchId: JsValue, engine: Engine, url: string, t: ItemTrace): seq<Event> {
    [ClockRead(t.time), Fetch(url, t.download)] + t.upload
      + [Insert(FirstRow(searchId, engine, url, t), t.firstInsert)]
      + FallbackEvents(searchId, engine, url, t)
  }

  /** The fallback insert, when the first insert threw. */
  function FallbackEvents(searchId: JsValue, engine: Engine, url: string, t: ItemTrace): seq<Event> {
    if t.fallback.Some? then [Insert(OriginalRow(searchId, engine, url, t.time), t.fallback.value)] else []
  }

  /** `saveImage`: download, upload, then one insert chosen by the outcome;
      an insert that throws is followed by one attempt to store the
      original URL, and the image then counts as an error. `downloadImage`
      and `spaces.saveImage` catch their own failures, so the insert is the
      only step that throws. */
  method SaveImage(cfg: Spaces.SpacesConfig, world: Environment, engine: Engine, searchId: JsValue, originalUrl: string)
    returns (saved: bool, ghost t: ItemTrace)
    modifies world
    ensures WellFormed(cfg, originalUrl, t)
    ensures t.download.Some? ==>
              Spaces.UploadRun(cfg, t.upload, cfg.Command(t.download.value, originalUrl), Spaces.Attempts(0), originalUrl, t.location)
    ensures saved == t.firstInsert
    ensures world.log == old(world.log) + ItemEvents(searchId, engine, originalUrl, t)
  {
    ghost var log0 := world.log;
    var timestamp := world.Now();
    var imageBuffer := world.DownloadImage(originalUrl);
    ghost var log1 := world.log;
    var newUrl: Option<string> := None;
    ghost var run: seq<Event> := [];
    var inserted: bool;
    ghost var row: ImageRow;
    if imageBuffer.None? {
      row := OriginalRow(searchId, engine, originalUrl, timestamp);
      inserted := world.InsertImage(OriginalRow(searchId, engine, originalUrl, timestamp));
      assert log1 + run == log1;
    } else {
      newUrl, run := Spaces.SaveImage(cfg, world, imageBuffer.value, originalUrl, 0);
      if newUrl.Some? {
        row := UploadedRow(searchId, engine, newUrl.value, originalUrl, timestamp);
        inserted := world.InsertImage(UploadedRow(searchId, engine, newUrl.value, originalUrl, timestamp));
      } else {
        row := OriginalRow(searchId, engine, originalUrl, timestamp);
        inserted := world.InsertImage(OriginalRow(searchId, engine, originalUrl, timestamp));
      }
    }
    ghost var log2 := world.log;
    var fallback: Option<bool> := None;
    if inserted {
      saved := true;
      assert world.log == log2 + [];
    } else {
      var stored := world.InsertImage(OriginalRow(searchId, engine, originalUrl, timestamp));
      fallback := Some(stored);
      saved := false;
    }
    t := ItemTrace(timestamp, imageBuffer, run, newUrl, inserted, fallback);
    assert row == FirstRow(searchId, engine, originalUrl, t);
    ghost var fb := FallbackEvents(searchId, engine, originalUrl, t);
    assert world.log == log0 + [ClockRead(timestamp)] + [Fetch(originalUrl, imageBuffer)] + run + [Insert(row, inserted)] + fb;
    AppendItemEvents(log0, ClockRead(timestamp), Fetch(originalUrl, imageBuffer), run, Insert(row, inserted), fb);
  }

  lemma AppendAssoc<T>(a: seq<T>, b: seq<T>, c: seq<T>)
    ensures a + b + c == a + (b + c)
  {
  }

  lemma AppendItemEvents(log: seq<Event>, clock: Event, fetch: Event, run: seq<Event>, insert: Event, fallback: seq<Event>)
    ensures log + [clock] + [fetch] + run + [insert] + fallback == log + ([clock, fetch] + run + [insert] + fallback)
  {
  }

  /** The rows one image leaves in the table: its first row when the first
      insert went through, the original URL when only the fallback insert
      did, and none otherwise. */
  function ItemRows(searchId: JsValue, engine: Engine, url: string, t: ItemTrace): seq<ImageRow> {
    if t.firstInsert then [FirstRow(searchId, engine, url, t)]
    else if t.fallback == Some(true) then [OriginalRow(searchId, engine, url, t.time)]
    else []
  }

  /** The events of one image store exactly its `ItemRows`: sends store
      nothing, and the inserts are the first insert and the fallback. */
  lemma StoredItemRows(cfg: Spaces.SpacesConfig, searchId: JsValue, engine: Engine, url: string, t: ItemTrace)
    requires WellFormed(cfg, url, t)
    ensures StoredRows(ItemEvents(searchId, engine, url, t)) == ItemRows(searchId, engine, url, t)
  {
    var head := [ClockRead(t.time), Fetch(url, t.download)];
    var first := [Insert(FirstRow(searchId, engine, url, t), t.firstInsert)];
    var last := FallbackEvents(searchId, engine, url, t);
    forall e | e in t.upload
      ensures !e.Insert?
    {
      var k :| 0 <= k < |t.upload| && t.upload[k] == e;
    }
    NoInsertsNoRows(t.upload);
    NoInsertsNoRows(head);
    StoredRowsAppend(head, t.upload);
    StoredRowsAppend(head + t.upload, first);
    StoredRowsAppend(head + t.upload + first, last);
    assert first[..0] == [];
    if t.fallback.Some? {
      assert last[..0] == [];
    }
  }

  /** The decision table of `saveImage`. A saved image stores one row: the
      original URL alone after a failed download or a failed upload, the
      uploaded copy's public URL with the original after a successful
      upload. An image counted as an error stores the original URL when the
      fallback insert goes through, else nothing. */
  lemma FallbackTable(cfg: Spaces.SpacesConfig, searchId: JsValue, engine: Engine, url: string, t: ItemTrace)
    requires WellFormed(cfg, url, t)
    ensures var rows := StoredRows(ItemEvents(searchId, engine, url, t));
            (t.firstInsert && t.download.None? ==> rows == [OriginalRow(searchId, engine, url, t.time)])
            && (t.firstInsert && t.location.Some? ==>
                  rows == [UploadedRow(searchId, engine, cfg.PublicUrl(cfg.Key(url)), url, t.time)])
            && (t.firstInsert && t.location.None? ==> rows == [OriginalRow(searchId, engine, url, t.time)])
            && (!t.firstInsert && t.fallback == Some(true) ==> rows == [OriginalRow(searchId, engine, url, t.time)])
            && (!t.firstInsert && t.fallback == Some(false) ==> rows == [])
  {
    StoredItemRows(cfg, searchId, engine, url, t);
  }

  /** Every insert among `events` writes a row of this search, engine and
      timestamp. */
  predicate InsertsStamped(events: seq<Event>, searchId: JsValue, engine: Engine, time: int) {
    forall k :: 0 <= k < |events| && events[k].Insert? ==>
      events[k].row.timestamp == time && events[k].row.searchId == searchId && events[k].row.engine == engine.Name()
  }

  lemma InsertsStampedAppend(a: seq<Event>, b: seq<Event>, searchId: JsValue, engine: Engine, time: int)
    requires InsertsStamped(a, searchId, engine, time) && InsertsStamped(b, searchId, engine, time)
    ensures InsertsStamped(a + b, searchId, engine, time)
  {
    forall k | 0 <= k < |a + b| && (a + b)[k].Insert?
      ensures (a + b)[k].row.timestamp == time && (a + b)[k].row.searchId == searchId && (a + b)[k].row.engine == engine.Name()
    {
      if k < |a| {
        assert (a + b)[k] == a[k];
      } else {
        assert (a + b)[k] == b[k - |a|];
      }
    }
  }

  /** Every insert made for one image writes the same timestamp, search id
      and engine, and at most one row is stored. */
  lemma ItemInsertsShareTimestamp(cfg: Spaces.SpacesConfig, searchId: JsValue, engine: Engine, url: string, t: ItemTrace)
    requires WellFormed(cfg, url, t)
    ensures InsertsStamped(ItemEvents(searchId, engine, url, t), searchId, engine, t.time)
    ensures |StoredRows(ItemEvents(searchId, engine, url, t))| <= 1
  {
    StoredItemRows(cfg, searchId, engine, url, t);
    var head: seq<Event> := [ClockRead(t.time), Fetch(url, t.download)];
    var first := [Insert(FirstRow(searchId, engine, url, t), t.firstInsert)];
    var last := FallbackEvents(searchId, engine, url, t);
    assert InsertsStamped(head, searchId, engine, t.time);
    assert InsertsStamped(t.upload, searchId, engine, t.time);
    assert InsertsStamped(first, searchId, engine, t.time);
    assert InsertsStamped(last, searchId, engine, t.time);
    InsertsStampedAppend(head, t.upload, searchId, engine, t.time);
    InsertsStampedAppend(head + t.upload, first, searchId, engine, t.time);
    InsertsStampedAppend(head + t.upload + first, last, searchId, engine, t.time);
  }

  /** The groups `saveImages` processes from position `i` on:
      `imageUrls.slice(i, i + n)`, then the rest. */
  function BatchesFrom<T>(xs: seq<T>, i: nat, n: nat): seq<seq<T>>
    requires n > 0
    decreases |xs| - i
  {
    if i >= |xs| then [] else [Slice(xs, i, i + n)] + BatchesFrom(xs, i + n, n)
  }

  function Batches<T>(xs: seq<T>, n: nat): seq<seq<T>>
    requires n > 0
  {
    BatchesFrom(xs, 0, n)
  }

  function Concat<T>(groups: seq<seq<T>>): seq<T> {
    if |groups| == 0 then [] else groups[0] + Concat(groups[1..])
  }

  lemma {:induction false} BatchesFromConcat<T>(xs: seq<T>, i: nat, n: nat)
    requires n > 0 && i <= |xs|
    decreases |xs| - i
    ensures Concat(BatchesFrom(xs, i, n)) == xs[i..]
  {
    if i < |xs| {
      var gs := BatchesFrom(xs, i, n);
      var g := Slice(xs, i, i + n);
      assert gs[0] == g;
      if i + n <= |xs| {
        BatchesFromConcat(xs, i + n, n);
        assert gs[1..] == BatchesFrom(xs, i + n, n);
        assert xs[i..] == g + xs[i + n..];
      } else {
        assert BatchesFrom(xs, i + n, n) == [];
        assert gs[1..] == [];
        assert g == xs[i..];
      }
    }
  }

  lemma {:induction false} BatchesFromSizes<T>(xs: seq<T>, i: nat, n: nat)
    requires n > 0
    decreases |xs| - i
    ensures forall k :: 0 <= k < |BatchesFrom(xs, i, n)| ==> 1 <= |BatchesFrom(xs, i, n)[k]| <= n
    ensures forall k :: 0 <= k < |BatchesFrom(xs, i, n)| - 1 ==> |BatchesFrom(xs, i, n)[k]| == n
  {
    if i < |xs| {
      var gs := BatchesFrom(xs, i, n);
      var rest := BatchesFrom(xs, i + n, n);
      BatchesFromSizes(xs, i + n, n);
      assert gs == [Slice(xs, i, i + n)] + rest;
      if i + n > |xs| {
        assert rest == [];
      }
      forall k | 1 <= k < |gs|
        ensures gs[k] == rest[k - 1]
      {
      }
    }
  }

  /** The groups are consecutive runs of the list, whose concatenation is
      the whole list in order; every group holds between one and `n`
      items, and all but the last exactly `n`. */
  lemma BatchesPartition<T>(xs: seq<T>, n: nat)
    requires n > 0
    ensures Concat(Batches(xs, n)) == xs
    ensures forall k :: 0 <= k < |Batches(xs, n)| ==> 1 <= |Batches(xs, n)[k]| <= n
    ensures forall k :: 0 <= k < |Batches(xs, n)| - 1 ==> |Batches(xs, n)[k]| == n
  {
    BatchesFromConcat(xs, 0, n);
    BatchesFromSizes(xs, 0, n);
    assert xs[0..] == xs;
  }

  /** The events of saving the images `urls` one after the other. */
  function BatchEvents(searchId: JsValue, engine: Engine, urls: seq<string>, traces: seq<ItemTrace>): seq<Event>
    requires |urls| == |traces|
  {
    if |urls| == 0 then []
    else
      var n := |urls| - 1;
      BatchEvents(searchId, engine, urls[..n], traces[..n]) + ItemEvents(searchId, engine, urls[n], traces[n])
  }

  lemma {:induction false} BatchEventsAppend(searchId: JsValue, engine: Engine, urls1: seq<string>, traces1: seq<ItemTrace>,
                                             urls2: seq<string>, traces2: seq<ItemTrace>)
    requires |urls1| == |traces1| && |urls2| == |traces2|
    decreases |urls2|
    ensures BatchEvents(searchId, engine, urls1 + urls2, traces1 + traces2)
            == BatchEvents(searchId, engine, urls1, traces1) + BatchEvents(searchId, engine, urls2, traces2)
  {
    if |urls2| == 0 {
      assert urls1 + urls2 == urls1 && traces1 + traces2 == traces1;
    } else {
      var n := |urls2| - 1;
      var urls, traces := urls1 + urls2, traces1 + traces2;
      assert urls[..|urls| - 1] == urls1 + urls2[..n] && urls[|urls| - 1] == urls2[n];
      assert traces[..|traces| - 1] == traces1 + traces2[..n] && traces[|traces| - 1] == traces2[n];
      var item := ItemEvents(searchId, engine, urls2[n], traces2[n]);
      var front := BatchEvents(searchId, engine, urls1, traces1);
      var middle := BatchEvents(searchId, engine, urls2[..n], traces2[..n]);
      assert BatchEvents(searchId, engine, urls, traces)
             == BatchEvents(searchId, engine, urls1 + urls2[..n], traces1 + traces2[..n]) + item;
      BatchEventsAppend(searchId, engine, urls1, traces1, urls2[..n], traces2[..n]);
      assert BatchEvents(searchId, engine, urls2, traces2) == middle + item;
      AppendAssoc(front, middle, item);
    }
  }

  /** Whether each image counted as saved. */
  function Outcomes(traces: seq<ItemTrace>): (bs: seq<bool>)
    ensures |bs| == |traces| && forall k :: 0 <= k < |traces| ==> bs[k] == traces[k].firstInsert
  {
    seq(|traces|, k requires 0 <= k < |traces| => traces[k].firstInsert)
  }

  /** The number of `true` entries. */
  function CountTrue(bs: seq<bool>): (c: nat)
    ensures c <= |bs|
  {
    if |bs| == 0 then 0 else CountTrue(bs[..|bs| - 1]) + (if bs[|bs| - 1] then 1 else 0)
  }

  lemma {:induction false} CountTrueAppend(a: seq<bool>, b: seq<bool>)
    ensures CountTrue(a + b) == CountTrue(a) + CountTrue(b)
    decreases |b|
  {
    if |b| == 0 {
      assert a + b == a;
    } else {
      assert (a + b)[..|a + b| - 1] == a + b[..|b| - 1];
      CountTrueAppend(a, b[..|b| - 1]);
    }
  }

  /** `Promise.allSettled(batch.map(url => saveImage(engine, searchId, url)))`:
      every image of one group is saved, in order (the concurrent calls
      are modelled one after the other); each settles with whether it
      counted as saved. */
  method SaveBatch(cfg: Spaces.SpacesConfig, world: Environment, engine: Engine, searchId: JsValue, batch: seq<string>)
    returns (batchResults: seq<bool>, ghost traces: seq<ItemTrace>)
    modifies world
    ensures |traces| == |batch| && batchResults == Outcomes(traces)
    ensures AllWellFormed(cfg, batch, traces)
    ensures world.log == old(world.log) + BatchEvents(searchId, engine, batch, traces)
  {
    ghost var log0 := world.log;
    batchResults := [];
    traces := [];
    var j := 0;
    while j < |batch|
      invariant 0 <= j <= |batch| && |traces| == j
      invariant batchResults == Outcomes(traces)
      invariant AllWellFormed(cfg, batch[..j], traces)
      invariant world.log == log0 + BatchEvents(searchId, engine, batch[..j], traces)
    {
      var ok;
      ghost var t;
      ok, t := SaveImage(cfg, world, engine, searchId, batch[j]);
      ExtendBatch(cfg, log0, searchId, engine, batch, j, traces, t);
      batchResults := batchResults + [ok];
      traces := traces + [t];
      j := j + 1;
    }
    assert batch[..j] == batch;
  }

  /** One more image extends the group's events, traces and outcomes. */
  lemma ExtendBatch(cfg: Spaces.SpacesConfig, log0: seq<Event>, searchId: JsValue, engine: Engine,
                    batch: seq<string>, j: nat, traces: seq<ItemTrace>, t: ItemTrace)
    requires j < |batch| && |traces| == j
    requires AllWellFormed(cfg, batch[..j], traces) && WellFormed(cfg, batch[j], t)
    ensures AllWellFormed(cfg, batch[..j + 1], traces + [t])
    ensures log0 + BatchEvents(searchId, engine, batch[..j], traces) + ItemEvents(searchId, engine, batch[j], t)
            == log0 + BatchEvents(searchId, engine, batch[..j + 1], traces + [t])
    ensures Outcomes(traces + [t]) == Outcomes(traces) + [t.firstInsert]
  {
    assert batch[..j + 1][..j] == batch[..j] && (traces + [t])[..j] == traces;
    assert batch[..j + 1][j] == batch[j] && (traces + [t])[j] == t;
    AppendAssoc(log0, BatchEvents(searchId, engine, batch[..j], traces), ItemEvents(searchId, engine, batch[j], t));
  }

  /** `batchResults.forEach(...)`: each fulfilled result with a truthy
      value adds one to `saved`, every other result one to `errors`. */
  method Tally(results: Counts, batchResults: seq<bool>) returns (updated: Counts)
    ensures updated.saved == results.saved + CountTrue(batchResults)
    ensures updated.saved + updated.errors == results.saved + results.errors + |batchResults|
  {
    updated := results;
    var j := 0;
    while j < |batchResults|
      invariant 0 <= j <= |batchResults|
      invariant updated.saved == results.saved + CountTrue(batchResults[..j])
      invariant updated.saved + updated.errors == results.saved + results.errors + j
    {
      assert batchResults[..j + 1][..j] == batchResults[..j];
      if batchResults[j] {
        updated := updated.(saved := updated.saved + 1);
      } else {
        updated := updated.(errors := updated.errors + 1);
      }
      j := j + 1;
    }
    assert batchResults[..j] == batchResults;
  }

  /** `saveImages`: walks the list in steps of five, saves each group, then
      counts each of the group's results as saved or as an error. */
  method SaveImages(cfg: Spaces.SpacesConfig, world: Environment, engine: Engine, searchId: JsValue, imageUrls: seq<string>)
    returns (results: Counts, ghost groups: seq<seq<string>>, ghost traces: seq<ItemTrace>)
    modifies world
    ensures groups == Batches(imageUrls, BatchSize)
    ensures |traces| == |imageUrls|
    ensures AllWellFormed(cfg, imageUrls, traces)
    ensures world.log == old(world.log) + BatchEvents(searchId, engine, imageUrls, traces)
    ensures results.saved == CountTrue(Outcomes(traces))
    ensures results.saved + results.errors == |imageUrls|
  {
    ghost var log0 := world.log;
    results := Counts(0, 0);
    groups := [];
    traces := [];
    var i := 0;
    while i < |imageUrls|
      invariant |traces| == (if i <= |imageUrls| then i else |imageUrls|)
      invariant groups + BatchesFrom(imageUrls, i, BatchSize) == Batches(imageUrls, BatchSize)
      invariant AllWellFormed(cfg, imageUrls[..|traces|], traces)
      invariant world.log == log0 + BatchEvents(searchId, engine, imageUrls[..|traces|], traces)
      invariant results.saved == CountTrue(Outcomes(traces)) && results.saved + results.errors == |traces|
      decreases |imageUrls| - i
    {
      var batch := Slice(imageUrls, i, i + BatchSize);
      NextGroup(imageUrls, i, groups);
      groups := groups + [batch];
      var batchResults;
      ghost var batchTraces;
      batchResults, batchTraces := SaveBatch(cfg, world, engine, searchId, batch);
      results := Tally(results, batchResults);
      ExtendRun(cfg, log0, searchId, engine, imageUrls, i, batch, traces, batchTraces);
      traces := traces + batchTraces;
      i := i + BatchSize;
    }
    assert imageUrls[..|traces|] == imageUrls;
  }

  /** The next group is `slice(i, i + 5)`, and the rest follow it. */
  lemma NextGroup(imageUrls: seq<string>, i: nat, groups: seq<seq<string>>)
    requires i < |imageUrls|
    requires groups + BatchesFrom(imageUrls, i, BatchSize) == Batches(imageUrls, BatchSize)
    ensures (groups + [Slice(imageUrls, i, i + BatchSize)]) + BatchesFrom(imageUrls, i + BatchSize, BatchSize)
            == Batches(imageUrls, BatchSize)
  {
    var rest := BatchesFrom(imageUrls, i + BatchSize, BatchSize);
    assert BatchesFrom(imageUrls, i, BatchSize) == [Slice(imageUrls, i, i + BatchSize)] + rest;
    AppendAssoc(groups, [Slice(imageUrls, i, i + BatchSize)], rest);
  }

  lemma OutcomesAppend(a: seq<ItemTrace>, b: seq<ItemTrace>)
    ensures Outcomes(a + b) == Outcomes(a) + Outcomes(b)
  {
  }

  /** One more group extends the run's events and traces. */
  lemma ExtendRun(cfg: Spaces.SpacesConfig, log0: seq<Event>, searchId: JsValue, engine: Engine, imageUrls: seq<string>,
                  i: nat, batch: seq<string>, traces: seq<ItemTrace>, batchTraces: seq<ItemTrace>)
    requires i < |imageUrls| && |traces| == i && |batchTraces| == |batch|
    requires batch == Slice(imageUrls, i, i + BatchSize)
    requires AllWellFormed(cfg, imageUrls[..i], traces) && AllWellFormed(cfg, batch, batchTraces)
    ensures |traces + batchTraces| == (if i + BatchSize <= |imageUrls| then i + BatchSize else |imageUrls|)
    ensures imageUrls[..|traces + batchTraces|] == imageUrls[..i] + batch
    ensures AllWellFormed(cfg, imageUrls[..|traces + batchTraces|], traces + batchTraces)
    ensures log0 + BatchEvents(searchId, engine, imageUrls[..i], traces) + BatchEvents(searchId, engine, batch, batchTraces)
            == log0 + BatchEvents(searchId, engine, imageUrls[..|traces + batchTraces|], traces + batchTraces)
    ensures CountTrue(Outcomes(traces + batchTraces)) == CountTrue(Outcomes(traces)) + CountTrue(Outcomes(batchTraces))
  {
    CountTrueAppend(Outcomes(traces), Outcomes(batchTraces));
    OutcomesAppend(traces, batchTraces);
    var all := traces + batchTraces;
    assert imageUrls[..|all|] == imageUrls[..i] + batch;
    AllWellFormedAppend(cfg, imageUrls[..i], traces, batch, batchTraces);
    BatchEventsAppend(searchId, engine, imageUrls[..i], traces, batch, batchTraces);
    AppendAssoc(log0, BatchEvents(searchId, engine, imageUrls[..i], traces), BatchEvents(searchId, engine, batch, batchTraces));
  }

  /** `processAndSaveImages`: nothing at all for two empty lists; else the
      google images, then the baidu images, each engine only when it has
      images, with the counts added up. */
  method ProcessAndSaveImages(cfg: Spaces.SpacesConfig, world: Environment, searchId: JsValue,
                              googleImages: seq<string>, baiduImages: seq<string>)
    returns (results: Counts, ghost googleTraces: seq<ItemTrace>, ghost baiduTraces: seq<ItemTrace>)
    modifies world
    ensures googleImages == [] && baiduImages == [] ==> results == Counts(0, 0) && world.log == old(world.log)
    ensures |googleTraces| == |googleImages| && |baiduTraces| == |baiduImages|
    ensures AllWellFormed(cfg, googleImages, googleTraces) && AllWellFormed(cfg, baiduImages, baiduTraces)
    ensures world.log == old(world.log)
                         + BatchEvents(searchId, Google, googleImages, googleTraces)
                         + BatchEvents(searchId, Baidu, baiduImages, baiduTraces)
    ensures results.saved == CountTrue(Outcomes(googleTraces)) + CountTrue(Outcomes(baiduTraces))
    ensures results.saved + results.errors == |googleImages| + |baiduImages|
  {
    googleTraces, baiduTraces := [], [];
    if |googleImages| == 0 && |baiduImages| == 0 {
      return Counts(0, 0), googleTraces, baiduTraces;
    }
    results := Counts(0, 0);
    if |googleImages| > 0 {
      var googleResults;
      ghost var groups;
      googleResults, groups, googleTraces := SaveImages(cfg, world, Google, searchId, googleImages);
      results := Counts(results.saved + googleResults.saved, results.errors + googleResults.errors);
    }
    if |baiduImages| > 0 {
      var baiduResults;
      ghost var groups;
      baiduResults, groups, baiduTraces := SaveImages(cfg, world, Baidu, searchId, baiduImages);
      results := Counts(results.saved + baiduResults.saved, results.errors + baiduResults.errors);
    }
  }

  /** Each image counted as saved stores exactly one row and each error at
      most one, so a run stores between `saved` and `imageUrls.length`
      rows. */
  lemma {:induction false} RowsBetweenSavedAndTotal(cfg: Spaces.SpacesConfig, searchId: JsValue, engine: Engine,
                                                    urls: seq<string>, traces: seq<ItemTrace>)
    requires AllWellFormed(cfg, urls, traces)
    ensures CountTrue(Outcomes(traces)) <= |StoredRows(BatchEvents(searchId, engine, urls, traces))| <= |urls|
  {
    if |urls| > 0 {
      var n := |urls| - 1;
      var prev := BatchEvents(searchId, engine, urls[..n], traces[..n]);
      var item := ItemEvents(searchId, engine, urls[n], traces[n]);
      RowsBetweenSavedAndTotal(cfg, searchId, engine, urls[..n], traces[..n]);
      StoredItemRows(cfg, searchId, engine, urls[n], traces[n]);
      StoredRowsAppend(prev, item);
      assert Outcomes(traces)[..n] == Outcomes(traces[..n]);
    }
  }

  /** A row of this search and engine that points at one of `urls`:
      either the original URL alone, or the public URL of the object
      stored under that original URL's key, with the original. */
  predicate LocatesImage(cfg: Spaces.SpacesConfig, searchId: JsValue, engine: Engine, urls: seq<string>, r: ImageRow) {
    r.searchId == searchId && r.engine == engine.Name()
    && (r.hrefOriginal.None? ==> r.href in urls)
    && (r.hrefOriginal.Some? ==> r.hrefOriginal.value in urls && r.href == cfg.PublicUrl(cfg.Key(r.hrefOriginal.value)))
  }

  /** Every row a run stores belongs to its search and engine and points
      at one of its images. */
  lemma {:induction false} EveryRowLocatesItsImage(cfg: Spaces.SpacesConfig, searchId: JsValue, engine: Engine,
                                                   urls: seq<string>, traces: seq<ItemTrace>)
    requires AllWellFormed(cfg, urls, traces)
    ensures forall r :: r in StoredRows(BatchEvents(searchId, engine, urls, traces)) ==> LocatesImage(cfg, searchId, engine, urls, r)
  {
    if |urls| > 0 {
      var n := |urls| - 1;
      var prev := BatchEvents(searchId, engine, urls[..n], traces[..n]);
      var item := ItemEvents(searchId, engine, urls[n], traces[n]);
      EveryRowLocatesItsImage(cfg, searchId, engine, urls[..n], traces[..n]);
      StoredItemRows(cfg, searchId, engine, urls[n], traces[n]);
      StoredRowsAppend(prev, item);
      ItemRowsLocate(cfg, searchId, engine, urls, n, traces[n]);
      forall r | r in StoredRows(prev)
        ensures LocatesImage(cfg, searchId, engine, urls, r)
      {
        LocatesImageInLonger(cfg, searchId, engine, urls, n, r);
      }
    }
  }

  /** The rows one image stores point at that image. */
  lemma ItemRowsLocate(cfg: Spaces.SpacesConfig, searchId: JsValue, engine: Engine, urls: seq<string>, n: nat, t: ItemTrace)
    requires n < |urls| && WellFormed(cfg, urls[n], t)
    ensures forall r :: r in ItemRows(searchId, engine, urls[n], t) ==> LocatesImage(cfg, searchId, engine, urls, r)
  {
  }

  lemma LocatesImageInLonger(cfg: Spaces.SpacesConfig, searchId: JsValue, engine: Engine, urls: seq<string>, n: nat, r: ImageRow)
    requires n <= |urls| && LocatesImage(cfg, searchId, engine, urls[..n], r)
    ensures LocatesImage(cfg, searchId, engine, urls, r)
  {
    assert forall u :: u in urls[..n] ==> u in urls;
  }

  /** `rows` are the first-insert rows of `urls`, one per image, in order. */
  predicate FirstRowsOf(searchId: JsValue, engine: Engine, rows: seq<ImageRow>, urls: seq<string>, traces: seq<ItemTrace>)
    requires |urls| == |traces|
  {
    |rows| == |urls| && forall k :: 0 <= k < |urls| ==> rows[k] == FirstRow(searchId, engine, urls[k], traces[k])
  }

  lemma FirstRowsOfSnoc(searchId: JsValue, engine: Engine, rows: seq<ImageRow>, urls: seq<string>, traces: seq<ItemTrace>)
    requires |urls| == |traces| && |urls| > 0
    requires FirstRowsOf(searchId, engine, rows, urls[..|urls| - 1], traces[..|urls| - 1])
    ensures FirstRowsOf(searchId, engine, rows + [FirstRow(searchId, engine, urls[|urls| - 1], traces[|urls| - 1])], urls, traces)
  {
    var n := |urls| - 1;
    var all := rows + [FirstRow(searchId, engine, urls[n], traces[n])];
    forall k | 0 <= k < n
      ensures all[k] == FirstRow(searchId, engine, urls[k], traces[k])
    {
      assert all[k] == rows[k];
      assert urls[..n][k] == urls[k] && traces[..n][k] == traces[k];
    }
  }

  /** When every first insert goes through, the table receives one row per
      image, in the order of the list. */
  lemma {:induction false} AllSavedRowsInOrder(cfg: Spaces.SpacesConfig, searchId: JsValue, engine: Engine,
                                               urls: seq<string>, traces: seq<ItemTrace>)
    requires AllWellFormed(cfg, urls, traces)
    requires forall k :: 0 <= k < |traces| ==> traces[k].firstInsert
    ensures FirstRowsOf(searchId, engine, StoredRows(BatchEvents(searchId, engine, urls, traces)), urls, traces)
    ensures CountTrue(Outcomes(traces)) == |urls|
  {
    if |urls| > 0 {
      var n := |urls| - 1;
      var prev := BatchEvents(searchId, engine, urls[..n], traces[..n]);
      var item := ItemEvents(searchId, engine, urls[n], traces[n]);
      AllSavedRowsInOrder(cfg, searchId, engine, urls[..n], traces[..n]);
      StoredItemRows(cfg, searchId, engine, urls[n], traces[n]);
      StoredRowsAppend(prev, item);
      FirstRowsOfSnoc(searchId, engine, StoredRows(prev), urls, traces);
      assert Outcomes(traces)[..n] == Outcomes(traces[..n]);
    }
  }
}
