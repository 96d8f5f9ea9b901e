/** Everything the image pipeline reaches outside itself: the clock, the
    network (`downloadImage`), the object store (`s3.send`) and the
    `images` table (`query` with an INSERT). Each is an oracle: it may
    return any value, and every call is recorded, in order, in one ghost
    log of events, so that the pipeline's effects can be stated. */
module World {
  import opened Wrappers
  import opened JsValues

  type Bytes = seq<bv8>

  /** The parameters of one `PutObjectCommand`; an unset bucket variable
      leaves `Bucket` undefined (`None`). */
  datatype PutObject = PutObject(bucket: Option<string>, key: string, body: Bytes, acl: string, contentType: string)

  /** One row of the `images` table as the pipeline writes it; an absent
      `hrefOriginal` is a NULL `image_href_original`. */
  datatype ImageRow = ImageRow(searchId: JsValue, engine: string, href: string, hrefOriginal: Option<string>, timestamp: int)

  datatype Event =
    | ClockRead(time: int)
    | Fetch(url: string, result: Option<Bytes>)
    | Put(command: PutObject, succeeded: bool)
    | Insert(row: ImageRow, succeeded: bool)

  class Environment {
    ghost var log: seq<Event>

    constructor ()
      ensures log == []
    {
      log := [];
    }

    /** `Date.now()`. */
    method Now() returns (time: int)
      modifies this
      ensures log == old(log) + [ClockRead(time)]
    {
      time := *;
      log := log + [ClockRead(time)];
    }

    /** `downloadImage`: the payload, or `None` when the request fails,
        times out (8 s) or exceeds 10 MB; it never throws. */
    method DownloadImage(url: string) returns (result: Option<Bytes>)
      modifies this
      ensures log == old(log) + [Fetch(url, result)]
    {
      result := *;
      log := log + [Fetch(url, result)];
    }

    /** `s3.send(command)`: `false` when the call throws. */
    method Send(command: PutObject) returns (succeeded: bool)
      modifies this
      ensures log == old(log) + [Put(command, succeeded)]
    {
      succeeded := *;
      log := log + [Put(command, succeeded)];
    }

    /** `query(INSERT INTO images ...)`: `false` when the query throws, in
        which case no row is stored. */
    method InsertImage(row: ImageRow) returns (succeeded: bool)
      modifies this
      ensures log == old(log) + [Insert(row, succeeded)]
    {
      succeeded := *;
      log := log + [Insert(row, succeeded)];
    }
  }

  /** The rows a run of events leaves in the `images` table. */
  function StoredRows(events: seq<Event>): seq<ImageRow>
  {
    if |events| == 0 then []
    else
      var last := events[|events| - 1];
      StoredRows(events[..|events| - 1]) + (if last.Insert? && last.succeeded then [last.row] else [])
  }

  lemma {:induction false} StoredRowsAppend(a: seq<Event>, b: seq<Event>)
    ensures StoredRows(a + b) == StoredRows(a) + StoredRows(b)
    decreases |b|
  {
    if |b| == 0 {
      assert a + b == a;
    } else {
      assert (a + b)[..|a + b| - 1] == a + b[..|b| - 1];
      StoredRowsAppend(a, b[..|b| - 1]);
    }
  }

  /** Events other than successful inserts store nothing. */
  lemma {:induction false} NoInsertsNoRows(events: seq<Event>)
    requires forall e :: e in events ==> !e.Insert?
    ensures StoredRows(events) == []
  {
    if |events| > 0 {
      assert events[|events| - 1] in events;
      NoInsertsNoRows(events[..|events| - 1]);
    }
  }
}
