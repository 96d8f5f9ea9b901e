/** The object-store client: the file name a URL is stored under, the
    storage key derived from a URL's MD5 digest, and the upload with one
    retry that returns the object's public URL or nothing. */
module Spaces {
  import opened Wrappers
  import opened Strings
  import opened World

  /** The characters `filenameFromUrl` replaces with `_`. */
  const Charset: string := ".`'\"()[]{}\\;&%@,-=+$:/<>~ ?"
  const Scheme: string := "://"
  const JpgSuffix: string := ".jpg"

  /** One character of a file name: a charset character becomes `_`. */
  function Replace(c: char): char {
    if c in Charset then '_' else c
  }

  /** Every character of `s` passed through `Replace`, built from the
      front as the source's loop does. */
  function Sanitize(s: string): string {
    if |s| == 0 then [] else Sanitize(s[..|s| - 1]) + [Replace(s[|s| - 1])]
  }

  /** `url.split('://')[1]` when the URL contains `://`. */
  function StripScheme(url: string): string {
    if IndexOf(url, Scheme) >= 0 then SecondField(url, Scheme) else url
  }

  /** Removes one trailing `.jpg` (case-sensitive), through the same
      `slice` calls as the source. */
  function StripJpg(url: string): (r: string)
    ensures |url| >= 4 && url[|url| - 4..] == JpgSuffix ==> r == url[..|url| - 4]
    ensures !(|url| >= 4 && url[|url| - 4..] == JpgSuffix) ==> r == url
  {
    if Slice(url, |url| - 4, |url|) == JpgSuffix then Slice(url, 0, |url| - 4) else url
  }

  /** The file name `filenameFromUrl` derives from a URL. */
  function Filename(url: string): string {
    Sanitize(StripJpg(StripScheme(url)))
  }

  /** `filenameFromUrl`: reassigns the URL twice (the two conditional
      strips), then builds the name one character at a time. */
  method FilenameFromUrl(url0: string) returns (fname: string)
    ensures fname == Filename(url0)
  {
    var url := url0;
    fname := "";
    url := StripScheme(url);
    url := StripJpg(url);
    var i := 0;
    while i < |url|
      invariant 0 <= i <= |url|
      invariant fname == Sanitize(url[..i])
    {
      assert url[..i + 1][..i] == url[..i];
      fname := fname + [Replace(url[i])];
      i := i + 1;
    }
    assert url[..i] == url;
  }

  /** Sanitising keeps the length; a charset character becomes `_` and
      every other character is kept. */
  lemma {:induction false} SanitizePointwise(s: string)
    ensures |Sanitize(s)| == |s|
    ensures forall i :: 0 <= i < |s| ==> Sanitize(s)[i] == Replace(s[i])
  {
    if |s| > 0 {
      SanitizePointwise(s[..|s| - 1]);
    }
  }

  /** The file name has the length of the stripped URL, with exactly its
      charset characters replaced by `_`. */
  lemma FilenameReplacesCharset(url: string)
    ensures var u := StripJpg(StripScheme(url));
            var f := Filename(url);
            |f| == |u| &&
            (forall i :: 0 <= i < |u| && u[i] in Charset ==> f[i] == '_') &&
            (forall i :: 0 <= i < |u| && u[i] !in Charset ==> f[i] == u[i])
  {
    SanitizePointwise(StripJpg(StripScheme(url)));
  }

  /** No charset character survives in a file name. */
  lemma FilenameHasNoCharsetChar(url: string)
    ensures forall i :: 0 <= i < |Filename(url)| ==> Filename(url)[i] !in Charset
  {
    SanitizePointwise(StripJpg(StripScheme(url)));
    ReplacementIsClean();
  }

  /** The replacement character is not itself replaced. */
  lemma ReplacementIsClean()
    ensures forall c :: Replace(c) !in Charset
  {
    forall i | 0 <= i < |Charset|
      ensures Charset[i] != '_'
    {
    }
  }

  /** A string without charset characters is its own sanitised form. */
  lemma SanitizeFixesCleanText(s: string)
    requires forall i :: 0 <= i < |s| ==> s[i] !in Charset
    ensures Sanitize(s) == s
  {
    SanitizePointwise(s);
  }

  /** Text without charset characters has no `://` and no `.jpg` suffix,
      so stripping leaves it unchanged. */
  lemma StripLeavesCleanText(s: string)
    requires forall i :: 0 <= i < |s| ==> s[i] !in Charset
    ensures StripJpg(StripScheme(s)) == s
  {
    forall i | 0 <= i && i + |Scheme| <= |s|
      ensures !OccursAt(s, Scheme, i)
    {
      assert s[i] !in Charset;
    }
    assert StripScheme(s) == s;
    if |s| >= 4 {
      assert s[|s| - 4] !in Charset;
      assert s[|s| - 4..][0] == s[|s| - 4];
    }
  }

  /** Deriving a file name from a file name changes nothing: it has no
      scheme separator, no `.jpg` suffix and no charset character left. */
  lemma FilenameIdempotent(url: string)
    ensures Filename(Filename(url)) == Filename(url)
  {
    var f := Filename(url);
    FilenameHasNoCharsetChar(url);
    StripLeavesCleanText(f);
    SanitizeFixesCleanText(f);
  }

  /** `pathname.substring(pathname.lastIndexOf('/') + 1)`: the last path
      segment. `new URL(url).pathname` is not modelled; the pathname is
      given. */
  function GetFilenameFromUrl(pathname: string): (r: string)
    ensures |r| <= |pathname| && r == pathname[|pathname| - |r|..]
    ensures forall i :: 0 <= i < |r| ==> r[i] != '/'
    ensures (forall i :: 0 <= i < |pathname| ==> pathname[i] != '/') ==> r == pathname
    ensures |r| < |pathname| ==> pathname[|pathname| - |r| - 1] == '/'
  {
    pathname[LastIndexOf(pathname, '/') + 1..]
  }

  const DefaultRegion: string := "nyc3"
  const KeyPrefix: string := "images/"
  const PublicRead: string := "public-read"
  const ImageJpeg: string := "image/jpeg"
  const HostSuffix: string := ".digitaloceanspaces.com/"

  /** A hex-encoded MD5 digest: 32 lower-case hexadecimal digits. */
  type HexDigest = s: string | |s| == 32 && forall i :: 0 <= i < |s| ==> s[i] in "0123456789abcdef"
    witness "00000000000000000000000000000000"

  /** The client's configuration: the region and bucket read from the
      environment, and the MD5 digest (`getHashFromUrl`), which is left
      uninterpreted. */
  datatype SpacesConfig = SpacesConfig(region: string, bucket: Option<string>, md5: string -> HexDigest)
  {
    /** `'images/' + getHashFromUrl(url)`: fixed length, and a function of
        the URL alone. */
    function Key(url: string): (k: string)
      ensures |k| == |KeyPrefix| + 32
      ensures k[..|KeyPrefix|] == KeyPrefix && k[|KeyPrefix|..] == md5(url)
    {
      KeyPrefix + md5(url)
    }

    /** The text `${bucket}` renders to; an unset variable is `undefined`. */
    function BucketText(): string {
      if bucket.Some? then bucket.value else "undefined"
    }

    /** `https://${bucket}.${region}.digitaloceanspaces.com/${key}`. */
    function PublicUrl(key: string): (u: string)
      ensures "https://" <= u
      ensures |key| <= |u| && u[|u| - |key|..] == key
    {
      "https://" + BucketText() + "." + region + HostSuffix + key
    }

    /** The upload command for one image. */
    function Command(data: Bytes, url: string): (c: PutObject)
      ensures c.bucket == bucket && c.body == data && c.key == Key(url)
      ensures c.acl == PublicRead && c.contentType == ImageJpeg
    {
      PutObject(bucket, Key(url), data, PublicRead, ImageJpeg)
    }
  }

  /** `process.env.DIGITAL_OCEAN_SPACES_REGION || 'nyc3'`. */
  function RegionFromEnv(env: Option<string>): (r: string)
    ensures env.Some? && env.value != "" ==> r == env.value
    ensures env.None? || env.value == "" ==> r == DefaultRegion
  {
    if env.Some? && env.value != "" then env.value else DefaultRegion
  }

  const MaxRetries: nat := 1

  /** The number of attempts a call with this `retryCount` may make. */
  function Attempts(retryCount: nat): (n: nat)
    ensures 1 <= n <= MaxRetries + 1
  {
    if retryCount < MaxRetries then MaxRetries + 1 - retryCount else 1
  }

  /** The sends one `saveImage` call makes: between one and `tries`
      attempts of the same command, every one but the last failed; the
      result is the public URL exactly when the last attempt succeeded,
      and nothing only when every attempt was used. */
  predicate UploadRun(cfg: SpacesConfig, run: seq<Event>, command: PutObject, tries: nat, url: string, location: Option<string>) {
    1 <= |run| <= tries
    && (forall k :: 0 <= k < |run| ==> run[k].Put? && run[k].command == command)
    && (forall k :: 0 <= k < |run| - 1 ==> !run[k].succeeded)
    && (location.Some? <==> run[|run| - 1].succeeded)
    && (location.Some? ==> location.value == cfg.PublicUrl(cfg.Key(url)))
    && (location.None? ==> |run| == tries)
  }

  /** `saveImage`: sends the upload command, and on failure retries once
      (after a one-second pause, not modelled) by calling itself with
      `retryCount + 1`. */
  method SaveImage(cfg: SpacesConfig, world: Environment, data: Bytes, url: string, retryCount: nat)
    returns (location: Option<string>, ghost run: seq<Event>)
    modifies world
    decreases MaxRetries - retryCount
    ensures world.log == old(world.log) + run
    ensures UploadRun(cfg, run, cfg.Command(data, url), Attempts(retryCount), url, location)
  {
    var command := cfg.Command(data, url);
    var succeeded := world.Send(command);
    if succeeded {
      location := Some(cfg.PublicUrl(cfg.Key(url)));
      run := [Put(command, true)];
    } else if retryCount < MaxRetries {
      ghost var rest;
      location, rest := SaveImage(cfg, world, data, url, retryCount + 1);
      run := [Put(command, false)] + rest;
    } else {
      location := None;
      run := [Put(command, false)];
    }
  }

  /** A first attempt that succeeds is the only one. */
  lemma FirstSuccessMeansNoRetry(cfg: SpacesConfig, run: seq<Event>, command: PutObject, tries: nat, url: string, location: Option<string>)
    requires UploadRun(cfg, run, command, tries, url, location)
    requires run[0].succeeded
    ensures run == [Put(command, true)]
    ensures location == Some(cfg.PublicUrl(cfg.Key(url)))
  {
    assert |run| == 1;
  }

  /** From the default `retryCount` of 0, nothing is returned only after
      exactly two failed sends of the same command. */
  lemma NothingOnlyAfterTwoFailures(cfg: SpacesConfig, run: seq<Event>, data: Bytes, url: string, location: Option<string>)
    requires UploadRun(cfg, run, cfg.Command(data, url), Attempts(0), url, location)
    ensures location.None? <==> run == [Put(cfg.Command(data, url), false), Put(cfg.Command(data, url), false)]
  {
    var c := cfg.Command(data, url);
    if location.None? {
      assert run[0] == Put(c, false) && run[1] == Put(c, false);
    }
  }

  /** Every upload of an image is stored under the same key, whatever the
      payload: two uploads collide exactly when their URLs' digests do. */
  lemma KeysCollideOnlyWhenDigestsDo(cfg: SpacesConfig, data1: Bytes, url1: string, data2: Bytes, url2: string)
    ensures cfg.Command(data1, url1).key == cfg.Command(data2, url2).key <==> cfg.md5(url1) == cfg.md5(url2)
  {
    var k1, k2 := cfg.Key(url1), cfg.Key(url2);
    if k1 == k2 {
      assert k1[|KeyPrefix|..] == k2[|KeyPrefix|..];
    }
  }
}
