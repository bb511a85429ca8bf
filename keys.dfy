/** Single keys: the key object `get_s3_key` returns, its `s3://` URI, and
    `md5sum`, which strips the quotes from a key's ETag. */
module Keys {
  import opened Strings
  import opened Uri
  import opened Aws
  import opened ObjectStore
  import opened Buckets

  /** A key object as the filesystem uses it: where it lives and what it holds. */
  datatype S3Key = S3Key(bucket: string, name: string, size: nat, etag: string)

  /** `s3_key_to_uri`: always the `s3` scheme, whatever URI found the key. */
  function S3KeyToUri(k: S3Key): string {
    BuildUri("s3", k.bucket, k.name)
  }

  /** The URI of a key parses back to its bucket and name. */
  lemma S3KeyToUriParsesBack(k: S3Key)
    requires '/' !in k.bucket
    ensures ParseS3Uri(S3KeyToUri(k)) == Some(S3Path(k.bucket, k.name))
  {
    assert LowerStr("s3") == "s3";
    ParseBuildRoundTrip("s3", k.bucket, k.name);
  }

  /** `get_s3_key`: the key at `uri`, `None` when the bucket has no such key;
      a malformed URI or a failure to reach the bucket is raised. */
  function GetS3Key(cfg: Config, store: Store, uri: string): (r: Result<Option<S3Key>, Error>)
    ensures ParseS3Uri(uri).None? ==> r == Err(InvalidUri(uri))
    ensures r.Ok? <==> Locate(cfg, store, uri).Ok?
    ensures Locate(cfg, store, uri).Err? ==> r == Err(Locate(cfg, store, uri).error)
    ensures r.Ok? ==> var p := Locate(cfg, store, uri).value;
      && (r.value.Some? <==> p.key in store[p.bucket].objects)
      && (r.value.Some? ==> r.value.value == S3Key(p.bucket, p.key, store[p.bucket].objects[p.key].size, store[p.bucket].objects[p.key].etag))
  {
    match Locate(cfg, store, uri)
    case Err(e) => Err(e)
    case Ok(p) =>
      if p.key in store[p.bucket].objects then
        var obj := store[p.bucket].objects[p.key];
        Ok(Some(S3Key(p.bucket, p.key, obj.size, obj.etag)))
      else Ok(None)
  }

  /** A key found at any URI is found again at its own `s3://` URI. */
  lemma GetS3KeyAtOwnUri(cfg: Config, store: Store, uri: string)
    requires GetS3Key(cfg, store, uri).Ok? && GetS3Key(cfg, store, uri).value.Some?
    ensures var k := GetS3Key(cfg, store, uri).value.value;
      GetS3Key(cfg, store, S3KeyToUri(k)) == Ok(Some(k))
  {
    var k := GetS3Key(cfg, store, uri).value.value;
    S3KeyToUriParsesBack(k);
  }

  predicate IsQuote(c: char) {
    c == '"'
  }

  predicate AllQuotes(s: string) {
    forall i :: 0 <= i < |s| ==> IsQuote(s[i])
  }

  /** `s` with its leading quotes removed. */
  function StripLeading(s: string): (r: string)
    ensures |r| <= |s| && r == s[|s| - |r|..] && AllQuotes(s[..|s| - |r|])
    ensures r == [] || !IsQuote(r[0])
    decreases |s|
  {
    if s != [] && IsQuote(s[0]) then
      var r := StripLeading(s[1..]);
      assert s[..|s| - |r|] == [s[0]] + s[1..][..|s| - 1 - |r|];
      r
    else s
  }

  /** `s` with its trailing quotes removed. */
  function StripTrailing(s: string): (r: string)
    ensures |r| <= |s| && r == s[..|r|] && AllQuotes(s[|r|..])
    ensures r == [] || !IsQuote(r[|r| - 1])
    decreases |s|
  {
    if s != [] && IsQuote(s[|s| - 1]) then
      var r := StripTrailing(s[..|s| - 1]);
      assert s[|r|..] == s[..|s| - 1][|r|..] + [s[|s| - 1]];
      r
    else s
  }

  /** `r` is what is left of `s` once the quotes before index `i` and after
      `r` are cut off. */
  ghost predicate StripsAt(s: string, r: string, i: int) {
    0 <= i && i + |r| <= |s| && r == s[i..i + |r|] && AllQuotes(s[..i]) && AllQuotes(s[i + |r|..])
  }

  /** Python's `s.strip('"')`: the middle of `s` between its leading and
      trailing runs of quotes. */
  function StripQuotes(s: string): (r: string)
    ensures exists i :: StripsAt(s, r, i)
    ensures r == [] || (!IsQuote(r[0]) && !IsQuote(r[|r| - 1]))
  {
    var inner := StripLeading(s);
    var r := StripTrailing(inner);
    StripsAtComposed(s, inner, r);
    r
  }

  /** Cutting quotes off the front of `s`, then off the back of what is
      left, cuts quotes off both ends of `s`. */
  lemma StripsAtComposed(s: string, inner: string, r: string)
    requires |inner| <= |s| && inner == s[|s| - |inner|..] && AllQuotes(s[..|s| - |inner|])
    requires |r| <= |inner| && r == inner[..|r|] && AllQuotes(inner[|r|..])
    requires inner == [] || !IsQuote(inner[0])
    ensures StripsAt(s, r, |s| - |inner|)
    ensures r == [] || !IsQuote(r[0])
  {
    var i := |s| - |inner|;
    assert s[i + |r|..] == inner[|r|..];
    assert r == s[i..i + |r|];
  }

  lemma StripLeadingQuote(d: string)
    ensures StripLeading("\"" + d) == StripLeading(d)
  {
    assert ("\"" + d)[1..] == d;
  }

  lemma StripLeadingOfUnquoted(d: string)
    requires '"' !in d && d != []
    ensures StripLeading(d + "\"") == d + "\""
  {
    assert (d + "\"")[0] == d[0];
  }

  lemma StripTrailingOfUnquoted(d: string)
    requires '"' !in d && d != []
    ensures StripTrailing(d + "\"") == d
  {
    assert (d + "\"")[..|d|] == d;
    assert d[|d| - 1] in d;
  }

  /** A text with no quote in it, quoted once, strips back to itself. */
  lemma StripQuotesOfQuoted(d: string)
    requires '"' !in d
    ensures StripQuotes("\"" + d + "\"") == d
  {
    var t := d + "\"";
    assert "\"" + d + "\"" == "\"" + t;
    StripLeadingQuote(t);
    if d == [] {
      StripLeadingQuote([]);
    } else {
      StripLeadingOfUnquoted(d);
      StripTrailingOfUnquoted(d);
    }
  }

  /** Stripping twice is stripping once. */
  lemma StripQuotesIdempotent(s: string)
    ensures StripQuotes(StripQuotes(s)) == StripQuotes(s)
  {
    var r := StripQuotes(s);
    assert StripLeading(r) == r;
    assert StripTrailing(r) == r;
  }

  /** `md5sum`: the key's ETag without its quotes; a missing key has no ETag
      to read. */
  function Md5sum(cfg: Config, store: Store, path: string): (r: Result<string, Error>)
    ensures GetS3Key(cfg, store, path).Err? ==> r == Err(GetS3Key(cfg, store, path).error)
    ensures GetS3Key(cfg, store, path) == Ok(None) ==> r == Err(MissingKey(path))
    ensures r.Ok? ==> GetS3Key(cfg, store, path).Ok? && GetS3Key(cfg, store, path).value.Some?
    ensures GetS3Key(cfg, store, path).Ok? && GetS3Key(cfg, store, path).value.Some? ==>
      r == Ok(StripQuotes(GetS3Key(cfg, store, path).value.value.etag))
  {
    match GetS3Key(cfg, store, path)
    case Err(e) => Err(e)
    case Ok(None) => Err(MissingKey(path))
    case Ok(Some(k)) => Ok(StripQuotes(k.etag))
  }

  /** For a key stored at a reachable path, `md5sum` is that object's ETag
      with its quotes stripped, which neither starts nor ends with a quote. */
  lemma Md5sumOfStoredObject(cfg: Config, store: Store, path: string)
    requires Locate(cfg, store, path).Ok?
    requires Locate(cfg, store, path).value.key in store[Locate(cfg, store, path).value.bucket].objects
    ensures var p := Locate(cfg, store, path).value;
      Md5sum(cfg, store, path) == Ok(StripQuotes(store[p.bucket].objects[p.key].etag))
    ensures var m := Md5sum(cfg, store, path).value;
      m == [] || (!IsQuote(m[0]) && !IsQuote(m[|m| - 1]))
  {
    var p := Locate(cfg, store, path).value;
    var obj := store[p.bucket].objects[p.key];
    assert GetS3Key(cfg, store, path) == Ok(Some(S3Key(p.bucket, p.key, obj.size, obj.etag)));
  }

  /** An object holding the S3 ETag of no bytes reports the MD5 digest of no
      bytes. */
  lemma Md5sumOfEmptyObject(cfg: Config, store: Store, path: string)
    requires GetS3Key(cfg, store, path).Ok? && GetS3Key(cfg, store, path).value.Some?
    requires GetS3Key(cfg, store, path).value.value.etag == EmptyEtag
    ensures Md5sum(cfg, store, path) == Ok(EmptyMd5)
  {
    EmptyMd5Unquoted();
    StripQuotesOfQuoted(EmptyMd5);
    var k := GetS3Key(cfg, store, path).value.value;
    assert Md5sum(cfg, store, path) == Ok(StripQuotes(k.etag));
  }

  lemma EmptyMd5Unquoted()
    ensures '"' !in EmptyMd5
  {
    assert forall i :: 0 <= i < |EmptyMd5| ==> EmptyMd5[i] != '"';
  }
}
