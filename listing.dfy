/** What `S3Filesystem.ls` yields for a glob: it cuts the glob at its
    first wildcard, reaches the bucket of that prefix, scans the keys that
    start with the prefix's key, rebuilds each key's URI with the glob's
    scheme, and keeps the URIs that match the glob or its directory glob. */
module GlobListing {
  import opened Strings
  import opened Uri
  import opened Glob
  import opened Aws
  import opened ObjectStore
  import opened Buckets

  /** The glob filter `ls` applies to the URI of one key. */
  predicate Accepts(scheme: string, bucket: string, key: string, glob: string) {
    var uri := BuildUri(scheme, bucket, key);
    Matches(uri, glob) || Matches(uri, DirGlob(glob))
  }

  /** The keys of `keys` the filter accepts, in their order. */
  function Selected(scheme: string, bucket: string, keys: seq<string>, glob: string): (r: seq<string>)
    ensures forall k :: k in r <==> k in keys && Accepts(scheme, bucket, k, glob)
    ensures Distinct(keys) ==> Distinct(r)
    decreases |keys|
  {
    if keys == [] then []
    else
      var init := Selected(scheme, bucket, keys[..|keys| - 1], glob);
      var last := keys[|keys| - 1];
      assert keys == keys[..|keys| - 1] + [last];
      if Accepts(scheme, bucket, last, glob) then
        assert Distinct(keys) ==> last !in keys[..|keys| - 1];
        init + [last]
      else init
  }

  /** The URIs of `keys` in one bucket under one scheme. */
  function UrisOf(scheme: string, bucket: string, keys: seq<string>): (uris: seq<string>)
    ensures |uris| == |keys|
    ensures forall i :: 0 <= i < |keys| ==> uris[i] == BuildUri(scheme, bucket, keys[i])
  {
    seq(|keys|, i requires 0 <= i < |keys| => BuildUri(scheme, bucket, keys[i]))
  }

  /** What `Listing` is once the scan target has been reached. */
  lemma ListingOfScan(cfg: Config, store: Store, glob: string)
    requires ScanTarget(cfg, store, glob).Ok?
    ensures var t := ScanTarget(cfg, store, glob).value;
      Listing(cfg, store, glob)
      == Ok(UrisOf(Scheme(glob), t.bucket, Selected(Scheme(glob), t.bucket, KeysWithPrefix(store[t.bucket].listing, t.key), glob)))
  {
  }

  /** Filtering one more key extends the selection by that key when the
      filter accepts it: by position within `keys`, and by appending a key. */
  lemma SelectedStep(scheme: string, bucket: string, keys: seq<string>, i: nat, glob: string)
    requires i < |keys|
    ensures Selected(scheme, bucket, keys[..i + 1], glob)
         == if Accepts(scheme, bucket, keys[i], glob) then Selected(scheme, bucket, keys[..i], glob) + [keys[i]]
            else Selected(scheme, bucket, keys[..i], glob)
  {
    assert keys[..i + 1][..i] == keys[..i];
  }

  lemma SelectedSnoc(scheme: string, bucket: string, keys: seq<string>, key: string, glob: string)
    ensures Selected(scheme, bucket, keys + [key], glob)
         == if Accepts(scheme, bucket, key, glob) then Selected(scheme, bucket, keys, glob) + [key]
            else Selected(scheme, bucket, keys, glob)
  {
    assert (keys + [key])[..|keys|] == keys;
  }

  lemma UrisOfSnoc(scheme: string, bucket: string, keys: seq<string>, key: string)
    ensures UrisOf(scheme, bucket, keys + [key]) == UrisOf(scheme, bucket, keys) + [BuildUri(scheme, bucket, key)]
  {
  }

  /** Where `ls(glob)` scans: the bucket and key of the glob cut at its
      first wildcard, once that bucket has been reached. */
  function ScanTarget(cfg: Config, store: Store, glob: string): Result<S3Path, Error> {
    Locate(cfg, store, CutAtWildcard(glob))
  }

  /** The keys whose URIs `ls(glob)` yields, in the order it yields them. */
  function MatchedKeys(cfg: Config, store: Store, glob: string): seq<string>
    requires ScanTarget(cfg, store, glob).Ok?
  {
    var t := ScanTarget(cfg, store, glob).value;
    Selected(Scheme(glob), t.bucket, KeysWithPrefix(store[t.bucket].listing, t.key), glob)
  }

  /** `ls(glob)`: the URIs the generator yields, or the error it raises. */
  function Listing(cfg: Config, store: Store, glob: string): Result<seq<string>, Error> {
    match ScanTarget(cfg, store, glob)
    case Err(e) => Err(e)
    case Ok(t) => Ok(UrisOf(Scheme(glob), t.bucket, MatchedKeys(cfg, store, glob)))
  }

  /** Keys differ exactly when their URIs do. */
  lemma UriDeterminesKey(scheme: string, bucket: string, k1: string, k2: string)
    ensures BuildUri(scheme, bucket, k1) == BuildUri(scheme, bucket, k2) <==> k1 == k2
  {
    var h := scheme + "://" + bucket + "/";
    if BuildUri(scheme, bucket, k1) == BuildUri(scheme, bucket, k2) {
      assert k1 == (h + k1)[|h|..] == (h + k2)[|h|..] == k2;
    }
  }

  /** The URI of a key is among the URIs of some keys exactly when the key is. */
  lemma UriInUrisOf(scheme: string, bucket: string, keys: seq<string>, key: string)
    ensures BuildUri(scheme, bucket, key) in UrisOf(scheme, bucket, keys) <==> key in keys
  {
    var uris := UrisOf(scheme, bucket, keys);
    if key in keys {
      var i :| 0 <= i < |keys| && keys[i] == key;
      assert uris[i] == BuildUri(scheme, bucket, key);
    }
    if BuildUri(scheme, bucket, key) in uris {
      var i :| 0 <= i < |uris| && uris[i] == BuildUri(scheme, bucket, key);
      UriDeterminesKey(scheme, bucket, keys[i], key);
    }
  }

  /** The scheme `ls` rebuilds URIs with is one `parse_s3_uri` accepts, and
      the scan bucket has no `/` in it. */
  lemma ScanSchemeParses(glob: string, t: S3Path)
    requires ParseS3Uri(CutAtWildcard(glob)) == Some(t)
    ensures WellFormedScheme(Scheme(glob)) && "s3" <= LowerStr(Scheme(glob))
    ensures Scheme(glob) == Scheme(CutAtWildcard(glob)) && '/' !in t.bucket
  {
    var base := CutAtWildcard(glob);
    assert |LowerStr(RawScheme(base))| == |RawScheme(base)|;
    SchemeOfExtension(base, glob);
    LowerKeepsSchemeWellFormed(RawScheme(base));
    LowerStrIdempotent(RawScheme(base));
  }

  /** A URI `ls` builds parses back to its bucket and key. */
  lemma ListedUriParses(glob: string, t: S3Path, key: string)
    requires ParseS3Uri(CutAtWildcard(glob)) == Some(t)
    ensures ParseS3Uri(BuildUri(Scheme(glob), t.bucket, key)) == Some(S3Path(t.bucket, key))
  {
    ScanSchemeParses(glob, t);
    ParseBuildRoundTrip(Scheme(glob), t.bucket, key);
  }

  /** Every key whose URI the filter accepts starts with the scan's key
      prefix, so the prefix scan is only an optimisation. */
  lemma AcceptedKeyHasScanPrefix(glob: string, t: S3Path, key: string)
    requires ParseS3Uri(CutAtWildcard(glob)) == Some(t)
    ensures Accepts(Scheme(glob), t.bucket, key, glob) ==> t.key <= key
  {
    if Accepts(Scheme(glob), t.bucket, key, glob) {
      var base := CutAtWildcard(glob);
      AcceptedNameExtendsCut(BuildUri(Scheme(glob), t.bucket, key), glob);
      ScanSchemeParses(glob, t);
      ParsedUriIsBuilt(base);
      BuiltPrefix(RawScheme(base), Scheme(glob), t.bucket, t.key, key);
    }
  }

  /** Filtering the prefix-scanned keys gives what filtering every key gives. */
  lemma {:induction false} ScanLosesNothing(glob: string, t: S3Path, keys: seq<string>)
    requires ParseS3Uri(CutAtWildcard(glob)) == Some(t)
    ensures Selected(Scheme(glob), t.bucket, KeysWithPrefix(keys, t.key), glob)
         == Selected(Scheme(glob), t.bucket, keys, glob)
    decreases |keys|
  {
    if keys != [] {
      var init := keys[..|keys| - 1];
      var last := keys[|keys| - 1];
      assert keys == init + [last];
      ScanLosesNothing(glob, t, init);
      AcceptedKeyHasScanPrefix(glob, t, last);
      SelectedSnoc(Scheme(glob), t.bucket, init, last, glob);
      var scanned := KeysWithPrefix(init, t.key);
      assert KeysWithPrefix(keys, t.key) == if t.key <= last then scanned + [last] else scanned;
      if t.key <= last {
        SelectedSnoc(Scheme(glob), t.bucket, scanned, last, glob);
      }
    }
  }

  /** `ls(glob)` yields, in listing order, the URI of every stored key of
      the scanned bucket that the filter accepts, and nothing else; each
      of those keys starts with the scan's key prefix, and none is yielded
      twice. */
  lemma ListingIsFilteredListing(cfg: Config, store: Store, glob: string)
    requires WellFormedStore(store)
    requires ScanTarget(cfg, store, glob).Ok?
    ensures var t := ScanTarget(cfg, store, glob).value;
      var keys := MatchedKeys(cfg, store, glob);
      && keys == Selected(Scheme(glob), t.bucket, store[t.bucket].listing, glob)
      && Distinct(keys)
      && (forall k :: k in keys <==> k in store[t.bucket].objects && Accepts(Scheme(glob), t.bucket, k, glob))
      && (forall k :: k in keys ==> t.key <= k)
  {
    var t := ScanTarget(cfg, store, glob).value;
    ScanLosesNothing(glob, t, store[t.bucket].listing);
  }

  /** Each URI `ls(glob)` yields is `scheme://bucket/key` with the glob's
      scheme and the scanned bucket, for a stored key that starts with the
      scan's key prefix, and the URI matches the glob or its directory
      glob. */
  lemma ListedUrisAreMatches(cfg: Config, store: Store, glob: string)
    requires WellFormedStore(store)
    requires ScanTarget(cfg, store, glob).Ok?
    ensures var t := ScanTarget(cfg, store, glob).value;
      var uris := Listing(cfg, store, glob).value;
      var keys := MatchedKeys(cfg, store, glob);
      && |uris| == |keys|
      && forall i :: 0 <= i < |uris| ==>
           && uris[i] == BuildUri(Scheme(glob), t.bucket, keys[i])
           && keys[i] in store[t.bucket].objects
           && t.key <= keys[i]
           && (Matches(uris[i], glob) || Matches(uris[i], DirGlob(glob)))
  {
    var t := ScanTarget(cfg, store, glob).value;
    var uris := Listing(cfg, store, glob).value;
    var keys := MatchedKeys(cfg, store, glob);
    ListingIsFilteredListing(cfg, store, glob);
    forall i | 0 <= i < |uris|
      ensures keys[i] in store[t.bucket].objects && t.key <= keys[i]
      ensures Accepts(Scheme(glob), t.bucket, keys[i], glob)
    {
      assert keys[i] in keys;
    }
  }

  /** The URI of every stored key of the scanned bucket that the filter
      accepts is among those `ls(glob)` yields. */
  lemma ListingIsComplete(cfg: Config, store: Store, glob: string, key: string)
    requires WellFormedStore(store)
    requires ScanTarget(cfg, store, glob).Ok?
    ensures var t := ScanTarget(cfg, store, glob).value;
      key in store[t.bucket].objects && Accepts(Scheme(glob), t.bucket, key, glob) ==>
      BuildUri(Scheme(glob), t.bucket, key) in Listing(cfg, store, glob).value
  {
    var t := ScanTarget(cfg, store, glob).value;
    ListingIsFilteredListing(cfg, store, glob);
    UriInUrisOf(Scheme(glob), t.bucket, MatchedKeys(cfg, store, glob), key);
  }

  /** A URI built from wildcard-free parts has no wildcard. */
  lemma BuiltUriNoWildcard(scheme: string, bucket: string, path: string)
    requires NoWildcard(scheme) && NoWildcard(bucket) && NoWildcard(path)
    ensures NoWildcard(BuildUri(scheme, bucket, path))
  {
    var glob := BuildUri(scheme, bucket, path);
    var head := scheme + "://" + bucket + "/";
    assert glob == head + path;
    assert NoWildcard(head);
  }

  /** A wildcard-free S3 URI is its own scan prefix, and its scheme is the
      one it was built with. */
  lemma LiteralGlobScan(cfg: Config, store: Store, scheme: string, bucket: string, path: string)
    requires WellFormedScheme(scheme) && LowerStr(scheme) == scheme && "s3" <= scheme
    requires '/' !in bucket && NoWildcard(bucket) && NoWildcard(path)
    requires GetBucket(cfg, store, bucket).Ok?
    ensures var glob := BuildUri(scheme, bucket, path);
      ScanTarget(cfg, store, glob) == Ok(S3Path(bucket, path)) && Scheme(glob) == scheme
  {
    var glob := BuildUri(scheme, bucket, path);
    SchemeHasNoWildcard(scheme);
    BuiltUriNoWildcard(scheme, bucket, path);
    CutOfLiteral(glob);
    ParseBuildRoundTrip(scheme, bucket, path);
  }

  /** Scheme characters are no wildcards. */
  lemma SchemeHasNoWildcard(scheme: string)
    requires WellFormedScheme(scheme)
    ensures NoWildcard(scheme)
  {
  }

  /** For a wildcard-free glob the filter accepts `path` itself and the keys
      under its directory prefix, and nothing else. */
  lemma AcceptsLiteral(scheme: string, bucket: string, path: string, key: string)
    requires NoWildcard(scheme) && NoWildcard(bucket) && NoWildcard(path)
    ensures Accepts(scheme, bucket, key, BuildUri(scheme, bucket, path)) <==> key == path || DirPrefix(path) <= key
  {
    var glob := BuildUri(scheme, bucket, path);
    var head := scheme + "://" + bucket + "/";
    var uri := BuildUri(scheme, bucket, key);
    assert glob == head + path;
    assert NoWildcard(head);
    BuiltUriNoWildcard(scheme, bucket, path);
    MatchesLiteral(uri, glob);
    UriDeterminesKey(scheme, bucket, key, path);
    assert DirPrefix(glob) == head + DirPrefix(path);
    DirGlobOfLiteral(uri, glob);
    PrefixOfSameHead(head, DirPrefix(path), key);
  }

  /** Implicit directories: for `scheme://bucket/path` without wildcards,
      `ls` yields a stored key exactly when it is `path` itself or lies
      under `path/` (under `path` when that is empty or ends in `/`). */
  lemma DirectoryListing(cfg: Config, store: Store, scheme: string, bucket: string, path: string, key: string)
    requires WellFormedStore(store)
    requires WellFormedScheme(scheme) && LowerStr(scheme) == scheme && "s3" <= scheme
    requires '/' !in bucket && NoWildcard(bucket) && NoWildcard(path)
    requires GetBucket(cfg, store, bucket).Ok?
    requires key in store[bucket].objects
    ensures var glob := BuildUri(scheme, bucket, path);
      Listing(cfg, store, glob).Ok? &&
      (BuildUri(scheme, bucket, key) in Listing(cfg, store, glob).value <==> key == path || DirPrefix(path) <= key)
  {
    var glob := BuildUri(scheme, bucket, path);
    LiteralGlobScan(cfg, store, scheme, bucket, path);
    SchemeHasNoWildcard(scheme);
    AcceptsLiteral(scheme, bucket, path, key);
    ListingIsFilteredListing(cfg, store, glob);
    UriInUrisOf(scheme, bucket, MatchedKeys(cfg, store, glob), key);
  }
}
