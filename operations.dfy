/** What the filesystem operations built on `ls` compute, as functions of
    the configuration and the store: `du` and `exists` answer from the
    listing, `rm`, `touchz` and `create_bucket` give the store afterwards. */
module Operations {
  import opened Strings
  import opened Uri
  import opened Glob
  import opened Aws
  import opened ObjectStore
  import opened Buckets
  import opened GlobListing
  import opened Keys

  /** A sequence is empty or has its first element as a member. */
  lemma EmptyOrHasFirst<T>(s: seq<T>)
    ensures s == [] || s[0] in s
  {
  }

  // ---- du ----

  /** `get_s3_key(uri).size`: reading the size of a missing key raises. */
  function SizeAt(cfg: Config, store: Store, uri: string): (r: Result<nat, Error>)
    ensures GetS3Key(cfg, store, uri).Err? ==> r == Err(GetS3Key(cfg, store, uri).error)
    ensures GetS3Key(cfg, store, uri) == Ok(None) ==> r == Err(MissingKey(uri))
    ensures r.Ok? ==>
      && GetS3Key(cfg, store, uri).Ok? && GetS3Key(cfg, store, uri).value.Some?
      && r.value == GetS3Key(cfg, store, uri).value.value.size
    ensures GetS3Key(cfg, store, uri).Ok? && GetS3Key(cfg, store, uri).value.Some? ==> r.Ok?
  {
    match GetS3Key(cfg, store, uri)
    case Err(e) => Err(e)
    case Ok(None) => Err(MissingKey(uri))
    case Ok(Some(k)) => Ok(k.size)
  }

  /** Python's `sum` over a generator of sizes: the first error is raised,
      otherwise the sizes are added up. */
  function SumResults(sizes: seq<Result<nat, Error>>): (r: Result<nat, Error>)
    ensures r.Err? <==> exists i :: 0 <= i < |sizes| && sizes[i].Err?
    decreases |sizes|
  {
    if sizes == [] then Ok(0)
    else if sizes[0].Err? then Err(sizes[0].error)
    else
      var rest := SumResults(sizes[1..]);
      assert forall i :: 0 < i < |sizes| ==> sizes[i] == sizes[1..][i - 1];
      if rest.Err? then rest else Ok(sizes[0].value + rest.value)
  }

  /** The total size of the objects stored under `keys`: no smaller than any
      one of them, and 0 for no keys. */
  function TotalSize(objects: map<string, S3Object>, keys: seq<string>): (r: nat)
    requires forall k :: k in keys ==> k in objects
    ensures keys == [] ==> r == 0
    ensures forall i :: 0 <= i < |keys| ==> objects[keys[i]].size <= r
    decreases |keys|
  {
    if keys == [] then 0
    else
      var rest := TotalSize(objects, keys[1..]);
      assert forall i :: 0 < i < |keys| ==> keys[i] == keys[1..][i - 1];
      objects[keys[0]].size + rest
  }

  /** `du(glob)`: the sizes of the keys at the URIs `ls(glob)` yields. */
  function Du(cfg: Config, store: Store, glob: string): (r: Result<nat, Error>)
    ensures Listing(cfg, store, glob).Err? ==> r == Err(Listing(cfg, store, glob).error)
  {
    match Listing(cfg, store, glob)
    case Err(e) => Err(e)
    case Ok(uris) => SumResults(seq(|uris|, i requires 0 <= i < |uris| => SizeAt(cfg, store, uris[i])))
  }

  /** The key at a URI `ls` builds is the stored object of that key. */
  lemma KeyAtListedUri(cfg: Config, store: Store, glob: string, t: S3Path, key: string)
    requires ParseS3Uri(CutAtWildcard(glob)) == Some(t)
    requires GetBucket(cfg, store, t.bucket).Ok? && key in store[t.bucket].objects
    ensures GetS3Key(cfg, store, BuildUri(Scheme(glob), t.bucket, key))
         == Ok(Some(S3Key(t.bucket, key, store[t.bucket].objects[key].size, store[t.bucket].objects[key].etag)))
  {
    ListedUriParses(glob, t, key);
  }

  /** Sizes that are all found add up to the total size of their keys. */
  lemma {:induction false} SumOfFoundSizes(sizes: seq<Result<nat, Error>>, objects: map<string, S3Object>, keys: seq<string>)
    requires forall k :: k in keys ==> k in objects
    requires |sizes| == |keys| && forall i :: 0 <= i < |keys| ==> sizes[i] == Ok(objects[keys[i]].size)
    ensures SumResults(sizes) == Ok(TotalSize(objects, keys))
    decreases |keys|
  {
    if keys != [] {
      assert keys[0] in keys;
      assert forall k :: k in keys[1..] ==> k in keys;
      SumOfFoundSizes(sizes[1..], objects, keys[1..]);
    }
  }

  /** The sizes `du(glob)` adds up are the stored sizes of the matched keys. */
  lemma SizesOfListedKeys(cfg: Config, store: Store, glob: string, t: S3Path, keys: seq<string>)
    requires ParseS3Uri(CutAtWildcard(glob)) == Some(t)
    requires GetBucket(cfg, store, t.bucket).Ok?
    requires forall k :: k in keys ==> k in store[t.bucket].objects
    ensures var uris := UrisOf(Scheme(glob), t.bucket, keys);
      forall i :: 0 <= i < |keys| ==> SizeAt(cfg, store, uris[i]) == Ok(store[t.bucket].objects[keys[i]].size)
  {
    var uris := UrisOf(Scheme(glob), t.bucket, keys);
    forall i | 0 <= i < |keys|
      ensures SizeAt(cfg, store, uris[i]) == Ok(store[t.bucket].objects[keys[i]].size)
    {
      assert keys[i] in keys;
      KeyAtListedUri(cfg, store, glob, t, keys[i]);
    }
  }

  /** `du(glob)` is the total size of the keys `ls(glob)` yields, and 0 when
      it yields none. */
  lemma DuIsTotalSizeOfMatches(cfg: Config, store: Store, glob: string)
    requires WellFormedStore(store) && ScanTarget(cfg, store, glob).Ok?
    ensures var t := ScanTarget(cfg, store, glob).value;
      Du(cfg, store, glob) == Ok(TotalSize(store[t.bucket].objects, MatchedKeys(cfg, store, glob)))
    ensures MatchedKeys(cfg, store, glob) == [] ==> Du(cfg, store, glob) == Ok(0)
  {
    var t := ScanTarget(cfg, store, glob).value;
    var keys := MatchedKeys(cfg, store, glob);
    var uris := UrisOf(Scheme(glob), t.bucket, keys);
    ListingIsFilteredListing(cfg, store, glob);
    SizesOfListedKeys(cfg, store, glob, t, keys);
    var sizes := seq(|uris|, i requires 0 <= i < |uris| => SizeAt(cfg, store, uris[i]));
    SumOfFoundSizes(sizes, store[t.bucket].objects, keys);
    assert Du(cfg, store, glob) == SumResults(sizes);
  }

  // ---- exists ----

  /** Python's `any` over strings: some string is non-empty. */
  predicate AnyTruthy(uris: seq<string>) {
    exists i :: 0 <= i < |uris| && uris[i] != ""
  }

  /** `exists(glob)`: whether `ls(glob)` yields anything truthy. Errors from
      the listing are raised. */
  function Exists(cfg: Config, store: Store, glob: string): (r: Result<bool, Error>)
    ensures Listing(cfg, store, glob).Err? ==> r == Err(Listing(cfg, store, glob).error)
    ensures r.Ok? ==> Listing(cfg, store, glob).Ok? && (r.value <==> Listing(cfg, store, glob).value != [])
    ensures Listing(cfg, store, glob).Ok? ==> r == Ok(Listing(cfg, store, glob).value != [])
  {
    match Listing(cfg, store, glob)
    case Err(e) => Err(e)
    case Ok(uris) =>
      assert uris != [] ==> uris[0] != "";
      Ok(AnyTruthy(uris))
  }

  /** `exists(glob)` holds exactly when some stored key of the scanned bucket
      passes the glob filter. */
  lemma ExistsIffSomeKeyAccepted(cfg: Config, store: Store, glob: string)
    requires WellFormedStore(store) && ScanTarget(cfg, store, glob).Ok?
    ensures var t := ScanTarget(cfg, store, glob).value;
      Exists(cfg, store, glob)
      == Ok(exists k :: k in store[t.bucket].objects && Accepts(Scheme(glob), t.bucket, k, glob))
  {
    var keys := MatchedKeys(cfg, store, glob);
    ListingIsFilteredListing(cfg, store, glob);
    EmptyOrHasFirst(keys);
  }

  // ---- rm ----

  /** The store once `rm(glob)` has deleted the first `i` keys `ls(glob)`
      yielded. */
  function PartlyRemoved(cfg: Config, store: Store, glob: string, i: nat): (r: Store)
    requires WellFormedStore(store) && ScanTarget(cfg, store, glob).Ok?
    requires i <= |MatchedKeys(cfg, store, glob)|
    ensures WellFormedStore(r)
  {
    var b := ScanTarget(cfg, store, glob).value.bucket;
    store[b := DeleteAll(store[b], MatchedKeys(cfg, store, glob)[..i])]
  }

  /** The store after `rm(glob)`: the keys `ls(glob)` yields are deleted from
      the scanned bucket, and nothing else changes. */
  function Removed(cfg: Config, store: Store, glob: string): (r: Store)
    requires WellFormedStore(store) && ScanTarget(cfg, store, glob).Ok?
    ensures WellFormedStore(r) && r.Keys == store.Keys
    ensures var b := ScanTarget(cfg, store, glob).value.bucket;
      && (forall name :: name in store && name != b ==> r[name] == store[name])
      && r[b].location == store[b].location
      && (forall k :: k in r[b].objects <==> k in store[b].objects && !Accepts(Scheme(glob), b, k, glob))
      && (forall k :: k in r[b].objects ==> r[b].objects[k] == store[b].objects[k])
  {
    var b := ScanTarget(cfg, store, glob).value.bucket;
    var keys := MatchedKeys(cfg, store, glob);
    ListingIsFilteredListing(cfg, store, glob);
    var nb := DeleteAll(store[b], keys);
    ReplaceBucket(store, b, nb);
    store[b := nb]
  }

  /** Deleting keys changes nothing about where `ls(glob)` scans. */
  lemma RemovedKeepsScanTarget(cfg: Config, store: Store, glob: string)
    requires WellFormedStore(store) && ScanTarget(cfg, store, glob).Ok?
    ensures ScanTarget(cfg, Removed(cfg, store, glob), glob) == ScanTarget(cfg, store, glob)
  {
    var t := ScanTarget(cfg, store, glob).value;
    GetBucketDependsOnLocation(cfg, store, Removed(cfg, store, glob), t.bucket);
  }

  /** After `rm(glob)`, `ls(glob)` yields nothing. */
  lemma ListingAfterRmIsEmpty(cfg: Config, store: Store, glob: string)
    requires WellFormedStore(store) && ScanTarget(cfg, store, glob).Ok?
    ensures ScanTarget(cfg, Removed(cfg, store, glob), glob).Ok?
    ensures MatchedKeys(cfg, Removed(cfg, store, glob), glob) == []
    ensures Listing(cfg, Removed(cfg, store, glob), glob) == Ok([])
  {
    var after := Removed(cfg, store, glob);
    RemovedKeepsScanTarget(cfg, store, glob);
    ListingIsFilteredListing(cfg, after, glob);
    EmptyOrHasFirst(MatchedKeys(cfg, after, glob));
  }

  /** A second `rm(glob)` deletes nothing more. */
  lemma RmIsIdempotent(cfg: Config, store: Store, glob: string)
    requires WellFormedStore(store) && ScanTarget(cfg, store, glob).Ok?
    ensures ScanTarget(cfg, Removed(cfg, store, glob), glob).Ok?
    ensures Removed(cfg, Removed(cfg, store, glob), glob) == Removed(cfg, store, glob)
  {
    ListingAfterRmIsEmpty(cfg, store, glob);
    RemovedWhenNothingMatches(cfg, Removed(cfg, store, glob), glob);
  }

  /** `rm(glob)` changes nothing when `ls(glob)` yields nothing. */
  lemma RemovedWhenNothingMatches(cfg: Config, store: Store, glob: string)
    requires WellFormedStore(store) && ScanTarget(cfg, store, glob).Ok?
    requires MatchedKeys(cfg, store, glob) == []
    ensures Removed(cfg, store, glob) == store
  {
    var b := ScanTarget(cfg, store, glob).value.bucket;
    assert DeleteAll(store[b], []) == store[b];
    ReplaceWithSame(store, b);
  }

  /** `rm(glob)` starts from the store as it was and, after the last key
      `ls(glob)` yielded, ends at `Removed`. */
  lemma PartlyRemovedEnds(cfg: Config, store: Store, glob: string)
    requires WellFormedStore(store) && ScanTarget(cfg, store, glob).Ok?
    ensures |Listing(cfg, store, glob).value| == |MatchedKeys(cfg, store, glob)|
    ensures PartlyRemoved(cfg, store, glob, 0) == store
    ensures PartlyRemoved(cfg, store, glob, |MatchedKeys(cfg, store, glob)|) == Removed(cfg, store, glob)
  {
    PartlyRemovedStart(cfg, store, glob);
    PartlyRemovedEnd(cfg, store, glob);
  }

  lemma PartlyRemovedStart(cfg: Config, store: Store, glob: string)
    requires WellFormedStore(store) && ScanTarget(cfg, store, glob).Ok?
    ensures PartlyRemoved(cfg, store, glob, 0) == store
  {
    var b := ScanTarget(cfg, store, glob).value.bucket;
    assert MatchedKeys(cfg, store, glob)[..0] == [];
    assert DeleteAll(store[b], []) == store[b];
    ReplaceWithSame(store, b);
  }

  lemma PartlyRemovedEnd(cfg: Config, store: Store, glob: string)
    requires WellFormedStore(store) && ScanTarget(cfg, store, glob).Ok?
    ensures PartlyRemoved(cfg, store, glob, |MatchedKeys(cfg, store, glob)|) == Removed(cfg, store, glob)
  {
    var b := ScanTarget(cfg, store, glob).value.bucket;
    var keys := MatchedKeys(cfg, store, glob);
    assert keys[..|keys|] == keys;
    PartlyRemovedIs(cfg, store, glob, |keys|);
    RemovedIs(cfg, store, glob);
  }

  lemma PartlyRemovedIs(cfg: Config, store: Store, glob: string, i: nat)
    requires WellFormedStore(store) && ScanTarget(cfg, store, glob).Ok?
    requires i <= |MatchedKeys(cfg, store, glob)|
    ensures var b := ScanTarget(cfg, store, glob).value.bucket;
      PartlyRemoved(cfg, store, glob, i) == store[b := DeleteAll(store[b], MatchedKeys(cfg, store, glob)[..i])]
  {
  }

  lemma RemovedIs(cfg: Config, store: Store, glob: string)
    requires WellFormedStore(store) && ScanTarget(cfg, store, glob).Ok?
    ensures var b := ScanTarget(cfg, store, glob).value.bucket;
      Removed(cfg, store, glob) == store[b := DeleteAll(store[b], MatchedKeys(cfg, store, glob))]
  {
  }

  /** While `rm(glob)` works through the URIs `ls(glob)` yielded, the next
      one still names its key, unchanged: deleting the earlier keys neither
      removes it nor changes how its bucket is reached. */
  lemma KeyFoundDuringRm(cfg: Config, before: Store, glob: string, i: nat)
    requires WellFormedStore(before) && ScanTarget(cfg, before, glob).Ok?
    requires i < |MatchedKeys(cfg, before, glob)|
    ensures var t := ScanTarget(cfg, before, glob).value;
      var keys := MatchedKeys(cfg, before, glob);
      var obj := before[t.bucket].objects[keys[i]];
      && keys[i] in before[t.bucket].objects
      && i < |Listing(cfg, before, glob).value|
      && GetS3Key(cfg, PartlyRemoved(cfg, before, glob, i), Listing(cfg, before, glob).value[i])
         == Ok(Some(S3Key(t.bucket, keys[i], obj.size, obj.etag)))
  {
    var t := ScanTarget(cfg, before, glob).value;
    var keys := MatchedKeys(cfg, before, glob);
    ListingIsFilteredListing(cfg, before, glob);
    var during := PartlyRemoved(cfg, before, glob, i);
    assert keys[i] in keys;
    assert keys[i] !in keys[..i];
    GetBucketDependsOnLocation(cfg, before, during, t.bucket);
    KeyAtListedUri(cfg, during, glob, t, keys[i]);
  }

  /** Deleting the next key moves `rm(glob)` one key further. */
  lemma RmStep(cfg: Config, before: Store, glob: string, i: nat)
    requires WellFormedStore(before) && ScanTarget(cfg, before, glob).Ok?
    requires i < |MatchedKeys(cfg, before, glob)|
    ensures var b := ScanTarget(cfg, before, glob).value.bucket;
      var during := PartlyRemoved(cfg, before, glob, i);
      b in during &&
      during[b := DeleteObject(during[b], MatchedKeys(cfg, before, glob)[i])] == PartlyRemoved(cfg, before, glob, i + 1)
  {
    var b := ScanTarget(cfg, before, glob).value.bucket;
    var keys := MatchedKeys(cfg, before, glob);
    DeleteOneMore(before, b, keys, i);
  }

  // ---- touchz ----

  /** The store after `touchz(dest)`: an existing non-empty key is refused,
      otherwise `dest` holds an empty object and nothing else changes. */
  function Touched(cfg: Config, store: Store, dest: string): (r: Result<Store, Error>)
    requires WellFormedStore(store)
    ensures GetS3Key(cfg, store, dest).Err? ==> r == Err(GetS3Key(cfg, store, dest).error)
    ensures (GetS3Key(cfg, store, dest).Ok? && GetS3Key(cfg, store, dest).value.Some? &&
             GetS3Key(cfg, store, dest).value.value.size != 0) ==> r == Err(NonEmptyFile(dest))
    ensures (GetS3Key(cfg, store, dest).Ok? && (GetS3Key(cfg, store, dest).value.None? ||
             GetS3Key(cfg, store, dest).value.value.size == 0)) ==> r.Ok?
    ensures r.Ok? ==> GetS3Key(cfg, store, dest).Ok? && Locate(cfg, store, dest).Ok?
    ensures r.Ok? ==> var p := Locate(cfg, store, dest).value;
      && WellFormedStore(r.value) && r.value.Keys == store.Keys
      && (forall name :: name in store && name != p.bucket ==> r.value[name] == store[name])
      && r.value[p.bucket].location == store[p.bucket].location
      && r.value[p.bucket].objects == store[p.bucket].objects[p.key := EmptyObject]
  {
    match GetS3Key(cfg, store, dest)
    case Err(e) => Err(e)
    case Ok(key) =>
      if key.Some? && key.value.size != 0 then Err(NonEmptyFile(dest))
      else
        var p := Locate(cfg, store, dest).value;
        Ok(store[p.bucket := PutObject(store[p.bucket], p.key, EmptyObject)])
  }

  /** `touchz` goes ahead exactly when `dest` can be reached and holds no
      non-empty key. */
  lemma TouchzSucceedsIff(cfg: Config, store: Store, dest: string)
    requires WellFormedStore(store)
    ensures Touched(cfg, store, dest).Ok? <==>
      GetS3Key(cfg, store, dest).Ok? &&
      (GetS3Key(cfg, store, dest).value.None? || GetS3Key(cfg, store, dest).value.value.size == 0)
  {
  }

  /** After `touchz(dest)`, `dest` holds an empty object whose `md5sum` is
      the digest of no bytes. */
  lemma TouchzMakesEmptyFile(cfg: Config, store: Store, dest: string)
    requires WellFormedStore(store) && Touched(cfg, store, dest).Ok?
    ensures Locate(cfg, Touched(cfg, store, dest).value, dest) == Locate(cfg, store, dest)
    ensures var p := Locate(cfg, store, dest).value;
      GetS3Key(cfg, Touched(cfg, store, dest).value, dest) == Ok(Some(S3Key(p.bucket, p.key, 0, EmptyEtag)))
    ensures Md5sum(cfg, Touched(cfg, store, dest).value, dest) == Ok(EmptyMd5)
  {
    var after := Touched(cfg, store, dest).value;
    var p := Locate(cfg, store, dest).value;
    GetBucketDependsOnLocation(cfg, store, after, p.bucket);
    assert Locate(cfg, after, dest) == Ok(p);
    Md5sumOfEmptyObject(cfg, after, dest);
  }

  /** A second `touchz(dest)` changes nothing more. */
  lemma TouchzIsIdempotent(cfg: Config, store: Store, dest: string)
    requires WellFormedStore(store) && Touched(cfg, store, dest).Ok?
    ensures Touched(cfg, Touched(cfg, store, dest).value, dest) == Touched(cfg, store, dest)
  {
    var after := Touched(cfg, store, dest).value;
    var p := Locate(cfg, store, dest).value;
    TouchzMakesEmptyFile(cfg, store, dest);
    PutStoredObject(after[p.bucket], p.key, EmptyObject);
    TouchedIsPut(cfg, after, dest);
    ReplaceWithSame(after, p.bucket);
  }

  lemma TouchedIsPut(cfg: Config, store: Store, dest: string)
    requires WellFormedStore(store)
    requires GetS3Key(cfg, store, dest).Ok?
    requires GetS3Key(cfg, store, dest).value.None? || GetS3Key(cfg, store, dest).value.value.size == 0
    ensures var p := Locate(cfg, store, dest).value;
      Touched(cfg, store, dest) == Ok(store[p.bucket := PutObject(store[p.bucket], p.key, EmptyObject)])
  {
  }

  // ---- create_bucket ----

  /** The store after `create_bucket(name, region)`: a new empty bucket whose
      location constraint is the one `create_bucket` sends; a name already
      taken is refused. */
  function WithNewBucket(store: Store, name: string, region: Option<string>): (r: Result<Store, Error>)
    requires WellFormedStore(store)
    ensures name in store <==> r == Err(BucketAlreadyOwnedByYou)
    ensures r.Ok? <==> name !in store
    ensures r.Ok? ==>
      && WellFormedStore(r.value) && r.value.Keys == store.Keys + {name}
      && (forall other :: other in store ==> r.value[other] == store[other])
      && r.value[name].objects == map[]
      && r.value[name].location == Located(CreateBucketConstraint(region))
  {
    if name in store then Err(BucketAlreadyOwnedByYou)
    else Ok(store[name := NewBucket(CreateBucketConstraint(region))])
  }

  /** A bucket created for `region` is then reached through the client
      arguments for that region (the no-constraint region when none is
      given), and lists nothing. */
  lemma CreatedBucketIsReachable(cfg: Config, store: Store, name: string, region: Option<string>)
    requires WellFormedStore(store) && name !in store
    ensures var after := WithNewBucket(store, name, region).value;
      GetBucket(cfg, after, name) == Ok(BucketHandle(name, ClientKwargsFor(cfg,
        Some(if Truthy(region) then region.value else NoLocationConstraintRegion))))
  {
    CreatedBucketReportsRegion(region);
  }
}
