/** `S3Filesystem` over the abstract store: the operations that loop over a
    listing or change the store are methods on an object holding the
    configuration it was constructed with and the store; each is tied to the
    function of the configuration and store that says what it computes. */
module Filesystem {
  import opened Strings
  import opened Uri
  import opened Aws
  import opened ObjectStore
  import opened Buckets
  import opened GlobListing
  import opened Keys
  import opened Operations

  class S3Filesystem {
    const config: Config
    var store: Store

    ghost predicate Valid()
      reads this
    {
      WellFormedStore(store)
    }

    /** The endpoint given is normalised once, at construction. */
    constructor (accessKeyId: Option<string>, secretAccessKey: Option<string>, sessionToken: Option<string>,
                 s3Endpoint: Option<string>, s3Region: Option<string>, initial: Store)
      requires WellFormedStore(initial)
      ensures Valid() && store == initial
      ensures config == Config(accessKeyId, secretAccessKey, sessionToken, EndpointUrl(s3Endpoint), s3Region)
    {
      config := Config(accessKeyId, secretAccessKey, sessionToken, EndpointUrl(s3Endpoint), s3Region);
      store := initial;
    }

    /** `ls`: walk the keys under the scan prefix and keep the URIs the glob
        or its directory glob matches. */
    method Ls(glob: string) returns (r: Result<seq<string>, Error>)
      ensures r == Listing(config, store, glob)
    {
      var scheme := Scheme(glob);
      var target := ScanTarget(config, store, glob);
      if target.Err? {
        return Err(target.error);
      }
      var t := target.value;
      var keys := KeysWithPrefix(store[t.bucket].listing, t.key);
      var uris := [];
      ghost var selected := [];
      var i := 0;
      while i < |keys|
        invariant 0 <= i <= |keys|
        invariant selected == Selected(scheme, t.bucket, keys[..i], glob)
        invariant uris == UrisOf(scheme, t.bucket, selected)
      {
        SelectedStep(scheme, t.bucket, keys, i, glob);
        if Accepts(scheme, t.bucket, keys[i], glob) {
          UrisOfSnoc(scheme, t.bucket, selected, keys[i]);
          uris := uris + [BuildUri(scheme, t.bucket, keys[i])];
          selected := selected + [keys[i]];
        }
        i := i + 1;
      }
      assert keys[..i] == keys;
      ListingOfScan(config, store, glob);
      return Ok(uris);
    }

    /** `rm`: delete the key at each URI `ls` yields. */
    method Rm(glob: string) returns (r: Result<(), Error>)
      requires Valid()
      modifies this
      ensures Valid()
      ensures Listing(config, old(store), glob).Err? ==>
        r == Err(Listing(config, old(store), glob).error) && store == old(store)
      ensures Listing(config, old(store), glob).Ok? ==>
        && r == Ok(())
        && ScanTarget(config, old(store), glob).Ok?
        && store == Removed(config, old(store), glob)
        && Listing(config, store, glob) == Ok([])
    {
      var listing := Ls(glob);
      if listing.Err? {
        return Err(listing.error);
      }
      var uris := listing.value;
      ghost var before := store;
      PartlyRemovedEnds(config, before, glob);
      var i := 0;
      while i < |uris|
        invariant 0 <= i <= |uris| == |MatchedKeys(config, before, glob)|
        invariant uris == Listing(config, before, glob).value
        invariant store == PartlyRemoved(config, before, glob, i)
      {
        var key := GetS3Key(config, store, uris[i]);
        KeyFoundDuringRm(config, before, glob, i);
        RmStep(config, before, glob, i);
        var k := key.value.value;
        store := store[k.bucket := DeleteObject(store[k.bucket], k.name)];
        i := i + 1;
      }
      ListingAfterRmIsEmpty(config, before, glob);
      r := Ok(());
    }

    /** `touchz`: refuse a non-empty key, otherwise store an empty object. */
    method Touchz(dest: string) returns (r: Result<(), Error>)
      requires Valid()
      modifies this
      ensures Valid()
      ensures Touched(config, old(store), dest).Err? ==>
        r == Err(Touched(config, old(store), dest).error) && store == old(store)
      ensures Touched(config, old(store), dest).Ok? ==>
        && r == Ok(())
        && store == Touched(config, old(store), dest).value
        && GetS3Key(config, store, dest).Ok? && GetS3Key(config, store, dest).value.Some?
        && GetS3Key(config, store, dest).value.value.size == 0
        && Md5sum(config, store, dest) == Ok(EmptyMd5)
    {
      var key := GetS3Key(config, store, dest);
      if key.Err? {
        return Err(key.error);
      }
      if key.value.Some? && key.value.value.size != 0 {
        return Err(NonEmptyFile(dest));
      }
      var p := Locate(config, store, dest).value;
      ghost var before := store;
      store := store[p.bucket := PutObject(store[p.bucket], p.key, EmptyObject)];
      TouchzMakesEmptyFile(config, before, dest);
      r := Ok(());
    }

    /** `mkdir`: S3 has no directories, so nothing happens. */
    method Mkdir(dest: string)
      ensures store == old(store)
    {
    }

    /** `create_bucket`: send the location constraint for `region`; the store
        refuses a name it already holds. */
    method CreateBucket(name: string, region: Option<string>) returns (r: Result<(), Error>)
      requires Valid()
      modifies this
      ensures Valid()
      ensures name in old(store) ==> r == Err(BucketAlreadyOwnedByYou) && store == old(store)
      ensures name !in old(store) ==> r == Ok(()) && store == WithNewBucket(old(store), name, region).value
    {
      var constraint := CreateBucketConstraint(region);
      if name in store {
        return Err(BucketAlreadyOwnedByYou);
      }
      store := store[name := NewBucket(constraint)];
      r := Ok(());
    }
  }
}
