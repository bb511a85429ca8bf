/** The object store the filesystem talks to, as values: bucket name to
    bucket, and in each bucket its keys in the order a listing returns them,
    the size and ETag stored under each key, and what a location query for
    the bucket answers. */
module ObjectStore {
  import opened Strings
  import opened Aws

  datatype S3Object = S3Object(size: nat, etag: string)

  datatype Bucket = Bucket(listing: seq<string>, objects: map<string, S3Object>, location: LocationLookup)

  type Store = map<string, Bucket>

  /** The listing names every stored key exactly once. */
  ghost predicate WellFormedBucket(b: Bucket) {
    Distinct(b.listing) && forall k :: k in b.objects <==> k in b.listing
  }

  ghost predicate WellFormedStore(store: Store) {
    forall name :: name in store ==> WellFormedBucket(store[name])
  }

  /** The error a request about a bucket that does not exist fails with. */
  const NoSuchBucket: Error := ClientError("NoSuchBucket", Some(404))

  /** The error creating a bucket that already exists fails with. */
  const BucketAlreadyOwnedByYou: Error := ClientError("BucketAlreadyOwnedByYou", Some(409))

  /** Putting back the bucket a store already holds changes nothing. */
  lemma ReplaceWithSame(store: Store, name: string)
    requires name in store
    ensures store[name := store[name]] == store
  {
  }

  /** Replacing one bucket by a well-formed one touches no other bucket. */
  lemma ReplaceBucket(store: Store, name: string, b: Bucket)
    requires WellFormedStore(store) && name in store && WellFormedBucket(b)
    ensures WellFormedStore(store[name := b]) && store[name := b].Keys == store.Keys
    ensures forall other :: other in store && other != name ==> store[name := b][other] == store[other]
  {
  }

  /** What `get_bucket_location` answers for `name`. */
  function LocationOf(store: Store, name: string): (r: LocationLookup)
    ensures name !in store ==> r == LookupFailed(NoSuchBucket)
  {
    if name in store then store[name].location else LookupFailed(NoSuchBucket)
  }

  /** The keys a prefix-filtered enumeration returns, in listing order. */
  function KeysWithPrefix(listing: seq<string>, prefix: string): (r: seq<string>)
    ensures forall k :: k in r <==> k in listing && prefix <= k
    decreases |listing|
  {
    if listing == [] then []
    else
      var init := KeysWithPrefix(listing[..|listing| - 1], prefix);
      var last := listing[|listing| - 1];
      assert listing == listing[..|listing| - 1] + [last];
      if prefix <= last then init + [last] else init
  }

  /** The listing without one key. */
  function ListingWithout(listing: seq<string>, key: string): (r: seq<string>)
    ensures forall k :: k in r <==> k in listing && k != key
    ensures Distinct(listing) ==> Distinct(r)
    decreases |listing|
  {
    if listing == [] then []
    else
      var init := ListingWithout(listing[..|listing| - 1], key);
      var last := listing[|listing| - 1];
      assert listing == listing[..|listing| - 1] + [last];
      if last == key then init
      else
        assert Distinct(listing) ==> last !in listing[..|listing| - 1];
        init + [last]
  }

  /** The bucket after deleting `key` (nothing changes if it is absent). */
  function DeleteObject(b: Bucket, key: string): (r: Bucket)
    requires WellFormedBucket(b)
    ensures WellFormedBucket(r)
    ensures r.objects == b.objects - {key} && r.location == b.location
  {
    Bucket(ListingWithout(b.listing, key), b.objects - {key}, b.location)
  }

  /** The bucket after deleting the keys of `keys`, one after the other. */
  function DeleteAll(b: Bucket, keys: seq<string>): (r: Bucket)
    requires WellFormedBucket(b)
    ensures WellFormedBucket(r) && r.location == b.location
    ensures forall k :: k in r.objects <==> k in b.objects && k !in keys
    ensures forall k :: k in r.objects ==> r.objects[k] == b.objects[k]
    decreases |keys|
  {
    if keys == [] then b
    else DeleteObject(DeleteAll(b, keys[..|keys| - 1]), keys[|keys| - 1])
  }

  /** Deleting the keys of `keys` one more step into the sequence. */
  lemma DeleteOneMore(store: Store, b: string, keys: seq<string>, i: nat)
    requires b in store && WellFormedBucket(store[b]) && i < |keys|
    ensures var done := DeleteAll(store[b], keys[..i]);
      store[b := done][b := DeleteObject(done, keys[i])] == store[b := DeleteAll(store[b], keys[..i + 1])]
  {
    assert keys[..i + 1][..|keys[..i + 1]| - 1] == keys[..i];
  }

  /** The MD5 digest of no bytes, in hexadecimal. */
  const EmptyMd5: string := "d41d8cd98f00b204e9800998ecf8427e"

  /** The ETag S3 gives an empty object: that digest, quoted. */
  const EmptyEtag: string := "\"" + EmptyMd5 + "\""

  const EmptyObject: S3Object := S3Object(0, EmptyEtag)

  /** The bucket after storing `obj` under `key`: an existing key keeps its
      place in the listing, a new one joins at its end. */
  function PutObject(b: Bucket, key: string, obj: S3Object): (r: Bucket)
    requires WellFormedBucket(b)
    ensures WellFormedBucket(r)
    ensures r.objects == b.objects[key := obj] && r.location == b.location
  {
    if key in b.objects then Bucket(b.listing, b.objects[key := obj], b.location)
    else Bucket(b.listing + [key], b.objects[key := obj], b.location)
  }

  /** Storing what a key already holds changes nothing. */
  lemma PutStoredObject(b: Bucket, key: string, obj: S3Object)
    requires WellFormedBucket(b) && key in b.objects && b.objects[key] == obj
    ensures PutObject(b, key, obj) == b
  {
    assert b.objects[key := obj] == b.objects;
  }

  /** A new bucket, empty, whose location query answers `constraint`. */
  function NewBucket(constraint: Option<string>): (b: Bucket)
    ensures WellFormedBucket(b) && b.objects == map[] && b.location == Located(constraint)
  {
    Bucket([], map[], Located(constraint))
  }
}
