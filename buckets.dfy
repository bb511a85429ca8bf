/** Reaching a bucket: `get_bucket` asks for the bucket's location, turns it
    into a region (or default routing when the location may not be read),
    and opens the bucket with the client arguments for that region; an S3
    URI is located by parsing it and reaching its bucket. */
module Buckets {
  import opened Strings
  import opened Uri
  import opened Aws
  import opened ObjectStore

  /** The bucket object `get_bucket` returns: its name and the arguments of
      the resource it was opened through. */
  datatype BucketHandle = BucketHandle(name: string, kwargs: ClientKwargs)

  /** `get_bucket`, with the 403 fallback its handler intends. */
  function GetBucket(cfg: Config, store: Store, name: string): (r: Result<BucketHandle, Error>)
    ensures r.Ok? ==> name in store && r.value.name == name
    ensures name !in store ==> r == Err(NoSuchBucket)
    ensures name in store && store[name].location.Located? ==>
      r == Ok(BucketHandle(name, ClientKwargsFor(cfg, Some(BucketRegion(store[name].location.constraint)))))
    ensures name in store && store[name].location.LookupFailed? && IsAccessDenied(store[name].location.error) ==>
      r == Ok(BucketHandle(name, ClientKwargsFor(cfg, None)))
    ensures name in store && store[name].location.LookupFailed? && !IsAccessDenied(store[name].location.error) ==>
      r == Err(store[name].location.error)
  {
    match ResolveRegion(LocationOf(store, name))
    case Err(e) => Err(e)
    case Ok(region) => Ok(BucketHandle(name, ClientKwargsFor(cfg, region)))
  }

  /** The bucket and key of an S3 URI, once its bucket has been reached:
      what `get_s3_key` and `make_s3_key` do before touching the key. */
  function Locate(cfg: Config, store: Store, uri: string): (r: Result<S3Path, Error>)
    ensures ParseS3Uri(uri).None? ==> r == Err(InvalidUri(uri))
    ensures ParseS3Uri(uri).Some? ==>
      (r.Ok? <==> GetBucket(cfg, store, ParseS3Uri(uri).value.bucket).Ok?)
    ensures ParseS3Uri(uri).Some? && GetBucket(cfg, store, ParseS3Uri(uri).value.bucket).Err? ==>
      r == Err(GetBucket(cfg, store, ParseS3Uri(uri).value.bucket).error)
    ensures r.Ok? ==> ParseS3Uri(uri) == Some(r.value) && r.value.bucket in store
  {
    match ParseS3Uri(uri)
    case None => Err(InvalidUri(uri))
    case Some(p) =>
      match GetBucket(cfg, store, p.bucket)
      case Err(e) => Err(e)
      case Ok(_) => Ok(p)
  }

  /** Reaching a bucket depends on nothing but its location answer. */
  lemma GetBucketDependsOnLocation(cfg: Config, s1: Store, s2: Store, name: string)
    requires (name in s1 <==> name in s2)
    requires name in s1 ==> s1[name].location == s2[name].location
    ensures GetBucket(cfg, s1, name) == GetBucket(cfg, s2, name)
  {
  }
}
