/** The decisions `mrjob/fs/s3.py` makes about AWS without touching the
    network: which errors are worth retrying, the retry tuning constants, how
    a configured endpoint is normalised and overrides the region, how a
    location constraint becomes a region and back, and how `get_bucket`
    falls back when it may not read a bucket's location. */
module Aws {
  import opened Strings
  import opened Uri

  /** One argument of a `socket.error`. */
  datatype Arg = IntArg(n: int) | StrArg(s: string)

  /** The errors the filesystem raises or lets through. */
  datatype Error =
    | ClientError(code: string, status: Option<int>)  // botocore ClientError: response['Error']['Code'] ('' when absent) and ['HTTPStatusCode']
    | SocketError(args: seq<Arg>)                     // socket.error with its args tuple
    | InvalidUri(uri: string)                         // ValueError from parse_s3_uri
    | MissingKey(uri: string)                         // AttributeError from using a key that is None
    | NonEmptyFile(path: string)                      // OSError raised by touchz
    | UnboundName(name: string)                       // NameError

  const ConnectionResetArgs: seq<Arg> := [IntArg(104), StrArg("Connection reset by peer")]
  const ConnectionTimedOutArgs: seq<Arg> := [IntArg(110), StrArg("Connection timed out")]

  /** `_is_retriable_client_error`. */
  predicate IsRetriableClientError(e: Error) {
    match e
    case ClientError(code, status) =>
      Contains(code, "Throttl") || Contains(code, "RequestExpired") || Contains(code, "Timeout")
      || status == Some(505)
    case SocketError(args) => args == ConnectionResetArgs || args == ConnectionTimedOutArgs
    case _ => false
  }

  /** The retry predicate, in terms of where its marker words occur. */
  lemma RetriableIff(e: Error)
    ensures IsRetriableClientError(e) <==>
      (e.ClientError? &&
        ((exists i :: OccursAt(e.code, "Throttl", i)) || (exists i :: OccursAt(e.code, "RequestExpired", i))
         || (exists i :: OccursAt(e.code, "Timeout", i)) || e.status == Some(505)))
      || (e.SocketError? && (e.args == ConnectionResetArgs || e.args == ConnectionTimedOutArgs))
  {
    if e.ClientError? {
      ContainsIsOccurrence(e.code, "Throttl");
      ContainsIsOccurrence(e.code, "RequestExpired");
      ContainsIsOccurrence(e.code, "Timeout");
    }
  }

  /** A marker word anywhere in the error code makes a client error retriable,
      whatever its status. */
  lemma MarkerInCodeIsRetriable(before: string, marker: string, after: string, status: Option<int>)
    requires marker in {"Throttl", "RequestExpired", "Timeout"}
    ensures IsRetriableClientError(ClientError(before + marker + after, status))
  {
    var code := before + marker + after;
    assert code[|before|..|before| + |marker|] == marker;
    assert OccursAt(code, marker, |before|);
    RetriableIff(ClientError(code, status));
  }

  /** A code in which the first letter of a word never appears cannot contain it. */
  lemma {:induction false} MissingFirstLetter(code: string, word: string)
    requires word != [] && word[0] !in code
    ensures !Contains(code, word)
    decreases |code|
  {
    if code != [] {
      MissingFirstLetter(code[1..], word);
    }
  }

  /** Error codes without the letters `T` and `R` (such as `AccessDenied` and
      `NoSuchBucket`) are retried only on status 505. */
  lemma CodeWithoutMarkersRetriedOnlyOn505(code: string, status: Option<int>)
    requires 'T' !in code && 'R' !in code
    ensures IsRetriableClientError(ClientError(code, status)) <==> status == Some(505)
  {
    MissingFirstLetter(code, "Throttl");
    MissingFirstLetter(code, "RequestExpired");
    MissingFirstLetter(code, "Timeout");
  }

  /** Only the two listed socket errors are retried, and none of the
      filesystem's own errors. */
  lemma OtherErrorsNotRetriable(e: Error)
    requires e.SocketError? ==> e.args != ConnectionResetArgs && e.args != ConnectionTimedOutArgs
    requires !e.ClientError?
    ensures !IsRetriableClientError(e)
  {
  }

  /** Retry tuning: first back-off in seconds, its growth factor, and the
      total number of tries. */
  const EmrBackoff: nat := 20
  const EmrBackoffMultiplier: real := 1.5
  const EmrMaxTries: nat := 20

  /** The back-off slept before retry `i + 1`: `EmrBackoff` times
      `EmrBackoffMultiplier` to the `i`. */
  function Delay(i: nat): real {
    if i == 0 then EmrBackoff as real else Delay(i - 1) * EmrBackoffMultiplier
  }

  /** Seconds slept before the first `n` retries. */
  function TotalBackoff(n: nat): real {
    if n == 0 then 0.0 else TotalBackoff(n - 1) + Delay(n - 1)
  }

  /** Giving up after `EmrMaxTries` tries means sleeping between 24 and 25
      hours: "about a day". */
  lemma WorstCaseBackoffIsAboutADay()
    ensures 24.0 * 3600.0 < TotalBackoff(EmrMaxTries - 1) < 25.0 * 3600.0
  {
    assert TotalBackoff(1) == 20.0 / 1.0;
    assert TotalBackoff(2) == 50.0 / 1.0;
    assert TotalBackoff(3) == 95.0 / 1.0;
    assert TotalBackoff(4) == 325.0 / 2.0;
    assert TotalBackoff(5) == 1055.0 / 4.0;
    assert TotalBackoff(6) == 3325.0 / 8.0;
    assert TotalBackoff(7) == 10295.0 / 16.0;
    assert TotalBackoff(8) == 31525.0 / 32.0;
    assert TotalBackoff(9) == 95855.0 / 64.0;
    assert TotalBackoff(10) == 290125.0 / 128.0;
    assert TotalBackoff(11) == 875495.0 / 256.0;
    assert TotalBackoff(12) == 2636725.0 / 512.0;
    assert TotalBackoff(13) == 7930655.0 / 1024.0;
    assert TotalBackoff(14) == 23832925.0 / 2048.0;
    assert TotalBackoff(15) == 71580695.0 / 4096.0;
    assert TotalBackoff(16) == 214905925.0 / 8192.0;
    assert TotalBackoff(17) == 645045455.0 / 16384.0;
    assert TotalBackoff(18) == 1935791725.0 / 32768.0;
    assert TotalBackoff(19) == 5808685895.0 / 65536.0;
  }

  /** `_endpoint_url`: a host that is not yet a URI gets `https://`. */
  function EndpointUrl(hostOrUri: Option<string>): (r: Option<string>)
    ensures r == hostOrUri || (hostOrUri.Some? && r == Some("https://" + hostOrUri.value))
    ensures r == hostOrUri <==> !Truthy(hostOrUri) || IsUri(hostOrUri.value)
    ensures Truthy(hostOrUri) ==> Truthy(r) && IsUri(r.value)
  {
    if !Truthy(hostOrUri) then hostOrUri
    else if IsUri(hostOrUri.value) then hostOrUri
    else
      HttpsIsUri(hostOrUri.value);
      Some("https://" + hostOrUri.value)
  }

  /** Normalising an endpoint twice changes nothing more. */
  lemma EndpointUrlIdempotent(hostOrUri: Option<string>)
    ensures EndpointUrl(EndpointUrl(hostOrUri)) == EndpointUrl(hostOrUri)
  {
  }

  /** What the filesystem is constructed with; `endpointUrl` already normalised. */
  datatype Config = Config(
    accessKeyId: Option<string>,
    secretAccessKey: Option<string>,
    sessionToken: Option<string>,
    endpointUrl: Option<string>,
    region: Option<string>)

  /** Keyword arguments for creating a client or resource. */
  datatype ClientKwargs = ClientKwargs(
    accessKeyId: Option<string>,
    secretAccessKey: Option<string>,
    sessionToken: Option<string>,
    endpointUrl: Option<string>,
    regionName: Option<string>)

  /** `_client_kwargs`: a configured endpoint overrides the region asked for. */
  function ClientKwargsFor(cfg: Config, regionName: Option<string>): (k: ClientKwargs)
    ensures k.accessKeyId == cfg.accessKeyId && k.secretAccessKey == cfg.secretAccessKey
    ensures k.sessionToken == cfg.sessionToken
    ensures Truthy(cfg.endpointUrl) ==> k.endpointUrl == cfg.endpointUrl && k.regionName == cfg.region
    ensures !Truthy(cfg.endpointUrl) ==> k.endpointUrl == None && k.regionName == regionName
  {
    if Truthy(cfg.endpointUrl) then
      ClientKwargs(cfg.accessKeyId, cfg.secretAccessKey, cfg.sessionToken, cfg.endpointUrl, cfg.region)
    else
      ClientKwargs(cfg.accessKeyId, cfg.secretAccessKey, cfg.sessionToken, None, regionName)
  }

  /** With an endpoint configured, the region asked for makes no difference. */
  lemma EndpointIgnoresRegion(cfg: Config, r1: Option<string>, r2: Option<string>)
    requires Truthy(cfg.endpointUrl)
    ensures ClientKwargsFor(cfg, r1) == ClientKwargsFor(cfg, r2)
  {
  }

  /** The endpoint handed to a client is either absent or a URI, whatever
      endpoint the filesystem was constructed with. */
  lemma KwargsEndpointIsUri(cfg: Config, s3Endpoint: Option<string>, regionName: Option<string>)
    requires cfg.endpointUrl == EndpointUrl(s3Endpoint)
    ensures var k := ClientKwargsFor(cfg, regionName);
      k.endpointUrl == None || IsUri(k.endpointUrl.value)
  {
  }

  /** `_S3_REGION_WITH_NO_LOCATION_CONSTRAINT`. */
  const NoLocationConstraintRegion: string := "us-east-1"

  /** `_get_bucket_region`, given the `LocationConstraint` a location query answered. */
  function BucketRegion(locationConstraint: Option<string>): (region: string)
    ensures Truthy(locationConstraint) ==> region == locationConstraint.value
    ensures !Truthy(locationConstraint) ==> region == NoLocationConstraintRegion
  {
    if Truthy(locationConstraint) then locationConstraint.value else NoLocationConstraintRegion
  }

  /** The `LocationConstraint` `create_bucket` puts in the bucket configuration
      (`None`: the configuration is empty). */
  function CreateBucketConstraint(region: Option<string>): (c: Option<string>)
    ensures c.Some? <==> Truthy(region) && region.value != NoLocationConstraintRegion
    ensures c.Some? ==> c == region
  {
    if Truthy(region) && region.value != NoLocationConstraintRegion then region else None
  }

  /** A bucket created for a region reports that region back: the
      constraint `create_bucket` sets is undone by `_get_bucket_region`. */
  lemma CreatedBucketReportsRegion(region: Option<string>)
    ensures BucketRegion(CreateBucketConstraint(region))
         == if Truthy(region) then region.value else NoLocationConstraintRegion
  {
  }

  /** What asking for a bucket's location gives. */
  datatype LocationLookup = Located(constraint: Option<string>) | LookupFailed(error: Error)

  predicate IsAccessDenied(e: Error) {
    e.ClientError? && e.status == Some(403)
  }

  /** The region `get_bucket` opens the bucket in (`None`: the default
      routing), as its 403 handler intends. */
  function ResolveRegion(lookup: LocationLookup): (r: Result<Option<string>, Error>)
    ensures lookup.Located? ==> r == Ok(Some(BucketRegion(lookup.constraint)))
    ensures lookup.LookupFailed? && IsAccessDenied(lookup.error) ==> r == Ok(None)
    ensures lookup.LookupFailed? && !IsAccessDenied(lookup.error) ==> r == Err(lookup.error)
  {
    match lookup
    case Located(c) => Ok(Some(BucketRegion(c)))
    case LookupFailed(e) => if IsAccessDenied(e) then Ok(None) else Err(e)
  }

  /** `get_bucket`'s region step as written: the handler reads `ex`, which
      its `except` clause never binds, so every client error becomes a
      `NameError`. */
  function ResolveRegionAsWritten(lookup: LocationLookup): (r: Result<Option<string>, Error>)
    ensures r.Err? <==> lookup.LookupFailed?
    ensures r.Ok? ==> r.value.Some?
    ensures lookup.Located? ==> r == ResolveRegion(lookup)
  {
    match lookup
    case Located(c) => Ok(Some(BucketRegion(c)))
    case LookupFailed(e) => if e.ClientError? then Err(UnboundName("ex")) else Err(e)
  }

  /** As written, the fallback for a bucket whose location may not be read
      never happens; the intended handler falls back to default routing. */
  lemma AsWrittenDeniedLookupRaises(code: string)
    ensures ResolveRegionAsWritten(LookupFailed(ClientError(code, Some(403)))) == Err(UnboundName("ex"))
    ensures ResolveRegion(LookupFailed(ClientError(code, Some(403)))) == Ok(None)
  {
  }

  /** The two agree on every lookup except a failed one with a client error. */
  lemma AsWrittenAgreesOffClientErrors(lookup: LocationLookup)
    ensures ResolveRegionAsWritten(lookup) == ResolveRegion(lookup)
        <==> !(lookup.LookupFailed? && lookup.error.ClientError?)
  {
  }
}
