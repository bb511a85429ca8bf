# mrjob S3 filesystem, modelled in Dafny

This project models the decision logic of mrjob's `S3Filesystem` (`mrjob/fs/s3.py`), the part of mrjob's filesystem layer that handles `s3://` URIs. The model covers:

- how `ls` turns a glob into a key-prefix scan and a glob filter, including the implicit "directory" glob;
- `du`, `exists`, `rm`, `touchz`, `mkdir` and `md5sum`, all built on `ls` and `get_s3_key`;
- how `get_bucket` picks the region to open a bucket in, including the fallback when a bucket's location may not be read;
- the configuration helpers: `_endpoint_url`, `_client_kwargs`, `_get_bucket_region` and `create_bucket`'s location constraint;
- the retry classifier `_is_retriable_client_error` and the retry constants;
- `s3_key_to_uri`.

S3 itself is replaced by a store of values (`ObjectStore`), a map from bucket name to bucket. Each bucket holds three things:

- its keys in the order a listing returns them;
- the size and ETag stored under each key;
- the answer a location query for the bucket gives: a location constraint, or an error.

Modules, one per file, in dependency order:

| file | module | what it holds |
|---|---|---|
| strings.dfy | `Strings` | `Option`/`Result`, Python truthiness, substring search (`in`), ASCII `lower` |
| uri.dfy | `Uri` | stand-ins for `urlparse(...).scheme`, `is_uri` and `parse_s3_uri` |
| glob.dfy | `Glob` | an `fnmatchcase` matcher for `?` and `*`, the cut at the first wildcard that `GLOB_RE` performs, the directory glob |
| aws.dfy | `Aws` | errors, the retry classifier, the retry constants, endpoint and client arguments, regions, `get_bucket`'s region step |
| store.dfy | `ObjectStore` | the store, and listing, deleting and writing keys in it |
| buckets.dfy | `Buckets` | `get_bucket`, and locating an S3 URI's bucket and key |
| listing.dfy | `GlobListing` | what `ls` yields, and why the prefix scan loses nothing |
| keys.dfy | `Keys` | `get_s3_key`, `s3_key_to_uri`, `md5sum`'s quote stripping |
| operations.dfy | `Operations` | `du`, `exists`, and the store after `rm`, `touchz` and `create_bucket` |
| filesystem.dfy | `Filesystem` | class `S3Filesystem`: a configuration and a mutable store, with `Ls`, `Rm`, `Touchz`, `Mkdir` and `CreateBucket` |

The state-changing and looping parts of the source are methods of the class `Filesystem.S3Filesystem`:

- `ls` is a generator loop;
- `rm` deletes in a loop;
- `touchz` checks, then writes.

Each method is proved equal to a function of the configuration and the store, and those functions carry the lemmas. `du`, `exists` and `md5sum` only compute a value, so they are functions (`Operations.Du`, `Operations.Exists`, `Keys.Md5sum`) of the filesystem's configuration and store.

Stand-ins for code outside `mrjob/fs/s3.py`:

- `mrjob/parse.py`, `mrjob/aws.py`, `mrjob/runner.py` and `mrjob/retry.py` are not part of this model.
- `urlparse(...).scheme` is modelled as the text before the first `:`, when that text is a well-formed scheme (a letter, then letters, digits, `+`, `-` or `.`), lower-cased.
- `is_uri(s)` is modelled as "`s` contains `://` and has a scheme".
- `parse_s3_uri` is modelled as accepting `scheme://bucket/key` whose scheme starts with `s3`, with the bucket running up to the first `/`.
- `GLOB_RE` is modelled as "everything before the first `?` or `*`".
- `_S3_REGION_WITH_NO_LOCATION_CONSTRAINT` is taken to be `us-east-1`.

## Model

| member | source | states |
|---|---|---|
| Strings.Contains | mrjob/fs/s3.py:115 | Python's substring test `c in code`; no contract of its own, `Strings.ContainsIsOccurrence` states it |
| Strings.ContainsIsOccurrence | mrjob/fs/s3.py:115 | Python's substring test `c in code` holds exactly when `c` occurs at some index of `code` |
| Uri.BuildUri | mrjob/fs/s3.py:206 | `"%s://%s/%s" % (scheme, bucket_name, key.key)`; no contract of its own, `Uri.ParseBuildRoundTrip`, `Uri.ParsedUriIsBuilt` and `GlobListing.UriDeterminesKey` state what it builds |
| Uri.IsUri | mrjob/fs/s3.py:75 | `is_uri`: the text holds `://` and has a scheme; no contract of its own, `Uri.HttpsIsUri` and `Aws.EndpointUrl` state what it accepts |
| Uri.HttpsIsUri | mrjob/fs/s3.py:75-78 | `https://` followed by any host is a URI, so the endpoint `_endpoint_url` builds passes `is_uri` |
| Uri.ParseBuildRoundTrip | mrjob/fs/s3.py:184-213 | a URI built as `scheme://bucket/key` (scheme starting with `s3`, bucket without `/`) parses back to that bucket and key, and its scheme is read back unchanged |
| Uri.Scheme | mrjob/fs/s3.py:184 | `urlparse(path_glob).scheme`: the lower-cased raw scheme; no contract of its own, `Uri.RawScheme` states what is read and `Uri.SchemeOfExtension` that an extension keeps it |
| Uri.ParseS3Uri | mrjob/fs/s3.py:196 | a successful parse has a scheme starting with `s3` (in any case) and a bucket without `/` |
| Uri.ParsedUriIsBuilt | mrjob/fs/s3.py:196 | a URI that parses is exactly `scheme://bucket/key` of its scheme and the parsed bucket and key |
| Uri.SplitBucketKey | mrjob/fs/s3.py:196 | the text after `scheme://` splits exactly when it holds a `/`; the bucket has none, and bucket, `/` and key give the text back |
| Uri.RawScheme | mrjob/fs/s3.py:184 | the scheme read off a URI is a prefix of it that is well formed and is followed by `:`, or empty when there is none |
| Uri.SchemeOfExtension | mrjob/fs/s3.py:184-196 | a text extending a text that has a scheme has the same scheme, so the scheme `ls` rebuilds URIs with is the scanned prefix's scheme |
| Glob.Matches | mrjob/fs/s3.py:208-210 | `fnmatch.fnmatchcase` for `?` and `*`, whole-name and case-sensitive; no contract of its own, its behaviour is stated by `Glob.MatchesWithoutStar`, `Glob.StarSplits`, `Glob.StarFreeHead`, `Glob.MatchesLiteral`, `Glob.StarMatchesAll`, `Glob.MatchesLiteralThenStar` and `Glob.MatchExtendsCut` |
| Glob.MatchesWithoutStar | mrjob/fs/s3.py:170-173 | a pattern without `*` matches exactly the names of its length that agree with it at every position not holding `?`, so each `?` matches exactly one character, `/` included |
| Glob.StarSplits | mrjob/fs/s3.py:170-173 | `*` followed by the rest of a pattern matches a name exactly when the rest matches some suffix of the name, so `*` takes any run of characters, empty or not, `/` included, when it heads the pattern; with `Glob.StarFreeHead` this covers a `*` anywhere in a pattern (`s3://b/*.gz`, `a*b`) |
| Glob.StarFreeHead | mrjob/fs/s3.py:170-173 | a pattern whose head holds no `*` matches a name exactly when the head matches the name's first `|head|` characters and the rest of the pattern matches the remainder; splitting any pattern at its first `*`, this lemma with `Glob.MatchesWithoutStar` and `Glob.StarSplits` fixes the match of every `?`/`*` glob, such as `s3://b/*.gz` |
| Glob.MatchesLiteral | mrjob/fs/s3.py:171-173 | a pattern without `?` or `*` matches exactly the name equal to it |
| Glob.StarMatchesAll | mrjob/fs/s3.py:171-173 | `*` matches every name, `/` included |
| Glob.MatchesLiteralThenStar | mrjob/fs/s3.py:171-173 | a wildcard-free literal followed by `*` matches exactly the names that start with the literal |
| Glob.CutAtWildcard | mrjob/fs/s3.py:184-193 | the cut is a wildcard-free prefix of the glob that stops at the first wildcard, or is the whole glob when there is none |
| Glob.MatchExtendsCut | mrjob/fs/s3.py:184-193 | every name a glob matches starts with the glob's cut |
| Glob.CutOfExtension | mrjob/fs/s3.py:184-202 | extending a glob never shortens its cut, so the directory glob's cut extends the glob's |
| Glob.AcceptedNameExtendsCut | mrjob/fs/s3.py:184-210 | every name matched by the glob or its directory glob starts with the glob's cut |
| Glob.DirGlob | mrjob/fs/s3.py:198-202 | the directory glob: `glob + '/*'` for a non-empty glob not ending in `/`, otherwise `glob + '*'`; no contract of its own, its meaning for a literal path is `Glob.DirGlobOfLiteral` |
| Glob.DirGlobOfLiteral | mrjob/fs/s3.py:197-202 | for a wildcard-free path, the directory glob matches exactly the names under `path/` (under `path` when it is empty or ends in `/`) |
| Aws.IsRetriableClientError | mrjob/fs/s3.py:111-123 | the retry predicate itself, branch for branch: client errors by code and status, socket errors by their args, everything else not retried; it carries no contract of its own, and `Aws.RetriableIff` characterises it |
| Aws.RetriableIff | mrjob/fs/s3.py:111-123 | a client error is retriable iff its code contains `Throttl`, `RequestExpired` or `Timeout`, or its status is 505; a socket error iff its args are exactly (104, 'Connection reset by peer') or (110, 'Connection timed out'); nothing else is |
| Aws.MarkerInCodeIsRetriable | mrjob/fs/s3.py:114-116 | any code with one of the three marker words in it is retriable, whatever its status |
| Aws.MissingFirstLetter | mrjob/fs/s3.py:115 | a code lacking a word's first letter does not contain the word |
| Aws.CodeWithoutMarkersRetriedOnlyOn505 | mrjob/fs/s3.py:114-118 | codes such as `AccessDenied` or `NoSuchBucket` are retried exactly when the status is 505 |
| Aws.OtherErrorsNotRetriable | mrjob/fs/s3.py:119-123 | other socket errors, and errors that are neither client nor socket errors, are never retried |
| Aws.WorstCaseBackoffIsAboutADay | mrjob/fs/s3.py:58-60 | the back-off slept over 20 tries, starting at 20 s and growing 1.5-fold, is between 24 and 25 hours ("about a day") |
| Aws.EndpointUrl | mrjob/fs/s3.py:68-78 | the result is the input or `https://` + input; it is the input exactly when the input is empty, `None` or already a URI; a non-empty input always yields a URI |
| Aws.EndpointUrlIdempotent | mrjob/fs/s3.py:68-78 | normalising an endpoint twice changes nothing more |
| Aws.ClientKwargsFor | mrjob/fs/s3.py:310-325 | credentials pass through; a configured endpoint gives that endpoint and the configured `s3_region`; otherwise the endpoint is `None` and the region is the one asked for |
| Aws.EndpointIgnoresRegion | mrjob/fs/s3.py:313-317 | with an endpoint configured, the region asked for makes no difference |
| Aws.KwargsEndpointIsUri | mrjob/fs/s3.py:310-325 | the endpoint handed to a client is `None` or a URI, whatever endpoint the filesystem was constructed with |
| Aws.BucketRegion | mrjob/fs/s3.py:81-85 | a non-empty location constraint is the region; an empty or `None` one means the no-constraint region |
| Aws.CreateBucketConstraint | mrjob/fs/s3.py:390-393 | a constraint is set exactly when the region is non-empty and not the no-constraint region, and it is that region |
| Aws.CreatedBucketReportsRegion | mrjob/fs/s3.py:386-396 | the constraint `create_bucket` sets is read back by `_get_bucket_region` as the region asked for (the no-constraint region when none) |
| Aws.ResolveRegion | mrjob/fs/s3.py:331-342 | a located bucket gives its region; a lookup failing with status 403 falls back to region `None`; every other failure propagates |
| Aws.ResolveRegionAsWritten | mrjob/fs/s3.py:331-342 | as written, the region step fails exactly when the location lookup fails (never falling back to `None`), and for a located bucket gives the same region as the intended handler |
| Aws.AsWrittenDeniedLookupRaises | mrjob/fs/s3.py:333-337 | as written, a 403 lookup failure raises `NameError` for `ex`, while the intended handler falls back to `None` |
| Aws.AsWrittenAgreesOffClientErrors | mrjob/fs/s3.py:333-342 | the handler as written and as intended differ exactly on client errors |
| ObjectStore.KeysWithPrefix | mrjob/fs/s3.py:205 | the prefix-filtered enumeration yields exactly the listed keys that start with the prefix |
| ObjectStore.DeleteAll | mrjob/fs/s3.py:245-251 | deleting a sequence of keys leaves exactly the other keys, with their objects unchanged, and the bucket well formed |
| ObjectStore.DeleteObject | mrjob/fs/s3.py:251 | deleting a key removes exactly that key, keeps the bucket well formed and leaves its location alone |
| ObjectStore.PutObject | mrjob/fs/s3.py:260 | storing under a key sets that key's object and changes no other key |
| ObjectStore.NewBucket | mrjob/fs/s3.py:386-396 | a new bucket holds no keys and reports the location constraint it was created with |
| Buckets.GetBucket | mrjob/fs/s3.py:327-345 | a missing bucket fails with `NoSuchBucket`; a located bucket is opened with the client arguments for its region; a 403 location failure opens it with the default arguments; every other failure propagates |
| Buckets.Locate | mrjob/fs/s3.py:347-374 | a URI that does not parse is refused; otherwise the result is the parsed bucket and key exactly when the bucket can be reached, and when it cannot, `get_bucket`'s error is raised unchanged |
| Buckets.GetBucketDependsOnLocation | mrjob/fs/s3.py:327-345 | reaching a bucket depends on nothing but whether it exists and what its location lookup answers |
| GlobListing.Accepts | mrjob/fs/s3.py:206-210 | `ls`'s filter: the key's URI under the glob's scheme and bucket matches the glob or the directory glob; no contract of its own, `GlobListing.AcceptsLiteral` states it for a literal glob |
| GlobListing.ScanTarget | mrjob/fs/s3.py:186-204 | the bucket and key prefix `ls` scans: `parse_s3_uri` of the glob cut at its first wildcard, refused unless `get_bucket` reaches the bucket; no contract of its own, `GlobListing.LiteralGlobScan` and `Operations.RemovedKeepsScanTarget` state its properties |
| GlobListing.Listing | mrjob/fs/s3.py:168-213 | what `ls` yields, or the error it raises; no contract of its own, `GlobListing.ListingIsFilteredListing`, `GlobListing.ListingIsComplete` and `GlobListing.ListedUrisAreMatches` state it |
| GlobListing.Selected | mrjob/fs/s3.py:204-213 | the filter keeps exactly the keys whose URI matches the glob or the directory glob, and keeps them distinct |
| GlobListing.UriInUrisOf | mrjob/fs/s3.py:206 | a key's URI is among the URIs built from some keys exactly when the key is among them |
| GlobListing.UriDeterminesKey | mrjob/fs/s3.py:206 | within one scheme and bucket, two keys give the same URI exactly when they are the same key |
| GlobListing.ScanSchemeParses | mrjob/fs/s3.py:184-196 | the scheme `ls` rebuilds URIs with starts with `s3` and is the scanned prefix's scheme |
| GlobListing.ListedUriParses | mrjob/fs/s3.py:196-206 | every URI `ls` builds parses back to the scanned bucket and its key |
| GlobListing.AcceptedKeyHasScanPrefix | mrjob/fs/s3.py:188-210 | every key whose URI passes the glob filter starts with the key part of the cut prefix |
| GlobListing.ScanLosesNothing | mrjob/fs/s3.py:204-210 | filtering the prefix-scanned keys gives exactly what filtering every key of the bucket gives |
| GlobListing.ListingIsFilteredListing | mrjob/fs/s3.py:168-213 | `ls` yields, in store order and without repeats, the keys of the scanned bucket that pass the filter and no others; all start with the scan prefix |
| GlobListing.ListedUrisAreMatches | mrjob/fs/s3.py:204-213 | each yielded URI is `scheme://bucket/key` with the glob's scheme and bucket, for a stored key starting with the scan prefix, and matches the glob or the directory glob |
| GlobListing.ListingIsComplete | mrjob/fs/s3.py:204-213 | the URI of every stored key of the scanned bucket that passes the filter is yielded |
| GlobListing.LiteralGlobScan | mrjob/fs/s3.py:184-196 | a wildcard-free S3 URI is scanned as its own bucket and key, under its own scheme |
| GlobListing.AcceptsLiteral | mrjob/fs/s3.py:198-212 | for a wildcard-free glob the filter accepts the path itself and the keys under its directory prefix, and nothing else |
| GlobListing.DirectoryListing | mrjob/fs/s3.py:168-213 | `ls('s3://b/dir')` yields a stored key iff it is `dir` or starts with `dir/` (so never `dirx`); `ls('s3://b/dir/')` yields exactly the keys starting with `dir/`; this is the directory glob (`glob + '/*'`, or `glob + '*'` after a trailing `/`) of mrjob/fs/s3.py:199-202 as the docstring at mrjob/fs/s3.py:175-179 describes it |
| Keys.S3KeyToUri | mrjob/fs/s3.py:63-65 | `'s3://%s/%s' % (bucket, name)`; no contract of its own, `Keys.S3KeyToUriParsesBack` states its round trip |
| Keys.S3KeyToUriParsesBack | mrjob/fs/s3.py:63-65 | the `s3://` URI of a key parses back to its bucket and name |
| Keys.GetS3Key | mrjob/fs/s3.py:347-364 | a malformed URI is refused; the lookup succeeds exactly when the bucket is reached, and otherwise raises the locating error unchanged; a successful lookup gives the stored key with its size and ETag, or `None` when the key is absent |
| Keys.GetS3KeyAtOwnUri | mrjob/fs/s3.py:63-65 | a key found at any URI is found again at its own `s3://` URI |
| Keys.StripLeading | mrjob/fs/s3.py:217 | the result is a suffix of the input, all that was cut off is quotes, and it does not start with a quote |
| Keys.StripTrailing | mrjob/fs/s3.py:217 | the result is a prefix of the input, all that was cut off is quotes, and it does not end with a quote |
| Keys.StripQuotes | mrjob/fs/s3.py:217 | `etag.strip('"')` is the middle of the text with only quotes cut off at either end, and neither starts nor ends with a quote |
| Keys.StripQuotesOfQuoted | mrjob/fs/s3.py:217 | a quote-free text, quoted once, strips back to itself |
| Keys.StripQuotesIdempotent | mrjob/fs/s3.py:217 | stripping twice is stripping once |
| Keys.Md5sum | mrjob/fs/s3.py:215-217 | `md5sum` raises what `get_s3_key` raises, fails on a missing key, and for a found key returns its ETag with the quotes stripped |
| Keys.Md5sumOfStoredObject | mrjob/fs/s3.py:215-217 | for a key stored at a reachable path, `md5sum` is the stored object's ETag stripped of quotes, and it neither starts nor ends with a quote |
| Keys.Md5sumOfEmptyObject | mrjob/fs/s3.py:215-217 | an object with the ETag of no bytes reports `d41d8cd98f00b204e9800998ecf8427e` |
| Operations.SizeAt | mrjob/fs/s3.py:166 | `get_s3_key(uri).size` raises what `get_s3_key` raises, fails on a missing key, and for a found key succeeds with exactly that key's size |
| Operations.TotalSize | mrjob/fs/s3.py:166 | the sum of the sizes of the objects under some keys is 0 for no keys and no smaller than any one of them |
| Operations.SumResults | mrjob/fs/s3.py:166 | the sum fails exactly when one of its terms does |
| Operations.SumOfFoundSizes | mrjob/fs/s3.py:166 | sizes that are all found add up to the total size of their keys |
| Operations.KeyAtListedUri | mrjob/fs/s3.py:204-206 | `get_s3_key` at a URI built by `ls` finds that key's stored object |
| Operations.DuIsTotalSizeOfMatches | mrjob/fs/s3.py:164-166 | `du(g)` is the total size of the keys `ls(g)` yields, and 0 when it yields none |
| Operations.Du | mrjob/fs/s3.py:164-166 | `du` raises what `ls` raises |
| Operations.Exists | mrjob/fs/s3.py:232-243 | `exists` raises what `ls` raises, and whenever `ls` succeeds it succeeds too, holding exactly when `ls` yields at least one URI |
| Operations.AnyTruthy | mrjob/fs/s3.py:243 | Python's `any` over strings: some string is non-empty; no contract of its own, `Operations.Exists` relates it to the listing |
| Operations.ExistsIffSomeKeyAccepted | mrjob/fs/s3.py:232-243 | `exists(g)` holds exactly when some stored key of the scanned bucket passes `ls`'s filter |
| Operations.Removed | mrjob/fs/s3.py:245-251 | after `rm(g)`, every other bucket and the bucket's location are unchanged, the remaining keys are exactly those the filter rejects, and their objects are unchanged |
| Operations.RemovedKeepsScanTarget | mrjob/fs/s3.py:245-251 | deleting keys does not change where `ls(g)` scans |
| Operations.ListingAfterRmIsEmpty | mrjob/fs/s3.py:245-251 | after `rm(g)`, `ls(g)` yields nothing |
| Operations.RmIsIdempotent | mrjob/fs/s3.py:245-251 | a second `rm(g)` deletes nothing more |
| Operations.RemovedWhenNothingMatches | mrjob/fs/s3.py:245-251 | `rm(g)` changes nothing when `ls(g)` yields nothing |
| Operations.PartlyRemovedEnds | mrjob/fs/s3.py:245-251 | `rm`'s deletion loop starts at the original store and ends at the store after `rm` |
| Operations.KeyFoundDuringRm | mrjob/fs/s3.py:247-251 | during `rm`'s loop, `get_s3_key` of each yielded URI still finds its key, unchanged, so `if key:` always deletes (for keys without `?` or `#`; see "## Left out") |
| Operations.RmStep | mrjob/fs/s3.py:247-251 | deleting the next yielded key moves the loop one key further |
| Operations.Touched | mrjob/fs/s3.py:253-260 | `touchz` raises what `get_s3_key` raises; it refuses a non-empty key; for an absent or empty key it succeeds, and `dest` then holds an empty object and every other key and bucket is unchanged |
| Operations.TouchzSucceedsIff | mrjob/fs/s3.py:253-260 | `touchz` goes ahead exactly when `dest` is reachable and holds no key or an empty one |
| Operations.TouchzMakesEmptyFile | mrjob/fs/s3.py:253-260 | after `touchz(p)`, `get_s3_key(p)` finds a size-0 key whose `md5sum` is the digest of no bytes |
| Operations.TouchzIsIdempotent | mrjob/fs/s3.py:253-260 | a second `touchz` changes nothing more |
| Operations.TouchedIsPut | mrjob/fs/s3.py:253-260 | when `touchz` goes ahead, the new store is the old one with an empty object put at `dest` |
| Operations.WithNewBucket | mrjob/fs/s3.py:386-396 | creating a bucket succeeds exactly when the name is free; it then adds one empty bucket carrying `create_bucket`'s location constraint and changes no other; a name already taken is refused with `BucketAlreadyOwnedByYou` |
| Operations.CreatedBucketIsReachable | mrjob/fs/s3.py:386-396 | a bucket created for a region is then opened with the client arguments for that region (the no-constraint region when none is given) |
| Filesystem.S3Filesystem.constructor | mrjob/fs/s3.py:143-159 | the endpoint is normalised by `_endpoint_url` once at construction; the rest of the configuration is kept as given |
| Filesystem.S3Filesystem.Ls | mrjob/fs/s3.py:168-213 | the generator loop yields exactly the listing specification `GlobListing.Listing` |
| Filesystem.S3Filesystem.Rm | mrjob/fs/s3.py:245-251 | a failing listing raises and changes nothing; otherwise the store becomes `Operations.Removed`, after which `ls` yields nothing |
| Filesystem.S3Filesystem.Touchz | mrjob/fs/s3.py:253-260 | a refusal or failure changes nothing; otherwise the store becomes `Operations.Touched`, where `dest` is a size-0 key with the empty digest |
| Filesystem.S3Filesystem.Mkdir | mrjob/fs/s3.py:226-230 | nothing changes |
| Filesystem.S3Filesystem.CreateBucket | mrjob/fs/s3.py:386-396 | a name already taken is refused with the store unchanged; otherwise the store gains the new empty bucket with `create_bucket`'s constraint |

## Left out

- Creating boto3 clients and resources (`make_s3_client`, `make_s3_resource`), the `ImportError` guards, and `RetryWrapper` around clients are not modelled. These are calls into an SDK. A bucket is reached through the store, and the client arguments are kept as a value.
- The retry loop itself is not modelled, because it sleeps and lives in `mrjob/retry.py`. Only its constants and the classifier are modelled, plus the total back-off they imply.
- The deprecated boto 2 path (`wrap_aws_conn`, `make_s3_conn`) is left out. It is a legacy duplicate of the classifier over boto 2 exception types.
- `_cat_file` and `read_file` are left out, because they stream bytes.
- `get_all_bucket_names` is left out, because it enumerates buckets over the network.
- Logging and `can_handle_path` are left out.
- fnmatch's `[...]` character classes are not modelled; only `?` and `*` are documented for `ls`. The cut prefix also stops only at `?` and `*`, while `GLOB_RE` in `mrjob/runner.py` may also stop at `[`.
- `urlparse`'s query and fragment splitting (`mrjob.parse.urlparse`) is not modelled: a `?` or `#` in a URI is treated as part of the key everywhere. The source differs for stored keys holding `?` or `#`, because `du`, `rm`, `md5sum` and `touchz` re-parse the URI with `get_s3_key` and so look up a key cut off at the `?` or `#`. With keys `a` and `a?x` in a bucket, `rm('s3://b/a?x')` in the source deletes `a`, which `ls` never yielded, and leaves `a?x`; with `a` absent, `du('s3://b/*')` fails on `a?x`. None of the model's results about `du`, `rm`, `md5sum` and `touchz` covers such keys in the source's sense.
- `parse_s3_uri` stand-in: a URI without `//` after the scheme, or without a `/` after the bucket, is treated as malformed.
- Region-to-endpoint mapping (`s3_endpoint_for_region`) is not modelled; it is not used by the core.
- `exists`: the `except S3ResponseError` around `ls(path_glob)` is not modelled. `ls` is a generator, so its errors surface inside `any(paths)`, after the `try` has ended. `Operations.Exists` therefore passes errors on.
- `Keys.GetS3Key`: the `except boto.exception.S3ResponseError` with status 404 is not modelled. `get_bucket` raises botocore's `ClientError`, which that clause does not catch, so the model lets every failure to reach the bucket through. When boto 2 is not installed, evaluating the clause raises `AttributeError` instead; that is not modelled.
- `get_key`/`new_key` and `set_contents_from_string('')` are boto 2 calls on a boto3 bucket. They are modelled as a map lookup and as storing an empty object with the S3 ETag of no bytes.
- `ObjectStore.PutObject` adds a new key at the end of the listing. The ordering S3 actually uses (lexicographic) is not modelled: `ls` is proved to follow whatever order the store lists keys in.
- `Operations.WithNewBucket`: the store refuses an existing bucket name with `BucketAlreadyOwnedByYou`. S3's exact behaviour for re-creating a bucket one already owns depends on the region and is not modelled.
- `Filesystem.S3Filesystem.Rm`: `ls` is lazy and the source deletes keys while it still walks the listing. The model takes the listing first, then deletes. The two agree when every yielded key holds no `?` or `#`, because then only keys already yielded are deleted.
- `Filesystem.S3Filesystem.Rm`: `if key:` is not a branch in the model. `Operations.KeyFoundDuringRm` proves that, in the model, it always holds for a yielded URI; in the source this depends on the key holding no `?` or `#` (see the `urlparse` line above), and a key cut off there may be another key or none.
- `ClientError`'s status is read where the source reads it (`response['Error']['HTTPStatusCode']`). Where botocore actually puts the status is not modelled.
- Integers are unbounded and sizes are natural numbers, as in Python.
- `Aws.BucketRegion`: a location response with no `LocationConstraint` entry at all raises `KeyError` in the source; the model's `None` stands for a `None` value, and a missing entry is not modelled.

## Findings

| source | as written | input that shows it | evidently intended | confidence | as-written member | corrected member |
|---|---|---|---|---|---|---|
| mrjob/fs/s3.py:333-342 | `except botocore.exceptions.ClientError:` binds no name, yet the handler reads `ex.response`, so any client error from the location lookup raises `NameError` | a bucket whose `get_bucket_location` fails with a 403 `ClientError` (access to the bucket but not to its location) | on 403 fall back to region `None`; re-raise every other client error | high (not executed) | Aws.ResolveRegionAsWritten (shown by Aws.AsWrittenDeniedLookupRaises) | Aws.ResolveRegion |
