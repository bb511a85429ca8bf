/** The URI helpers the filesystem consumes from `mrjob.parse`: the scheme
    that `urlparse` reports, `is_uri`, and `parse_s3_uri`, written out only as
    far as `scheme://bucket/key` URIs need them. */
module Uri {
  import opened Strings

  predicate IsAsciiLetter(c: char) {
    'a' <= c <= 'z' || 'A' <= c <= 'Z'
  }

  predicate IsSchemeChar(c: char) {
    IsAsciiLetter(c) || '0' <= c <= '9' || c == '+' || c == '-' || c == '.'
  }

  /** A scheme `urlparse` accepts: a letter, then letters, digits, `+`, `-`, `.`. */
  predicate WellFormedScheme(s: string) {
    |s| > 0 && IsAsciiLetter(s[0]) && forall i :: 0 <= i < |s| ==> IsSchemeChar(s[i])
  }

  /** The index of the first `c` in `s`, or `|s|` when there is none. */
  function IndexOf(s: string, c: char): (i: nat)
    ensures i <= |s|
    ensures i < |s| ==> s[i] == c
    ensures forall j :: 0 <= j < i ==> s[j] != c
  {
    if s == [] then 0
    else if s[0] == c then 0
    else 1 + IndexOf(s[1..], c)
  }

  /** The text before the first `:` when it is a well-formed scheme, else "". */
  function RawScheme(uri: string): (r: string)
    ensures r <= uri
    ensures r != [] ==> WellFormedScheme(r) && |r| < |uri| && uri[|r|] == ':'
  {
    var i := IndexOf(uri, ':');
    if i < |uri| && WellFormedScheme(uri[..i]) then uri[..i] else ""
  }

  /** `urlparse(uri).scheme`: the raw scheme, lower-cased. */
  function Scheme(uri: string): string {
    LowerStr(RawScheme(uri))
  }

  /** `is_uri`: the text contains `://` and `urlparse` finds a scheme in it. */
  predicate IsUri(uri: string) {
    Contains(uri, "://") && Scheme(uri) != ""
  }

  datatype S3Path = S3Path(bucket: string, key: string)

  function BuildUri(scheme: string, bucket: string, key: string): string {
    scheme + "://" + bucket + "/" + key
  }

  /** The bucket and key of the text after `scheme://`: the bucket runs up
      to the first `/`, the key is all that follows it. */
  function SplitBucketKey(after: string): (r: Option<S3Path>)
    ensures r.Some? <==> '/' in after
    ensures r.Some? ==> '/' !in r.value.bucket && after == r.value.bucket + "/" + r.value.key
  {
    var j := IndexOf(after, '/');
    if j == |after| then None
    else
      assert after == after[..j] + "/" + after[j + 1..];
      Some(S3Path(after[..j], after[j + 1..]))
  }

  /** `parse_s3_uri`: split `scheme://bucket/key` whose scheme starts with
      `s3`; `None` where `parse_s3_uri` raises `ValueError`. */
  function ParseS3Uri(uri: string): (r: Option<S3Path>)
    ensures r.Some? ==> "s3" <= Scheme(uri) && '/' !in r.value.bucket
  {
    ParseWithScheme(uri, RawScheme(uri))
  }

  /** The rest of `ParseS3Uri` once the scheme `raw` has been read off. */
  function ParseWithScheme(uri: string, raw: string): (r: Option<S3Path>)
    ensures r.Some? ==> "s3" <= LowerStr(raw) && '/' !in r.value.bucket
  {
    if !("s3" <= LowerStr(raw)) || |uri| < |raw| + 3 || uri[|raw|..|raw| + 3] != "://" then None
    else SplitBucketKey(uri[|raw| + 3..])
  }

  /** A URI `ParseS3Uri` accepts is exactly `scheme://bucket/key` of its
      pieces. */
  lemma ParsedUriIsBuilt(uri: string)
    requires ParseS3Uri(uri).Some?
    ensures uri == BuildUri(RawScheme(uri), ParseS3Uri(uri).value.bucket, ParseS3Uri(uri).value.key)
  {
    var raw := RawScheme(uri);
    var p := ParseWithScheme(uri, raw).value;
    WithSchemeIsBuilt(uri, raw, p.bucket, p.key);
  }

  lemma WithSchemeIsBuilt(uri: string, raw: string, bucket: string, key: string)
    requires raw <= uri && ParseWithScheme(uri, raw) == Some(S3Path(bucket, key))
    ensures uri == BuildUri(raw, bucket, key)
  {
    WithSchemePieces(uri, raw);
    Split3(uri, |raw|, |raw| + 3);
    assert uri[..|raw|] == raw;
    JoinAssociates(raw, bucket, key);
  }

  lemma WithSchemePieces(uri: string, raw: string)
    requires ParseWithScheme(uri, raw).Some?
    ensures |raw| + 3 <= |uri| && uri[|raw|..|raw| + 3] == "://"
    ensures SplitBucketKey(uri[|raw| + 3..]) == ParseWithScheme(uri, raw)
  {
  }

  /** `BuildUri` is `scheme://` followed by `bucket/key`. */
  lemma JoinAssociates(scheme: string, bucket: string, key: string)
    ensures BuildUri(scheme, bucket, key) == scheme + "://" + (bucket + "/" + key)
  {
  }

  /** The first occurrence of a character is where `IndexOf` stops. */
  lemma IndexOfFirst(s: string, c: char, i: nat)
    requires i < |s| && s[i] == c
    requires forall j :: 0 <= j < i ==> s[j] != c
    ensures IndexOf(s, c) == i
  {
  }

  lemma WellFormedSchemeHasNoColon(s: string)
    requires WellFormedScheme(s)
    ensures forall j :: 0 <= j < |s| ==> s[j] != ':'
  {
  }

  /** A well-formed scheme followed by `:` is what `urlparse` reads back. */
  lemma {:induction false} RawSchemeOfBuilt(scheme: string, rest: string)
    requires WellFormedScheme(scheme)
    ensures RawScheme(scheme + ":" + rest) == scheme
  {
    var s := scheme + ":" + rest;
    WellFormedSchemeHasNoColon(scheme);
    IndexOfFirst(s, ':', |scheme|);
    assert s[..|scheme|] == scheme;
  }

  /** Lower-casing keeps a scheme well formed. */
  lemma LowerKeepsSchemeWellFormed(s: string)
    requires WellFormedScheme(s)
    ensures WellFormedScheme(LowerStr(s))
  {
  }

  /** What `ParseS3Uri` does once the scheme and `://` have been read. */
  lemma ParseAfterScheme(uri: string, raw: string, after: string)
    requires "s3" <= LowerStr(raw) && uri == raw + "://" + after
    ensures ParseWithScheme(uri, raw) == SplitBucketKey(after)
  {
    assert uri[|raw|..|raw| + 3] == "://";
    assert uri[|raw| + 3..] == after;
  }

  /** `bucket/key` splits back into the bucket and the key. */
  lemma SplitOfJoined(bucket: string, key: string)
    requires '/' !in bucket
    ensures SplitBucketKey(bucket + "/" + key) == Some(S3Path(bucket, key))
  {
    var after := bucket + "/" + key;
    IndexOfFirst(after, '/', |bucket|);
    assert after[..|bucket|] == bucket;
    assert after[|bucket| + 1..] == key;
  }

  /** Building a URI and parsing it gives back its bucket and key. */
  lemma ParseBuildRoundTrip(scheme: string, bucket: string, key: string)
    requires WellFormedScheme(scheme) && "s3" <= LowerStr(scheme)
    requires '/' !in bucket
    ensures RawScheme(BuildUri(scheme, bucket, key)) == scheme
    ensures ParseS3Uri(BuildUri(scheme, bucket, key)) == Some(S3Path(bucket, key))
  {
    var uri := BuildUri(scheme, bucket, key);
    var after := bucket + "/" + key;
    assert uri == scheme + ":" + ("//" + after);
    RawSchemeOfBuilt(scheme, "//" + after);
    assert uri == scheme + "://" + after;
    ParseAfterScheme(uri, scheme, after);
    SplitOfJoined(bucket, key);
  }

  /** Of two URIs built on one bucket with schemes of one length, one a
      prefix of the other, the keys are too. */
  lemma BuiltPrefix(s1: string, s2: string, bucket: string, k1: string, k2: string)
    requires |s1| == |s2| && BuildUri(s1, bucket, k1) <= BuildUri(s2, bucket, k2)
    ensures k1 <= k2
  {
    PrefixAfterEqualHeads(s1 + "://" + bucket + "/", k1, s2 + "://" + bucket + "/", k2);
  }

  /** A text that extends a text with a scheme has the same scheme. */
  lemma {:induction false} SchemeOfExtension(base: string, uri: string)
    requires RawScheme(base) != [] && base <= uri
    ensures RawScheme(uri) == RawScheme(base)
  {
    var raw := RawScheme(base);
    PrefixAgrees(raw, base, uri);
    Split3(uri, |raw|, |raw| + 1);
    assert uri[|raw|..|raw| + 1] == ":";
    RawSchemeOfBuilt(raw, uri[|raw| + 1..]);
  }

  /** A prefix of `base` followed by `:` is one of every extension of `base`. */
  lemma PrefixAgrees(raw: string, base: string, uri: string)
    requires raw <= base && |raw| < |base| && base[|raw|] == ':' && base <= uri
    ensures uri[..|raw|] == raw && |raw| < |uri| && uri[|raw|] == ':'
  {
    assert uri[..|base|] == base;
    assert uri[..|raw|] == base[..|raw|];
  }

  /** `https://` followed by anything is a URI. */
  lemma {:induction false} HttpsIsUri(host: string)
    ensures IsUri("https://" + host)
  {
    var s := "https://" + host;
    assert OccursAt(s, "://", 5);
    ContainsIsOccurrence(s, "://");
    assert WellFormedScheme("https");
    assert s == "https" + ":" + ("//" + host);
    RawSchemeOfBuilt("https", "//" + host);
  }
}
