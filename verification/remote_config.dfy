/** The remote-configuration loader: a tiered fallback policy over a small
    file-backed cache. A request names a remote JSON file, the cache file
    it is stored under and a bundled fallback. Loading serves a valid
    cache, otherwise fetches the remote file, otherwise serves the stale
    cache file, otherwise the bundled file, otherwise nothing.

    The cache directory is a map from cache file name to an entry holding
    the payload file `<name>` and the metadata file `<name>.metadata`.
    The clock is the `now` argument (whole seconds), the network answer is
    a `Response` argument, whether each file write succeeds is a `Writes`
    argument, JSON decoding is the `decode` argument and the bundled
    file's decoded content is the `bundled` argument. */
module RemoteConfig {
  import opened Wrappers

  newtype byte = x | 0 <= x < 256

  /** Raw bytes of a response body or cache file. */
  type Payload = seq<byte>

  const HttpsScheme: string := "https://"
  const BaseURL: string := HttpsScheme + "raw.githubusercontent.com/jasonhuge/firstBeatConfig/main/"
  const JsonPath: string := "json/"

  /** How long, in seconds, a freshly cached payload counts as valid. */
  const CacheExpirationInterval: int := 3600

  /** Suffix of the metadata file stored next to each cache file. */
  const MetadataSuffix: string := ".metadata"

  /** Static description of one remotely configurable resource. */
  datatype Request = Request(baseURL: string, endpoint: string, cacheFilename: string, bundleFilename: string)

  const FormatsRequest: Request := Request(BaseURL, JsonPath + "formats.json", "formats.json", "formats")
  const OpeningsRequest: Request := Request(BaseURL, JsonPath + "openings.json", "openings.json", "openings")
  const WarmUpsRequest: Request := Request(BaseURL, JsonPath + "warmups.json", "warmups.json", "warmups")

  /** The requests the application issues. */
  const KnownRequests: seq<Request> := [FormatsRequest, OpeningsRequest, WarmUpsRequest]

  /** The full remote address, `baseURL` followed by `endpoint`. */
  function Url(r: Request): string {
    r.baseURL + r.endpoint
  }

  /** The name of the metadata file for cache file `filename`. */
  function MetadataFilename(filename: string): string {
    filename + MetadataSuffix
  }

  /** Contents of a metadata file. */
  datatype Metadata = Metadata(filename: string, cachedAt: int, expiresAt: int)

  /** `CacheMetadata.isExpired`: strictly past the expiry instant. */
  predicate IsExpired(m: Metadata, now: int): (b: bool)
    ensures now <= m.expiresAt ==> !b
    ensures now > m.expiresAt ==> b
  {
    now > m.expiresAt
  }

  /** Once expired, metadata stays expired. */
  lemma ExpiryIsMonotone(m: Metadata, now: int, later: int)
    requires now <= later
    requires IsExpired(m, now)
    ensures IsExpired(m, later)
  {
  }

  /** The two files kept for one cache file name. An absent or unreadable
      file is `None`. */
  datatype Entry = Entry(payload: Option<Payload>, metadata: Option<Metadata>)

  /** The cache directory, keyed by cache file name. */
  type Cache = map<string, Entry>

  const EmptyEntry: Entry := Entry(None, None)

  function EntryOf(c: Cache, filename: string): Entry {
    if filename in c then c[filename] else EmptyEntry
  }

  /** `loadMetadata(for:)`. */
  function LoadMetadata(c: Cache, filename: string): Option<Metadata> {
    EntryOf(c, filename).metadata
  }

  /** Reads the raw cache file. */
  function ReadPayload(c: Cache, filename: string): Option<Payload> {
    EntryOf(c, filename).payload
  }

  /** Whether the network call returned, with status 200, a body that
      decodes. */
  datatype Response = InvalidURL | TransportFailure | HttpResponse(statusCode: int, body: Payload)

  /** Whether the payload write and the metadata write succeed. */
  datatype Writes = Writes(payloadOk: bool, metadataOk: bool)

  datatype CacheStatus = NotCached | Valid(cachedAt: int, expiresAt: int) | Expired(cachedAt: int)
  {
    predicate IsValid() {
      Valid?
    }
  }

  /** `cacheStatus(for:)`: a pure read of the metadata. Valid up to and
      including the expiry instant. */
  function Status(c: Cache, r: Request, now: int): (s: CacheStatus)
    ensures s.NotCached? <==> LoadMetadata(c, r.cacheFilename).None?
    ensures s.Expired? <==> LoadMetadata(c, r.cacheFilename).Some? && now > LoadMetadata(c, r.cacheFilename).value.expiresAt
    ensures !s.NotCached? ==> s.cachedAt == LoadMetadata(c, r.cacheFilename).value.cachedAt
    ensures s.Valid? ==> s.expiresAt == LoadMetadata(c, r.cacheFilename).value.expiresAt && now <= s.expiresAt
  {
    match LoadMetadata(c, r.cacheFilename)
    case None => NotCached
    case Some(m) =>
      if IsExpired(m, now) then Expired(m.cachedAt)
      else Valid(m.cachedAt, m.expiresAt)
  }

  /** `clearCache(for:)`: removes the cache file and its metadata file. */
  function ClearCache(c: Cache, r: Request): (c': Cache)
    ensures forall now :: Status(c', r, now) == NotCached
    ensures ReadPayload(c', r.cacheFilename).None?
    ensures forall name :: name != r.cacheFilename ==> EntryOf(c', name) == EntryOf(c, name)
  {
    c - {r.cacheFilename}
  }

  /** `clearAllCache()`: removes and recreates the cache directory. */
  function ClearAllCache(c: Cache): (c': Cache)
    ensures forall r: Request, now :: Status(c', r, now) == NotCached
    ensures forall name :: ReadPayload(c', name).None?
  {
    map[]
  }

  /** `saveToCache`: writes the payload; only if that succeeded, writes
      metadata stamped `now` and expiring `CacheExpirationInterval`
      seconds later. A failed metadata write leaves the old metadata. */
  function SaveToCache(c: Cache, filename: string, data: Payload, now: int, w: Writes): (c': Cache)
    ensures !w.payloadOk ==> c' == c
    ensures w.payloadOk ==> ReadPayload(c', filename) == Some(data)
    ensures w.payloadOk && w.metadataOk ==>
      LoadMetadata(c', filename) == Some(Metadata(filename, now, now + CacheExpirationInterval))
    ensures !w.metadataOk ==> LoadMetadata(c', filename) == LoadMetadata(c, filename)
    ensures forall name :: name != filename ==> EntryOf(c', name) == EntryOf(c, name)
  {
    if !w.payloadOk then c
    else
      var meta := if w.metadataOk then Some(Metadata(filename, now, now + CacheExpirationInterval))
                  else LoadMetadata(c, filename);
      c[filename := Entry(Some(data), meta)]
  }

  /** Result of `fetchAndCache`: the decoded value, if any, and the cache
      after the attempt. */
  datatype Fetched<T> = Fetched(value: Option<T>, cache: Cache)

  /** The network answer is a 200 whose body decodes. */
  predicate FetchSucceeds<T>(resp: Response, decode: Payload -> Option<T>) {
    resp.HttpResponse? && resp.statusCode == 200 && decode(resp.body).Some?
  }

  /** `fetchAndCache`: one remote attempt. Only a 200 response whose body
      decodes yields a value and touches the cache; the value is returned
      even when persisting it fails. */
  function FetchAndCache<T>(r: Request, c: Cache, now: int, resp: Response,
                            decode: Payload -> Option<T>, w: Writes): (f: Fetched<T>)
    ensures f.value.Some? <==> FetchSucceeds(resp, decode)
    ensures f.value.Some? ==> f.value == decode(resp.body)
    ensures f.value.None? ==> f.cache == c
    ensures f.value.Some? ==> f.cache == SaveToCache(c, r.cacheFilename, resp.body, now, w)
    ensures forall name :: name != r.cacheFilename ==> EntryOf(f.cache, name) == EntryOf(c, name)
  {
    match resp
    case InvalidURL => Fetched(None, c)
    case TransportFailure => Fetched(None, c)
    case HttpResponse(code, body) =>
      if code != 200 then Fetched(None, c)
      else
        match decode(body)
        case None => Fetched(None, c)
        case Some(v) => Fetched(Some(v), SaveToCache(c, r.cacheFilename, body, now, w))
  }

  /** `loadFromCache`: decodes the cache file, whatever its metadata says. */
  function LoadFromCache<T>(c: Cache, r: Request, decode: Payload -> Option<T>): (v: Option<T>)
    ensures v.Some? ==> ReadPayload(c, r.cacheFilename).Some? && v == decode(ReadPayload(c, r.cacheFilename).value)
    ensures ReadPayload(c, r.cacheFilename).None? ==> v.None?
  {
    match ReadPayload(c, r.cacheFilename)
    case None => None
    case Some(p) => decode(p)
  }

  /** Which tier produced a load result; the source reports it only in
      its log lines. */
  datatype Source = FromCache | FromRemote | FromStaleCache | FromBundle | Unavailable

  /** Result of `load`: the value, the cache afterwards, the tier, and
      whether a background `fetchAndCache` was started. */
  datatype Loaded<T> = Loaded(value: Option<T>, cache: Cache, source: Source, refreshInBackground: bool)

  /** The metadata is present and not expired. */
  predicate MetadataFresh(c: Cache, r: Request, now: int) {
    LoadMetadata(c, r.cacheFilename).Some? && !IsExpired(LoadMetadata(c, r.cacheFilename).value, now)
  }

  /** `load`: the fallback chain. */
  function Load<T>(r: Request, c: Cache, now: int, resp: Response, decode: Payload -> Option<T>,
                   w: Writes, bundled: Option<T>): (l: Loaded<T>)
    ensures l.refreshInBackground <==> l.source == FromCache
    ensures l.value.None? <==> l.source == Unavailable
    ensures l.source != FromRemote ==> l.cache == c
    ensures forall name :: name != r.cacheFilename ==> EntryOf(l.cache, name) == EntryOf(c, name)
  {
    var cached := LoadFromCache(c, r, decode);
    if MetadataFresh(c, r, now) && cached.Some? then
      Loaded(cached, c, FromCache, true)
    else
      var f := FetchAndCache(r, c, now, resp, decode, w);
      if f.value.Some? then Loaded(f.value, f.cache, FromRemote, false)
      else
        var stale := LoadFromCache(f.cache, r, decode);
        if stale.Some? then Loaded(stale, f.cache, FromStaleCache, false)
        else if bundled.Some? then Loaded(bundled, f.cache, FromBundle, false)
        else Loaded(None, f.cache, Unavailable, false)
  }

  /** The cache file exists and decodes. */
  predicate PayloadDecodes<T>(c: Cache, r: Request, decode: Payload -> Option<T>) {
    ReadPayload(c, r.cacheFilename).Some? && decode(ReadPayload(c, r.cacheFilename).value).Some?
  }

  // ---------------------------------------------------------------------
  // The load policy, tier by tier, in terms of the inputs.

  /** Fresh metadata and a decodable cache file: the cached value, no
      awaited network call (the response is never consulted), the cache
      untouched and a background refresh started. */
  lemma LoadServesValidCache<T>(r: Request, c: Cache, now: int, resp: Response,
                                decode: Payload -> Option<T>, w: Writes, bundled: Option<T>)
    requires MetadataFresh(c, r, now) && PayloadDecodes(c, r, decode)
    ensures Load(r, c, now, resp, decode, w, bundled).value == decode(ReadPayload(c, r.cacheFilename).value)
    ensures Load(r, c, now, resp, decode, w, bundled).cache == c
    ensures Load(r, c, now, resp, decode, w, bundled).refreshInBackground
    ensures forall resp': Response :: Load(r, c, now, resp', decode, w, bundled) == Load(r, c, now, resp, decode, w, bundled)
  {
  }

  /** Otherwise a successful fetch wins, even when the write fails, and
      with both writes succeeding the cache is then valid for the TTL. */
  lemma LoadPrefersRemote<T>(r: Request, c: Cache, now: int, resp: Response,
                             decode: Payload -> Option<T>, w: Writes, bundled: Option<T>)
    requires !(MetadataFresh(c, r, now) && PayloadDecodes(c, r, decode))
    requires FetchSucceeds(resp, decode)
    ensures Load(r, c, now, resp, decode, w, bundled).value == decode(resp.body)
    ensures Load(r, c, now, resp, decode, w, bundled).source == FromRemote
    ensures w.payloadOk && w.metadataOk ==>
      Status(Load(r, c, now, resp, decode, w, bundled).cache, r, now) == Valid(now, now + CacheExpirationInterval)
    ensures w.payloadOk ==> ReadPayload(Load(r, c, now, resp, decode, w, bundled).cache, r.cacheFilename) == Some(resp.body)
  {
  }

  /** When the fetch fails, the cache file is served whatever its
      metadata says, and the cache is left as it was. */
  lemma LoadFallsBackToStale<T>(r: Request, c: Cache, now: int, resp: Response,
                                decode: Payload -> Option<T>, w: Writes, bundled: Option<T>)
    requires !FetchSucceeds(resp, decode)
    requires PayloadDecodes(c, r, decode)
    ensures Load(r, c, now, resp, decode, w, bundled).value == decode(ReadPayload(c, r.cacheFilename).value)
    ensures Load(r, c, now, resp, decode, w, bundled).cache == c
  {
  }

  /** When the fetch fails and the cache file is missing or does not
      decode, the bundled value (possibly none) is returned. */
  lemma LoadFallsBackToBundle<T>(r: Request, c: Cache, now: int, resp: Response,
                                 decode: Payload -> Option<T>, w: Writes, bundled: Option<T>)
    requires !FetchSucceeds(resp, decode)
    requires !PayloadDecodes(c, r, decode)
    ensures Load(r, c, now, resp, decode, w, bundled).value == bundled
    ensures Load(r, c, now, resp, decode, w, bundled).cache == c
    ensures !Load(r, c, now, resp, decode, w, bundled).refreshInBackground
  {
  }

  /** Every value `load` returns comes from one of the three sources. */
  lemma LoadValueOrigin<T>(r: Request, c: Cache, now: int, resp: Response,
                           decode: Payload -> Option<T>, w: Writes, bundled: Option<T>)
    ensures var v := Load(r, c, now, resp, decode, w, bundled).value;
      v.None? || (PayloadDecodes(c, r, decode) && v == decode(ReadPayload(c, r.cacheFilename).value))
      || (FetchSucceeds(resp, decode) && v == decode(resp.body)) || v == bundled
  {
  }

  /** `load` yields nothing exactly when every tier is unavailable. */
  lemma LoadNoneIff<T>(r: Request, c: Cache, now: int, resp: Response,
                       decode: Payload -> Option<T>, w: Writes, bundled: Option<T>)
    ensures Load(r, c, now, resp, decode, w, bundled).value.None? <==>
      !FetchSucceeds(resp, decode) && !PayloadDecodes(c, r, decode) && bundled.None?
  {
  }

  /** The background refresh started by a cache hit leaves the metadata
      either as it was or stamped with the refresh time. */
  lemma RefreshMetadataOutcome<T>(r: Request, c: Cache, t: int, resp: Response,
                                  decode: Payload -> Option<T>, w: Writes)
    ensures var m := LoadMetadata(FetchAndCache(r, c, t, resp, decode, w).cache, r.cacheFilename);
      m == LoadMetadata(c, r.cacheFilename) ||
      m == Some(Metadata(r.cacheFilename, t, t + CacheExpirationInterval))
  {
  }

  /** After a fully persisted save at time `t`, the status at any later
      or earlier time `now` is valid up to `t + 3600` and expired after. */
  lemma StatusAfterSave(c: Cache, r: Request, data: Payload, t: int, now: int)
    ensures var s := Status(SaveToCache(c, r.cacheFilename, data, t, Writes(true, true)), r, now);
      if now > t + CacheExpirationInterval then s == Expired(t)
      else s == Valid(t, t + CacheExpirationInterval)
  {
  }

  // ---------------------------------------------------------------------
  // Requests and their files.

  /** Each request fetches `json/<cacheFilename>` from the base URL, and
      its bundled file is the cache file name without `.json`. */
  lemma RequestLayout()
    ensures forall r :: r in KnownRequests ==>
      r.baseURL == BaseURL && r.endpoint == JsonPath + r.cacheFilename
      && r.bundleFilename + ".json" == r.cacheFilename
      && Url(r) == BaseURL + JsonPath + r.cacheFilename
  {
  }

  /** The base URL is an https address. */
  lemma BaseUrlIsHttps()
    ensures |BaseURL| > |HttpsScheme| && BaseURL[..|HttpsScheme|] == HttpsScheme
  {
  }

  /** All files of the three requests (cache files and metadata files)
      are pairwise distinct, so one request's files never alias another's. */
  lemma RequestFilesDistinct()
    ensures forall i, j :: 0 <= i < j < |KnownRequests| ==>
      KnownRequests[i].cacheFilename != KnownRequests[j].cacheFilename
    ensures forall i, j :: 0 <= i < |KnownRequests| && 0 <= j < |KnownRequests| ==>
      KnownRequests[i].cacheFilename != MetadataFilename(KnownRequests[j].cacheFilename)
  {
    forall i, j | 0 <= i < |KnownRequests| && 0 <= j < |KnownRequests|
      ensures KnownRequests[i].cacheFilename != MetadataFilename(KnownRequests[j].cacheFilename)
    {
      assert |MetadataFilename(KnownRequests[j].cacheFilename)| > |KnownRequests[i].cacheFilename|;
    }
  }

  /** Clearing one request's cache leaves the other requests' status and
      files as they were. */
  lemma ClearCacheIsolated(c: Cache, i: nat, j: nat, now: int)
    requires i < |KnownRequests| && j < |KnownRequests| && i != j
    ensures var other := KnownRequests[j];
      Status(ClearCache(c, KnownRequests[i]), other, now) == Status(c, other, now)
      && EntryOf(ClearCache(c, KnownRequests[i]), other.cacheFilename) == EntryOf(c, other.cacheFilename)
  {
    RequestFilesDistinct();
  }

  /** After `clearAllCache`, every known request reports `NotCached`. */
  lemma ClearAllCacheNotCached(c: Cache, now: int)
    ensures forall r :: r in KnownRequests ==> Status(ClearAllCache(c), r, now) == NotCached
  {
  }

  /** Clearing is idempotent. */
  lemma ClearCacheIdempotent(c: Cache, r: Request)
    ensures ClearCache(ClearCache(c, r), r) == ClearCache(c, r)
  {
  }
}
