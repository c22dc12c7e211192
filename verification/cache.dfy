/** `BrewCache`: a directory of value files, each with a `.meta` sidecar
    holding the time it was saved. Values are stored encoded as JSON and
    decoded again on read; expiry is checked on read. The directory is a
    map from file name to file contents and the clock is a parameter
    (whole seconds). */
module Cache {
  import opened Wrappers
  import opened Json

  /** `defaultTTL`, in seconds. */
  const DefaultTtl: int := 3600

  /** `CacheKey`. */
  datatype CacheKey =
    | InstalledFormulae
    | InstalledCasks
    | OutdatedFormulae
    | OutdatedCasks
    | Taps
    | SearchResults

  /** The key's raw value, which is also its value file's name. */
  function RawValue(k: CacheKey): string {
    match k
    case InstalledFormulae => "installed_formulae.json"
    case InstalledCasks => "installed_casks.json"
    case OutdatedFormulae => "outdated_formulae.json"
    case OutdatedCasks => "outdated_casks.json"
    case Taps => "taps.json"
    case SearchResults => "search_results"
  }

  function ValueFile(k: CacheKey): string {
    RawValue(k)
  }

  function MetaFile(k: CacheKey): string {
    RawValue(k) + ".meta"
  }

  /** What a file in the cache directory holds: a JSON document, or bytes
      that are not JSON at all. */
  datatype Blob = Document(json: JVal) | Garbled(reason: string)

  type Directory = map<string, Blob>

  /** The encoded `CacheMetadata`: one `timestamp` number. */
  function MetadataDocument(savedAt: int): JVal {
    JObj(map["timestamp" := JNum(savedAt)])
  }

  /** `CacheMetadata` decoded from a sidecar's contents, if it decodes. */
  function DecodeMetadata(b: Blob): (r: Option<int>)
    ensures r.Some? <==> b.Document? && b.json.JObj? && "timestamp" in b.json.fields && b.json.fields["timestamp"].JNum?
  {
    match b
    case Document(JObj(fields)) =>
      if "timestamp" in fields && fields["timestamp"].JNum? then Some(fields["timestamp"].n) else None
    case _ => None
  }

  /** The sidecar `save` writes decodes to the time it was stamped with. */
  lemma MetadataRoundTrip(savedAt: int)
    ensures DecodeMetadata(Document(MetadataDocument(savedAt))) == Some(savedAt)
  {
  }

  /** What `load` gives back: the value, nothing, or a thrown error's description. */
  datatype Loaded<P> = Found(value: P) | Absent | Unreadable(reason: string)

  /** The result of `load` together with the directory it leaves behind. */
  datatype LoadStep<P> = LoadStep(result: Loaded<P>, dir: Directory)

  /** The TTL a call uses: its own when given, otherwise the default. */
  function Ttl(ttl: Option<int>): int {
    ttl.GetOr(DefaultTtl)
  }

  /** The saved-at time of `k` when its sidecar exists and decodes. */
  function SavedAt(dir: Directory, k: CacheKey): Option<int> {
    if MetaFile(k) in dir then DecodeMetadata(dir[MetaFile(k)]) else None
  }

  /** `save(_:forKey:)` of a value whose encoding is `encoded`: writes the
      value file, then a sidecar stamped `now`. */
  function Save(dir: Directory, k: CacheKey, encoded: JVal, now: int): (d: Directory)
    ensures d.Keys == dir.Keys + {ValueFile(k), MetaFile(k)}
    ensures d[ValueFile(k)] == Document(encoded) && SavedAt(d, k) == Some(now)
    ensures forall name :: name in dir && name != ValueFile(k) && name != MetaFile(k) ==> d[name] == dir[name]
  {
    dir[ValueFile(k) := Document(encoded)][MetaFile(k) := Document(MetadataDocument(now))]
  }

  /** `load(_:forKey:ttl:)` at time `now`, with `decode` the decoder of the
      requested type. A missing value file is a miss; an entry older than
      the TTL (strictly) is deleted, both files, and is a miss; a missing
      or unreadable sidecar skips the age check; a value that does not
      decode is a thrown error, and the entry stays. */
  function Load<P>(dir: Directory, k: CacheKey, decode: JVal -> Result<P, string>, ttl: Option<int>, now: int): (r: LoadStep<P>)
    ensures ValueFile(k) !in dir ==> r == LoadStep(Absent, dir)
    ensures r.result.Found? <==> (
      && ValueFile(k) in dir && dir[ValueFile(k)].Document? && decode(dir[ValueFile(k)].json).Ok?
      && (SavedAt(dir, k).Some? ==> now - SavedAt(dir, k).value <= Ttl(ttl)))
    ensures r.result.Found? ==> r.result.value == decode(dir[ValueFile(k)].json).value
    ensures r.dir != dir <==> ValueFile(k) in dir && SavedAt(dir, k).Some? && now - SavedAt(dir, k).value > Ttl(ttl)
    ensures r.dir != dir ==> r.result == Absent && r.dir == dir - {ValueFile(k), MetaFile(k)}
    ensures r.result.Unreadable? ==> r.dir == dir
  {
    if ValueFile(k) !in dir then LoadStep(Absent, dir)
    else
      var stamp := SavedAt(dir, k);
      if stamp.Some? && now - stamp.value > Ttl(ttl) then
        LoadStep(Absent, dir - {ValueFile(k), MetaFile(k)})
      else
        match dir[ValueFile(k)]
        case Document(json) =>
          (match decode(json)
           case Ok(v) => LoadStep(Found(v), dir)
           case Err(reason) => LoadStep(Unreadable(reason), dir))
        case Garbled(reason) => LoadStep(Unreadable(reason), dir)
  }

  /** `remove(forKey:)`: deletes both files, whether or not they exist. */
  function Remove(dir: Directory, k: CacheKey): (d: Directory)
    ensures d.Keys == dir.Keys - {ValueFile(k), MetaFile(k)}
    ensures forall name :: name in d ==> d[name] == dir[name]
  {
    dir - {ValueFile(k), MetaFile(k)}
  }

  /** `clearAll()`: deletes every file in the directory. */
  function ClearAll(dir: Directory): (d: Directory)
    ensures forall name :: name !in d
  {
    map[]
  }

  /** The files of `k`, as seen by `load`, are the same in both directories. */
  ghost predicate SameEntry(a: Directory, b: Directory, k: CacheKey) {
    && (ValueFile(k) in a <==> ValueFile(k) in b)
    && (ValueFile(k) in a ==> a[ValueFile(k)] == b[ValueFile(k)])
    && SavedAt(a, k) == SavedAt(b, k)
  }

  /** No two keys share a file, and no value file is any key's sidecar. */
  lemma FileNamesDistinct(k1: CacheKey, k2: CacheKey)
    ensures k1 != k2 ==> ValueFile(k1) != ValueFile(k2) && MetaFile(k1) != MetaFile(k2)
    ensures ValueFile(k1) != MetaFile(k2)
  {
    var a, b := RawValue(k1), RawValue(k2);
    if k1 != k2 {
      assert |a| != |b|;
    }
    assert a[|a| - 1] != MetaFile(k2)[|MetaFile(k2)| - 1];
  }

  /** What `save` wrote is what `load` reads back while the entry is within
      its TTL, including exactly at the boundary, provided the value's
      encoding decodes back to it. */
  lemma SaveThenLoad<P>(dir: Directory, k: CacheKey, encoded: JVal, decode: JVal -> Result<P, string>, v: P,
                        savedAt: int, ttl: Option<int>, now: int)
    requires decode(encoded) == Ok(v)
    requires now - savedAt <= Ttl(ttl)
    ensures Load(Save(dir, k, encoded, savedAt), k, decode, ttl, now) == LoadStep(Found(v), Save(dir, k, encoded, savedAt))
  {
  }

  /** A value whose encoding does not decode back makes every `load`
      within the TTL throw the decoding error, and the entry is kept, so
      the next `load` throws again. */
  lemma UndecodableSaveKeepsFailing<P>(dir: Directory, k: CacheKey, encoded: JVal, decode: JVal -> Result<P, string>,
                                       savedAt: int, ttl: Option<int>, now: int)
    requires decode(encoded).Err?
    requires now - savedAt <= Ttl(ttl)
    ensures Load(Save(dir, k, encoded, savedAt), k, decode, ttl, now)
      == LoadStep(Unreadable(decode(encoded).error), Save(dir, k, encoded, savedAt))
  {
  }

  /** Once strictly older than its TTL the entry loads as absent and both
      of its files are gone; every other file is untouched. */
  lemma SaveThenExpire<P>(dir: Directory, k: CacheKey, encoded: JVal, decode: JVal -> Result<P, string>,
                          savedAt: int, ttl: Option<int>, now: int)
    requires now - savedAt > Ttl(ttl)
    ensures var r := Load(Save(dir, k, encoded, savedAt), k, decode, ttl, now);
      && r.result == Absent
      && r.dir == Remove(dir, k)
  {
    var d := Save(dir, k, encoded, savedAt);
    FileNamesDistinct(k, k);
    assert d - {ValueFile(k), MetaFile(k)} == dir - {ValueFile(k), MetaFile(k)};
  }

  /** With a zero TTL, any later read misses. */
  lemma ZeroTtlExpires<P>(dir: Directory, k: CacheKey, encoded: JVal, decode: JVal -> Result<P, string>, savedAt: int, now: int)
    requires now > savedAt
    ensures Load(Save(dir, k, encoded, savedAt), k, decode, Some(0), now).result == Absent
  {
    SaveThenExpire(dir, k, encoded, decode, savedAt, Some(0), now);
  }

  /** Without a TTL of its own a read uses one hour: an entry is still
      there 3600 seconds after it was saved and gone one second later. */
  lemma DefaultTtlIsAnHour<P>(dir: Directory, k: CacheKey, encoded: JVal, decode: JVal -> Result<P, string>, v: P, savedAt: int)
    requires decode(encoded) == Ok(v)
    ensures Load(Save(dir, k, encoded, savedAt), k, decode, None, savedAt + 3600).result == Found(v)
    ensures Load(Save(dir, k, encoded, savedAt), k, decode, None, savedAt + 3601).result == Absent
  {
    SaveThenLoad(dir, k, encoded, decode, v, savedAt, None, savedAt + 3600);
    SaveThenExpire(dir, k, encoded, decode, savedAt, None, savedAt + 3601);
  }

  /** Without a readable sidecar a stored value is decoded however old it is. */
  lemma NoMetadataNoExpiry<P>(dir: Directory, k: CacheKey, decode: JVal -> Result<P, string>, ttl: Option<int>, now: int)
    requires ValueFile(k) in dir && dir[ValueFile(k)].Document? && decode(dir[ValueFile(k)].json).Ok?
    requires SavedAt(dir, k).None?
    ensures Load(dir, k, decode, ttl, now) == LoadStep(Found(decode(dir[ValueFile(k)].json).value), dir)
  {
  }

  /** Saving under one key changes nothing another key loads. */
  lemma SaveIsolated(dir: Directory, k: CacheKey, encoded: JVal, savedAt: int, other: CacheKey)
    requires other != k
    ensures SameEntry(Save(dir, k, encoded, savedAt), dir, other)
  {
    FileNamesDistinct(k, other);
    FileNamesDistinct(other, k);
    var d := Save(dir, k, encoded, savedAt);
    assert d == dir[ValueFile(k) := Document(encoded)][MetaFile(k) := Document(MetadataDocument(savedAt))];
    assert MetaFile(other) in d <==> MetaFile(other) in dir;
    assert MetaFile(other) in d ==> d[MetaFile(other)] == dir[MetaFile(other)];
  }

  /** Two directories that agree on a key's files load it alike. */
  lemma SameEntrySameLoad<P>(a: Directory, b: Directory, k: CacheKey, decode: JVal -> Result<P, string>, ttl: Option<int>, now: int)
    requires SameEntry(a, b, k)
    ensures Load(a, k, decode, ttl, now).result == Load(b, k, decode, ttl, now).result
  {
  }

  /** After `remove(k)`, `k` loads as absent. */
  lemma RemoveMisses<P>(dir: Directory, k: CacheKey, decode: JVal -> Result<P, string>, ttl: Option<int>, now: int)
    ensures Load(Remove(dir, k), k, decode, ttl, now).result == Absent
  {
  }

  /** `remove(k)` leaves every other key's files untouched. */
  lemma RemoveIsolated(dir: Directory, k: CacheKey, other: CacheKey)
    requires other != k
    ensures SameEntry(Remove(dir, k), dir, other)
  {
    FileNamesDistinct(k, other);
    FileNamesDistinct(other, k);
  }

  /** Removing twice is removing once. */
  lemma RemoveIdempotent(dir: Directory, k: CacheKey)
    ensures Remove(Remove(dir, k), k) == Remove(dir, k)
  {
  }

  /** After `clearAll()` every key loads as absent. */
  lemma ClearAllEmpties<P>(dir: Directory, k: CacheKey, decode: JVal -> Result<P, string>, ttl: Option<int>, now: int)
    ensures Load(ClearAll(dir), k, decode, ttl, now).result == Absent
  {
  }
}
