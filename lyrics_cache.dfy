/**
 * The lyrics cache (`services/lyricsCache.ts`): one browser-storage entry under the key
 * `localify-lyrics-cache` holding a JSON object from song id to lyrics. Reading a missing or
 * unparseable entry gives the empty cache; a write stores the whole object and a failed write
 * (over quota, storage disabled) is swallowed, leaving the stored entry as it was.
 */
module LyricsCache {
  import opened Optional
  import opened Types

  /** The storage key of the cache. */
  const CacheKey := "localify-lyrics-cache"

  /** What the storage entry holds: nothing (or the empty string), text that is not valid JSON, or a cache object. */
  datatype StoredBlob = Missing | Corrupt | Stored(entries: map<string, LyricsData>)

  /** `getCache`: the parsed object, or the empty cache when the entry is missing or does not parse. */
  function CacheOf(b: StoredBlob): (r: map<string, LyricsData>)
    ensures b.Stored? ==> r == b.entries
    ensures !b.Stored? ==> r == map[]
  {
    match b
    case Stored(entries) => entries
    case _ => map[]
  }

  /** `getLyricsFromCache`: the stored lyrics of a song, if any; every stored record is a truthy object. */
  function Lookup(b: StoredBlob, songId: string): (r: Option<LyricsData>)
    ensures r.Some? <==> b.Stored? && songId in b.entries
    ensures r.Some? ==> r.value == b.entries[songId]
  {
    if songId in CacheOf(b) then Some(CacheOf(b)[songId]) else None
  }

  /**
   * `setLyricsInCache`: the blob after writing `data` for `songId`. When the write succeeds the new
   * object is the readable old one plus the entry, so a corrupt blob is replaced by a one-entry
   * cache; when it fails, storage is unchanged.
   */
  function Store(b: StoredBlob, songId: string, data: LyricsData, writeSucceeds: bool): (r: StoredBlob)
    ensures writeSucceeds ==> r.Stored? && r.entries.Keys == CacheOf(b).Keys + {songId}
    ensures writeSucceeds ==> forall k :: k in CacheOf(b) && k != songId ==> r.entries[k] == CacheOf(b)[k]
    ensures !writeSucceeds ==> r == b
  {
    if writeSucceeds then Stored(CacheOf(b)[songId := data]) else b
  }

  /** A successful write is read back. */
  lemma ReadAfterWrite(b: StoredBlob, songId: string, data: LyricsData)
    ensures Lookup(Store(b, songId, data, true), songId) == Some(data)
  {
  }

  /** A write leaves the other songs' entries as they read before. */
  lemma WriteKeepsOthers(b: StoredBlob, songId: string, data: LyricsData, other: string, ok: bool)
    requires other != songId
    ensures Lookup(Store(b, songId, data, ok), other) == Lookup(b, other)
  {
  }

  /** A second successful write for the same song replaces the first. */
  lemma WriteTwice(b: StoredBlob, songId: string, first: LyricsData, second: LyricsData)
    ensures Store(Store(b, songId, first, true), songId, second, true) == Store(b, songId, second, true)
  {
  }

  /** Writing over an unreadable entry keeps only the new song's lyrics. */
  lemma WriteOverCorrupt(songId: string, data: LyricsData)
    ensures Store(Corrupt, songId, data, true) == Stored(map[songId := data])
  {
  }

  /** The cache as the app holds it: the one storage entry, read and rewritten in full. */
  class LyricsStore {
    var blob: StoredBlob

    constructor (initial: StoredBlob)
      ensures blob == initial
    {
      blob := initial;
    }

    /** `getLyricsFromCache`. */
    method GetLyricsFromCache(songId: string) returns (r: Option<LyricsData>)
      ensures r == Lookup(blob, songId)
      ensures r.Some? ==> blob.Stored? && songId in blob.entries && r.value == blob.entries[songId]
    {
      var cache := CacheOf(blob);
      if songId in cache {
        r := Some(cache[songId]);
      } else {
        r := None;
      }
    }

    /** `setLyricsInCache`; `writeSucceeds` stands for whether the storage write throws. */
    method SetLyricsInCache(songId: string, data: LyricsData, writeSucceeds: bool)
      modifies this
      ensures blob == Store(old(blob), songId, data, writeSucceeds)
    {
      var cache := CacheOf(blob);
      cache := cache[songId := data];
      if writeSucceeds {
        blob := Stored(cache);
      }
    }
  }
}
