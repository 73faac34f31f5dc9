/**
 * expo-ota's Android bundle persistence (ExpoOTAPersistence.kt): five string
 * entries in a per-id key-value store -- the current bundle path, the downloaded
 * bundle path, the outdated bundle path, the current manifest and the
 * downloaded manifest -- and the factory that hands out one persistence per id.
 *
 * The store is a map from key to string; writing null removes the key. A
 * manifest is the string the store holds (JSON parsing and printing are not
 * modelled).
 */
module OTAPersistence {
  import opened Wrappers

  const KeyBundlePath := "bundlePath"
  const KeyDownloadedBundlePath := "downloadedBundlePath"
  const KeyManifest := "manifest"
  const KeyDownloadedManifest := "downloadedManifest"
  const KeyBundleOutdated := "outdatedBundle"

  /** The manifest read when none (or an empty one) is stored. */
  const EmptyManifest := "{}"

  type Storage = map<string, string>

  /** One writeString call on the store. */
  datatype Write = Write(key: string, value: Option<string>)

  /** KeyValueStorage.readString with a null default: the stored value, if any. */
  function Read(st: Storage, key: string): (r: Option<string>)
    ensures r.Some? <==> key in st
    ensures r.Some? ==> r.value == st[key]
  {
    if key in st then Some(st[key]) else None
  }

  /** KeyValueStorage.writeString: stores the value under the key, or removes the key for null. */
  function WriteString(st: Storage, key: string, value: Option<string>): (r: Storage)
    ensures Read(r, key) == value
    ensures forall k :: k != key ==> Read(r, k) == Read(st, k)
    ensures r.Keys == if value.Some? then st.Keys + {key} else st.Keys - {key}
  {
    if value.Some? then st[key := value.value] else st - {key}
  }

  /** The getter of `manifest`: the stored manifest, or "{}" when it is missing or empty. */
  function ManifestOf(st: Storage): (m: string)
    ensures (KeyManifest !in st || st[KeyManifest] == "") ==> m == EmptyManifest
    ensures KeyManifest in st && st[KeyManifest] != "" ==> m == st[KeyManifest]
    ensures m != ""
  {
    if KeyManifest in st && st[KeyManifest] != "" then st[KeyManifest] else EmptyManifest
  }

  /** newestManifest: the downloaded manifest when one is stored, else the current one. */
  function NewestManifestOf(st: Storage): (m: string)
    ensures KeyDownloadedManifest in st ==> m == st[KeyDownloadedManifest]
    ensures KeyDownloadedManifest !in st ==> m == ManifestOf(st)
  {
    match Read(st, KeyDownloadedManifest)
    case Some(downloaded) => downloaded
    case None => ManifestOf(st)
  }

  predicate IsPersistenceKey(k: string)
  {
    k == KeyBundlePath || k == KeyDownloadedBundlePath || k == KeyManifest
    || k == KeyDownloadedManifest || k == KeyBundleOutdated
  }

  /**
   * markDownloadedCurrentAndCurrentOutdated on the store. With both a downloaded
   * manifest and a downloaded bundle: the current bundle becomes the outdated one,
   * the downloaded manifest and bundle become current, and both downloaded entries
   * are cleared. Otherwise nothing changes.
   */
  function Promoted(st: Storage): (r: Storage)
    ensures (KeyDownloadedManifest !in st || KeyDownloadedBundlePath !in st) ==> r == st
    ensures KeyDownloadedManifest in st && KeyDownloadedBundlePath in st ==>
      && Read(r, KeyBundleOutdated) == Read(st, KeyBundlePath)
      && Read(r, KeyManifest) == Some(st[KeyDownloadedManifest])
      && Read(r, KeyBundlePath) == Some(st[KeyDownloadedBundlePath])
      && KeyDownloadedManifest !in r && KeyDownloadedBundlePath !in r
    ensures forall k :: !IsPersistenceKey(k) ==> Read(r, k) == Read(st, k)
  {
    var downloadedManifest := Read(st, KeyDownloadedManifest);
    var downloadedBundle := Read(st, KeyDownloadedBundlePath);
    if downloadedManifest.Some? && downloadedBundle.Some? then
      var s1 := WriteString(st, KeyBundleOutdated, Read(st, KeyBundlePath));
      var s2 := WriteString(s1, KeyManifest, downloadedManifest);
      var s3 := WriteString(s2, KeyBundlePath, downloadedBundle);
      var s4 := WriteString(s3, KeyDownloadedManifest, None);
      WriteString(s4, KeyDownloadedBundlePath, None)
    else
      st
  }

  /** Promotion is all or nothing: afterwards nothing is left to promote, so a second promotion changes nothing. */
  lemma PromotedIdempotent(st: Storage)
    ensures Promoted(Promoted(st)) == Promoted(st)
  {
  }

  /**
   * After a promotion the newest manifest is the one that was downloaded; without
   * a complete download the newest manifest is unchanged.
   */
  lemma PromotedNewestManifest(st: Storage)
    ensures KeyDownloadedManifest in st && KeyDownloadedBundlePath in st ==>
      ManifestOf(Promoted(st)) == NewestManifestOf(Promoted(st)) == (if st[KeyDownloadedManifest] == "" then EmptyManifest else NewestManifestOf(st))
    ensures !(KeyDownloadedManifest in st && KeyDownloadedBundlePath in st) ==> NewestManifestOf(Promoted(st)) == NewestManifestOf(st)
  {
  }

  /** The persistence of one OTA instance, over its own key-value store. */
  class ExpoOTAPersistence {
    var storage: Storage
    /** Every writeString issued so far, oldest first. */
    var writes: seq<Write>

    constructor (persisted: Storage)
      ensures storage == persisted && writes == []
    {
      storage := persisted;
      writes := [];
    }

    function BundlePath(): (r: Option<string>)
      reads this
      ensures r.Some? <==> KeyBundlePath in storage
      ensures r.Some? ==> r.value == storage[KeyBundlePath]
    {
      Read(storage, KeyBundlePath)
    }

    function DownloadedBundlePath(): (r: Option<string>)
      reads this
      ensures r.Some? <==> KeyDownloadedBundlePath in storage
      ensures r.Some? ==> r.value == storage[KeyDownloadedBundlePath]
    {
      Read(storage, KeyDownloadedBundlePath)
    }

    function OutdatedBundlePath(): (r: Option<string>)
      reads this
      ensures r.Some? <==> KeyBundleOutdated in storage
      ensures r.Some? ==> r.value == storage[KeyBundleOutdated]
    {
      Read(storage, KeyBundleOutdated)
    }

    function Manifest(): (m: string)
      reads this
      ensures m == if KeyManifest in storage && storage[KeyManifest] != "" then storage[KeyManifest] else EmptyManifest
    {
      ManifestOf(storage)
    }

    function DownloadedManifest(): (r: Option<string>)
      reads this
      ensures r.Some? <==> KeyDownloadedManifest in storage
      ensures r.Some? ==> r.value == storage[KeyDownloadedManifest]
    {
      Read(storage, KeyDownloadedManifest)
    }

    function NewestManifest(): (m: string)
      reads this
      ensures m == if KeyDownloadedManifest in storage then storage[KeyDownloadedManifest] else Manifest()
    {
      NewestManifestOf(storage)
    }

    method WriteEntry(key: string, value: Option<string>)
      modifies this
      ensures storage == WriteString(old(storage), key, value)
      ensures writes == old(writes) + [Write(key, value)]
    {
      storage := WriteString(storage, key, value);
      writes := writes + [Write(key, value)];
    }

    /** The bundlePath setter: writes only when the value differs from the stored one. */
    method SetBundlePath(value: Option<string>)
      modifies this
      ensures BundlePath() == value
      ensures storage == WriteString(old(storage), KeyBundlePath, value)
      ensures writes == old(writes) + (if value != old(BundlePath()) then [Write(KeyBundlePath, value)] else [])
    {
      var recentPath := Read(storage, KeyBundlePath);
      if value != recentPath {
        WriteEntry(KeyBundlePath, value);
      } else {
        assert WriteString(storage, KeyBundlePath, value) == storage;
      }
    }

    method SetDownloadedBundlePath(value: Option<string>)
      modifies this
      ensures DownloadedBundlePath() == value
      ensures storage == WriteString(old(storage), KeyDownloadedBundlePath, value)
      ensures writes == old(writes) + [Write(KeyDownloadedBundlePath, value)]
    {
      WriteEntry(KeyDownloadedBundlePath, value);
    }

    method SetOutdatedBundlePath(value: Option<string>)
      modifies this
      ensures OutdatedBundlePath() == value
      ensures storage == WriteString(old(storage), KeyBundleOutdated, value)
      ensures writes == old(writes) + [Write(KeyBundleOutdated, value)]
    {
      WriteEntry(KeyBundleOutdated, value);
    }

    /** The manifest setter; reading back gives the manifest unless it is empty. */
    method SetManifest(value: string)
      modifies this
      ensures Manifest() == if value == "" then EmptyManifest else value
      ensures storage == WriteString(old(storage), KeyManifest, Some(value))
      ensures writes == old(writes) + [Write(KeyManifest, Some(value))]
    {
      WriteEntry(KeyManifest, Some(value));
    }

    method SetDownloadedManifest(value: Option<string>)
      modifies this
      ensures DownloadedManifest() == value
      ensures storage == WriteString(old(storage), KeyDownloadedManifest, value)
      ensures writes == old(writes) + [Write(KeyDownloadedManifest, value)]
    {
      WriteEntry(KeyDownloadedManifest, value);
    }

    /** markDownloadedCurrentAndCurrentOutdated, through the five setters in the source's order. */
    method MarkDownloadedCurrentAndCurrentOutdated()
      modifies this
      ensures storage == Promoted(old(storage))
      ensures (old(DownloadedManifest()).None? || old(DownloadedBundlePath()).None?) ==> writes == old(writes)
      ensures old(DownloadedManifest()).Some? && old(DownloadedBundlePath()).Some? ==>
        writes == old(writes)
          + [Write(KeyBundleOutdated, old(BundlePath())), Write(KeyManifest, old(DownloadedManifest()))]
          + (if old(DownloadedBundlePath()) != old(BundlePath()) then [Write(KeyBundlePath, old(DownloadedBundlePath()))] else [])
          + [Write(KeyDownloadedManifest, None), Write(KeyDownloadedBundlePath, None)]
    {
      var downloadedManifest := DownloadedManifest();
      var downloadedBundle := DownloadedBundlePath();
      if downloadedManifest.Some? && downloadedBundle.Some? {
        SetOutdatedBundlePath(BundlePath());
        SetManifest(downloadedManifest.value);
        SetBundlePath(downloadedBundle);
        SetDownloadedManifest(None);
        SetDownloadedBundlePath(None);
      }
    }
  }

  const AmbiguousPersistence :=
    "Unable to determine which persistence to use! If you have more than one ExpoOTA, make sure you provide native packages manually with ids!"

  /** ExpoOTAPersistenceFactory: one persistence per id. */
  class ExpoOTAPersistenceFactory {
    var persistenceMap: map<string, ExpoOTAPersistence>

    constructor ()
      ensures persistenceMap == map[]
    {
      persistenceMap := map[];
    }

    /**
     * persistence: with no id, the only registered persistence (an error unless there
     * is exactly one); with a known id, its persistence; with a new id, a fresh
     * persistence over that id's stored entries `persisted`, registered under the id.
     */
    method Persistence(id: Option<string>, persisted: Storage) returns (r: Result<ExpoOTAPersistence, string>)
      modifies this
      ensures id.None? ==> persistenceMap == old(persistenceMap)
      ensures id.None? && |old(persistenceMap)| == 1 ==>
        r.Success? && exists k :: k in old(persistenceMap) && old(persistenceMap) == map[k := r.value]
      ensures id.None? && |old(persistenceMap)| != 1 ==> r == Failure(AmbiguousPersistence)
      ensures id.Some? && id.value in old(persistenceMap) ==>
        r == Success(old(persistenceMap)[id.value]) && persistenceMap == old(persistenceMap)
      ensures id.Some? && id.value !in old(persistenceMap) ==>
        && r.Success? && fresh(r.value) && r.value.storage == persisted && r.value.writes == []
        && persistenceMap == old(persistenceMap)[id.value := r.value]
    {
      if id.None? {
        if |persistenceMap| == 1 {
          var k :| k in persistenceMap;
          SoleEntry(persistenceMap, k);
          r := Success(persistenceMap[k]);
        } else {
          r := Failure(AmbiguousPersistence);
        }
      } else if id.value in persistenceMap {
        r := Success(persistenceMap[id.value]);
      } else {
        var persistence := new ExpoOTAPersistence(persisted);
        persistenceMap := persistenceMap[id.value := persistence];
        r := Success(persistence);
      }
    }
  }

  /** A map with a single entry is exactly that entry. */
  lemma SoleEntry<V>(m: map<string, V>, k: string)
    requires |m| == 1 && k in m
    ensures m == map[k := m[k]]
  {
    assert |m.Keys - {k}| == |m.Keys| - 1 == 0;
    assert m.Keys == {k} by {
      forall o | o in m.Keys ensures o == k {
        assert o !in m.Keys - {k};
      }
    }
  }
}
