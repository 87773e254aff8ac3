/**
 * The Pinterest cache clearing utility (src/utils/clearPinterestCache.js):
 * every `localStorage` key starting with `pinterest_` is removed, and the
 * number removed is reported. The alert and the page reload that follow are
 * not part of this model.
 */
module ClearPinterestCache {
  import opened Wrappers
  import opened Text
  import opened WebStorage
  import PinterestRss

  /** The keys `clearPinterestCache` removes. */
  predicate PinterestKey(key: string) {
    StartsWith(key, "pinterest_")
  }

  /**
   * `clearPinterestCache()`: the count of removed keys, or `None` when
   * `localStorage` cannot be reached and the call throws before removing
   * anything.
   */
  method ClearPinterestCache<V>(local: Storage<V>) returns (clearedCount: Option<nat>)
    requires local.Valid()
    modifies local
    ensures local.Valid()
    ensures !local.accessible ==> clearedCount.None? && local.items == old(local.items)
    ensures local.accessible ==>
      && local.items == Kept(old(local.items), PinterestKey)
      && clearedCount == Some(|Selected(old(local.items), PinterestKey)|)
  {
    if !local.accessible {
      return None;
    }
    var count := RemoveMatching(local, PinterestKey);
    return Some(count);
  }

  /** Clearing leaves no `pinterest_` key and every other entry as it was; a second clear reports 0. */
  lemma ClearPinterestCacheComplete<V>(m: map<string, V>)
    ensures forall k :: k in Kept(m, PinterestKey) ==> !StartsWith(k, "pinterest_") && Kept(m, PinterestKey)[k] == m[k]
    ensures forall k :: k in m && !StartsWith(k, "pinterest_") ==> k in Kept(m, PinterestKey)
    ensures |Selected(Kept(m, PinterestKey), PinterestKey)| == 0
  {
    KeptIdempotent(m, PinterestKey);
  }

  /** The RSS image cache entries are among the keys cleared. */
  lemma RssEntriesCleared(categoryId: int)
    ensures PinterestKey(PinterestRss.RssCacheKey(categoryId))
  {
    var key := PinterestRss.RssCacheKey(categoryId);
    assert key == "pinterest_" + ("images_" + IntToString(categoryId));
    assert key[..10] == "pinterest_";
  }
}
