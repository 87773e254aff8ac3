/**
 * The video-cache clearing utilities (src/utils/clearVideoCache.js). Each
 * one evicts, from `localStorage` and usually `sessionStorage` too, the keys
 * that contain one of a list of words. A store that cannot be reached throws
 * at its first use: `clearVideoCache` and `clearCategoryCache` catch that and
 * report `false`, the other two let it escape, and in every case nothing after
 * the failing call happens.
 */
module ClearVideoCache {
  import opened Text
  import opened WebStorage

  /** The keys `clearVideoCache` removes. */
  predicate VideoKey(key: string) {
    Contains(key, "video") || Contains(key, "youtube") || Contains(key, "cache")
    || Contains(key, "playlist") || Contains(key, "beads") || Contains(key, "jewelry")
  }

  /** The keys `clearCategoryCache(categoryId)` removes. */
  predicate CategoryKey(categoryId: int, key: string) {
    Contains(key, "category_" + IntToString(categoryId)) || Contains(key, "videos_" + IntToString(categoryId))
    || Contains(key, "playlist_" + IntToString(categoryId)) || (categoryId == 4 && Contains(key, "beads"))
  }

  /** `CategoryKey` for one category, as the eviction loop takes it. */
  function CategorySelector(categoryId: int): string -> bool {
    key => CategoryKey(categoryId, key)
  }

  /** The keys the second pass of `clearBeadsCache` removes. */
  predicate DeletedVideoKey(key: string) {
    Contains(key, "gjqDo2LcBf4") || Contains(key, "labubu") || Contains(key, "Labubu")
    || Contains(key, "Deleted video") || Contains(key, "Private video")
  }

  /** The keys `clearYouTubeCache` removes. */
  predicate YouTubeKey(key: string) {
    Contains(key, "youtube") || Contains(key, "playlist") || Contains(key, "videos")
  }

  /** `clearVideoCache()`: `true` when both stores were reached and cleared. */
  method ClearVideoCache<V>(local: Storage<V>, session: Storage<V>) returns (ok: bool)
    requires local != session && local.Valid() && session.Valid()
    modifies local, session
    ensures local.Valid() && session.Valid()
    ensures ok == (local.accessible && session.accessible)
    ensures local.items == if local.accessible then Kept(old(local.items), VideoKey) else old(local.items)
    ensures session.items == if ok then Kept(old(session.items), VideoKey) else old(session.items)
  {
    if !local.accessible {
      return false;
    }
    var removedLocal := RemoveMatching(local, VideoKey);
    if !session.accessible {
      return false;
    }
    var removedSession := RemoveMatching(session, VideoKey);
    return true;
  }

  /** `clearCategoryCache(categoryId)`: `true` when both stores were reached and cleared. */
  method ClearCategoryCache<V>(local: Storage<V>, session: Storage<V>, categoryId: int) returns (ok: bool)
    requires local != session && local.Valid() && session.Valid()
    modifies local, session
    ensures local.Valid() && session.Valid()
    ensures ok == (local.accessible && session.accessible)
    ensures local.items ==
      if local.accessible then Kept(old(local.items), CategorySelector(categoryId)) else old(local.items)
    ensures session.items ==
      if ok then Kept(old(session.items), CategorySelector(categoryId)) else old(session.items)
  {
    if !local.accessible {
      return false;
    }
    var removedLocal := RemoveMatching(local, CategorySelector(categoryId));
    if !session.accessible {
      return false;
    }
    var removedSession := RemoveMatching(session, CategorySelector(categoryId));
    return true;
  }

  /**
   * `clearBeadsCache()`: category 4 from both stores, then the deleted-video
   * keys from `localStorage` only.
   */
  method ClearBeadsCache<V>(local: Storage<V>, session: Storage<V>)
    requires local != session && local.Valid() && session.Valid()
    modifies local, session
    ensures local.Valid() && session.Valid()
    ensures local.items ==
      if local.accessible then Kept(Kept(old(local.items), CategorySelector(4)), DeletedVideoKey) else old(local.items)
    ensures session.items ==
      if local.accessible && session.accessible then Kept(old(session.items), CategorySelector(4)) else old(session.items)
  {
    var ok := ClearCategoryCache(local, session, 4);
    if !local.accessible {
      return;
    }
    var removed := RemoveMatching(local, DeletedVideoKey);
  }

  /** `clearYouTubeCache()`. */
  method ClearYouTubeCache<V>(local: Storage<V>, session: Storage<V>)
    requires local != session && local.Valid() && session.Valid()
    modifies local, session
    ensures local.Valid() && session.Valid()
    ensures local.items == if local.accessible then Kept(old(local.items), YouTubeKey) else old(local.items)
    ensures session.items ==
      if local.accessible && session.accessible then Kept(old(session.items), YouTubeKey) else old(session.items)
  {
    if !local.accessible {
      return;
    }
    var removedLocal := RemoveMatching(local, YouTubeKey);
    if !session.accessible {
      return;
    }
    var removedSession := RemoveMatching(session, YouTubeKey);
  }

  /**
   * The category words are matched as substrings, so clearing category `n`
   * also clears every key for a category whose number starts with the digits
   * of `n`: clearing category 1 clears categories 10 and 11.
   */
  lemma CategoryPrefixOverreach(n: int, rest: string)
    ensures CategoryKey(n, "category_" + IntToString(n) + rest)
    ensures CategoryKey(n, "videos_" + IntToString(n) + rest)
    ensures CategoryKey(n, "playlist_" + IntToString(n) + rest)
  {
    ContainsInfix([], "category_" + IntToString(n), rest);
    ContainsInfix([], "videos_" + IntToString(n), rest);
    ContainsInfix([], "playlist_" + IntToString(n), rest);
    assert [] + ("category_" + IntToString(n)) + rest == "category_" + IntToString(n) + rest;
    assert [] + ("videos_" + IntToString(n)) + rest == "videos_" + IntToString(n) + rest;
    assert [] + ("playlist_" + IntToString(n)) + rest == "playlist_" + IntToString(n) + rest;
  }

  /** Clearing category 1 removes the keys of categories 10 and 11. */
  lemma CategoryOneClearsTenAndEleven()
    ensures CategoryKey(1, "category_10") && CategoryKey(1, "category_11")
    ensures CategoryKey(1, "videos_10") && CategoryKey(1, "playlist_11")
  {
    assert IntToString(1) == "1";
    CategoryPrefixOverreach(1, "0");
    CategoryPrefixOverreach(1, "1");
    assert "category_" + IntToString(1) + "0" == "category_10";
    assert "category_" + IntToString(1) + "1" == "category_11";
    assert "videos_" + IntToString(1) + "0" == "videos_10";
    assert "playlist_" + IntToString(1) + "1" == "playlist_11";
  }

  /** Each eviction is idempotent: running it again removes nothing. */
  lemma EvictionsIdempotent<V>(m: map<string, V>, categoryId: int)
    ensures Kept(Kept(m, VideoKey), VideoKey) == Kept(m, VideoKey)
    ensures Kept(Kept(m, CategorySelector(categoryId)), CategorySelector(categoryId)) == Kept(m, CategorySelector(categoryId))
    ensures Kept(Kept(m, YouTubeKey), YouTubeKey) == Kept(m, YouTubeKey)
    ensures Kept(Kept(m, DeletedVideoKey), DeletedVideoKey) == Kept(m, DeletedVideoKey)
  {
    KeptIdempotent(m, VideoKey);
    KeptIdempotent(m, CategorySelector(categoryId));
    KeptIdempotent(m, YouTubeKey);
    KeptIdempotent(m, DeletedVideoKey);
  }
}
