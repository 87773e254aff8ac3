/**
 * The Pinterest hooks (src/hooks/usePinterestPins.js): a module-wide cache of
 * `{data, timestamp}` entries, fresh for ten minutes, read by every hook
 * before it calls the service, and the cache utilities (clear, size, info).
 *
 * The cache map is kept in insertion order (`order`), which is the order a
 * JavaScript `Map` is iterated in. A hook is a class holding its React state;
 * its fetch method is the body of the hook's `fetch` function, with the two
 * readings of the clock as parameters: `now` when the cache is read and
 * `storedAt` when the fetched data is stored.
 */
module PinterestHooks {
  import opened Wrappers
  import opened Text
  import opened CacheKeys
  import opened PinterestApi

  /** How long an entry is served: ten minutes, in milliseconds. */
  const CacheDuration := 10 * 60 * 1000

  // ------------------------------------------------------------------- keys

  /** A cache entry's identity: the kind of data and the hook's parameters. */
  datatype HookKey =
    | BoardsEntry
    | BoardPinsEntry(boardId: string, pageSize: int)
    | CategoryPinsEntry(categoryId: int, pageSize: int)
    | FeaturedPinsEntry(pinsPerCategory: int)
    | SearchPinsEntry(query: string, pageSize: int)

  function HookKind(k: HookKey): string {
    match k
    case BoardsEntry => "boards"
    case BoardPinsEntry(_, _) => "board_pins"
    case CategoryPinsEntry(_, _) => "category_pins"
    case FeaturedPinsEntry(_) => "featured_pins"
    case SearchPinsEntry(_, _) => "search_pins"
  }

  function HookParams(k: HookKey): seq<(string, JsonValue)> {
    match k
    case BoardsEntry => []
    case BoardPinsEntry(boardId, pageSize) => [("boardId", JStr(boardId)), ("pageSize", JNum(pageSize))]
    case CategoryPinsEntry(categoryId, pageSize) => [("categoryId", JNum(categoryId)), ("pageSize", JNum(pageSize))]
    case FeaturedPinsEntry(pinsPerCategory) => [("pinsPerCategory", JNum(pinsPerCategory))]
    case SearchPinsEntry(query, pageSize) => [("query", JStr(query)), ("pageSize", JNum(pageSize))]
  }

  /** The string `getCacheKey(type, params)` builds for a key. */
  function HookKeyText(k: HookKey): string {
    CacheKey(HookKind(k), HookParams(k))
  }

  /** No kind holds the brace that opens the parameters. */
  lemma HookKindNoBrace(k: HookKey)
    ensures '{' !in HookKind(k)
  {
    match k
    case BoardsEntry => assert HookKind(k) == "boards";
    case BoardPinsEntry(_, _) => assert HookKind(k) == "board_pins";
    case CategoryPinsEntry(_, _) => assert HookKind(k) == "category_pins";
    case FeaturedPinsEntry(_) => assert HookKind(k) == "featured_pins";
    case SearchPinsEntry(_, _) => assert HookKind(k) == "search_pins";
  }

  /** Keys of different kinds have different texts. */
  lemma HookKindsSeparate(k1: HookKey, k2: HookKey)
    requires HookKind(k1) != HookKind(k2)
    ensures HookKeyText(k1) != HookKeyText(k2)
  {
    HookKindNoBrace(k1);
    HookKindNoBrace(k2);
    KindsSeparate(HookKind(k1), HookKind(k2), HookParams(k1), HookParams(k2));
  }

  /** Keys of one kind have the same text only when their parameters are equal. */
  lemma HookParamsSeparate(k1: HookKey, k2: HookKey)
    requires HookKind(k1) == HookKind(k2) && k1 != k2
    ensures HookKeyText(k1) != HookKeyText(k2)
  {
    match k1
    case BoardsEntry =>
    case BoardPinsEntry(b1, p1) =>
      var BoardPinsEntry(b2, p2) := k2;
      StringNumberKeyInjective("board_pins", "boardId", "pageSize", b1, p1, b2, p2);
    case CategoryPinsEntry(c1, p1) =>
      var CategoryPinsEntry(c2, p2) := k2;
      NumberNumberKeyInjective("category_pins", "categoryId", "pageSize", c1, p1, c2, p2);
    case FeaturedPinsEntry(n1) =>
      var FeaturedPinsEntry(n2) := k2;
      NumberKeyInjective("featured_pins", "pinsPerCategory", n1, n2);
    case SearchPinsEntry(q1, p1) =>
      var SearchPinsEntry(q2, p2) := k2;
      StringNumberKeyInjective("search_pins", "query", "pageSize", q1, p1, q2, p2);
  }

  /**
   * Two keys have the same text exactly when they are the same key, so the
   * map indexed by `HookKey` behaves as the hooks' `Map` indexed by text.
   */
  lemma HookKeyTextInjective(k1: HookKey, k2: HookKey)
    ensures HookKeyText(k1) == HookKeyText(k2) <==> k1 == k2
  {
    if HookKind(k1) != HookKind(k2) {
      HookKindsSeparate(k1, k2);
    } else if k1 != k2 {
      HookParamsSeparate(k1, k2);
    }
  }

  // ---------------------------------------------------------------- entries

  /** What a hook stores: a list of boards, a list of pins or the featured map. */
  datatype CacheData = BoardList(boards: seq<Board>) | PinList(pins: seq<Pin>) | FeaturedMap(featured: map<int, seq<Pin>>)

  datatype Entry = Entry(data: CacheData, timestamp: int)

  /** The kind of data each key holds. */
  predicate Fits(k: HookKey, d: CacheData) {
    match k
    case BoardsEntry => d.BoardList?
    case FeaturedPinsEntry(_) => d.FeaturedMap?
    case _ => d.PinList?
  }

  /** The data as each hook reads it. */
  function AsBoards(d: CacheData): seq<Board> {
    if d.BoardList? then d.boards else []
  }

  function AsPins(d: CacheData): seq<Pin> {
    if d.PinList? then d.pins else []
  }

  function AsFeatured(d: CacheData): map<int, seq<Pin>> {
    if d.FeaturedMap? then d.featured else map[]
  }

  /** Data stored under a key is read back unchanged by the hook that owns the key. */
  lemma FitsReadBack(k: HookKey, d: CacheData)
    requires Fits(k, d)
    ensures k.BoardsEntry? ==> d == BoardList(AsBoards(d))
    ensures k.FeaturedPinsEntry? ==> d == FeaturedMap(AsFeatured(d))
    ensures !k.BoardsEntry? && !k.FeaturedPinsEntry? ==> d == PinList(AsPins(d))
  {
  }

  /** `getCachedData(key)` at time `now`: the data of an entry younger than ten minutes. */
  function Lookup(entries: map<HookKey, Entry>, key: HookKey, now: int): (r: Option<CacheData>)
    ensures r.Some? <==> key in entries && now - entries[key].timestamp < 600000
    ensures r.Some? ==> r.value == entries[key].data
  {
    if key in entries && now - entries[key].timestamp < CacheDuration then Some(entries[key].data) else None
  }

  /** One record of `getCacheInfo()`. */
  datatype CacheInfo = CacheInfo(key: HookKey, size: nat, age: int, expired: bool)

  /** The size `getCacheInfo` reports: the length of a list, 1 for the featured map. */
  function DataSize(d: CacheData): nat {
    match d
    case BoardList(boards) => |boards|
    case PinList(pins) => |pins|
    case FeaturedMap(_) => 1
  }

  function EntryInfo(key: HookKey, e: Entry, now: int): CacheInfo {
    CacheInfo(key, DataSize(e.data), now - e.timestamp, now - e.timestamp > CacheDuration)
  }

  /**
   * Serving and expiry disagree at the boundary: an entry exactly ten
   * minutes old is no longer served, yet the info does not call it expired.
   * Below the boundary it is served, above it it is expired.
   */
  lemma FreshnessBoundary(entries: map<HookKey, Entry>, key: HookKey, now: int)
    requires key in entries
    ensures now - entries[key].timestamp == 600000 ==>
      Lookup(entries, key, now).None? && !EntryInfo(key, entries[key], now).expired
    ensures now - entries[key].timestamp < 600000 ==>
      Lookup(entries, key, now).Some? && !EntryInfo(key, entries[key], now).expired
    ensures now - entries[key].timestamp > 600000 ==>
      Lookup(entries, key, now).None? && EntryInfo(key, entries[key], now).expired
  {
  }

  /** Writing a key replaces that key's entry and no other. */
  lemma SetThenLookup(entries: map<HookKey, Entry>, key: HookKey, d: CacheData, t: int, other: HookKey, now: int)
    ensures Lookup(entries[key := Entry(d, t)], key, now) == if now - t < 600000 then Some(d) else None
    ensures other != key ==> Lookup(entries[key := Entry(d, t)], other, now) == Lookup(entries, other, now)
  {
  }

  /** A sequence without repetitions has as many distinct elements as it has elements. */
  lemma {:induction false} DistinctCount<T>(s: seq<T>)
    requires forall i, j :: 0 <= i < j < |s| ==> s[i] != s[j]
    ensures |set x | x in s| == |s|
  {
    if s != [] {
      DistinctCount(s[1..]);
      assert (set x | x in s) == {s[0]} + (set x | x in s[1..]);
    }
  }

  // ------------------------------------------------------------------ cache

  /** `pinterestCache`: the entries, and their keys in insertion order. */
  class PinCache {
    var entries: map<HookKey, Entry>
    var order: seq<HookKey>

    ghost predicate Valid()
      reads this
    {
      && (forall i, j :: 0 <= i < j < |order| ==> order[i] != order[j])
      && (set k | k in order) == entries.Keys
      && (forall k :: k in entries ==> Fits(k, entries[k].data))
    }

    constructor ()
      ensures Valid() && entries == map[] && order == []
    {
      entries, order := map[], [];
    }

    /** `getCachedData(key)`. */
    function GetCachedData(key: HookKey, now: int): Option<CacheData>
      reads this
    {
      Lookup(entries, key, now)
    }

    /** `setCachedData(key, data)`: the entry is replaced in place, or added last. */
    method SetCachedData(key: HookKey, data: CacheData, now: int)
      requires Valid() && Fits(key, data)
      modifies this
      ensures Valid()
      ensures entries == old(entries)[key := Entry(data, now)]
      ensures order == if key in old(entries) then old(order) else old(order) + [key]
    {
      if key !in entries {
        order := order + [key];
      }
      entries := entries[key := Entry(data, now)];
    }

    /** `clearCache()`. */
    method ClearCache()
      modifies this
      ensures Valid() && entries == map[] && order == []
    {
      entries, order := map[], [];
    }

    /** `getCacheSize()`: the number of entries, one per key in insertion order. */
    function GetCacheSize(): (r: nat)
      requires Valid()
      reads this
      ensures r == |order|
    {
      DistinctCount(order);
      |entries|
    }

    /** `getCacheInfo()`: one record per entry, in insertion order; the cache is not changed. */
    method GetCacheInfo(now: int) returns (info: seq<CacheInfo>)
      requires Valid()
      ensures |info| == |order|
      ensures forall i :: 0 <= i < |order| ==> order[i] in entries && info[i] == EntryInfo(order[i], entries[order[i]], now)
      ensures forall i :: 0 <= i < |info| ==>
        info[i].size == (if entries[order[i]].data.FeaturedMap? then 1 else DataSize(entries[order[i]].data))
        && info[i].expired == (info[i].age > 600000)
    {
      info := [];
      for i := 0 to |order|
        invariant |info| == i
        invariant forall j :: 0 <= j < i ==> order[j] in entries && info[j] == EntryInfo(order[j], entries[order[j]], now)
      {
        var key := order[i];
        assert key in (set k | k in order);
        var value := entries[key];
        info := info + [EntryInfo(key, value, now)];
      }
    }
  }

  /** After `clearCache()` the size is 0 and every lookup misses. */
  lemma ClearedCacheMisses(entries: map<HookKey, Entry>, key: HookKey, now: int)
    requires |entries| == 0
    ensures Lookup(entries, key, now).None?
  {
  }

  // ------------------------------------------------------------------ hooks

  /** `usePinterestBoards()`. */
  class BoardsHook {
    var boards: seq<Board>
    var loading: bool
    var error: Option<string>

    constructor ()
      ensures boards == [] && loading && error == None
    {
      boards, loading, error := [], true, None;
    }

    /** `fetchBoards()`: a fresh entry is used as is; otherwise the service is asked and its answer stored. */
    method FetchBoards(cache: PinCache, client: PinterestClient, now: int, storedAt: int)
      requires cache.Valid()
      modifies this, cache, client
      ensures cache.Valid() && !loading && error == None
      ensures var hit := Lookup(old(cache.entries), BoardsEntry, now);
        if hit.Some? then
          boards == AsBoards(hit.value) && client.State() == old(client.State())
          && cache.entries == old(cache.entries) && cache.order == old(cache.order)
        else
          (boards, client.State()) == UserBoardsSpec(client.Environment(), old(client.State()))
          && cache.entries == old(cache.entries)[BoardsEntry := Entry(BoardList(boards), storedAt)]
          && cache.order == if BoardsEntry in old(cache.entries) then old(cache.order) else old(cache.order) + [BoardsEntry]
    {
      loading := true;
      error := None;
      var cached := cache.GetCachedData(BoardsEntry, now);
      if cached.Some? {
        boards := AsBoards(cached.value);
        loading := false;
        return;
      }
      var boardsData := client.FetchUserBoards();
      boards := boardsData;
      cache.SetCachedData(BoardsEntry, BoardList(boardsData), storedAt);
      loading := false;
    }
  }

  /** `useBoardPins(boardId, pageSize)`. */
  class BoardPinsHook {
    const boardId: string
    const pageSize: int
    var pins: seq<Pin>
    var loading: bool
    var error: Option<string>

    constructor (boardId: string, pageSize: int := 25)
      ensures this.boardId == boardId && this.pageSize == pageSize
      ensures pins == [] && loading && error == None
    {
      this.boardId, this.pageSize := boardId, pageSize;
      pins, loading, error := [], true, None;
    }

    /** `fetchPins()`: without a board id only `loading` is cleared. */
    method FetchPins(cache: PinCache, client: PinterestClient, now: int, storedAt: int)
      requires cache.Valid()
      modifies this, cache, client
      ensures cache.Valid() && !loading
      ensures boardId == "" ==>
        pins == old(pins) && error == old(error) && client.State() == old(client.State())
        && cache.entries == old(cache.entries) && cache.order == old(cache.order)
      ensures boardId != "" ==>
        error == None &&
        var key := BoardPinsEntry(boardId, pageSize);
        var hit := Lookup(old(cache.entries), key, now);
        if hit.Some? then
          pins == AsPins(hit.value) && client.State() == old(client.State()) && cache.entries == old(cache.entries) && cache.order == old(cache.order)
        else
          (pins, client.State()) == BoardPinsSpec(client.Environment(), old(client.State()), boardId, pageSize)
          && cache.entries == old(cache.entries)[key := Entry(PinList(pins), storedAt)]
          && cache.order == if key in old(cache.entries) then old(cache.order) else old(cache.order) + [key]
    {
      if boardId == "" {
        loading := false;
        return;
      }
      loading := true;
      error := None;
      var key := BoardPinsEntry(boardId, pageSize);
      var cached := cache.GetCachedData(key, now);
      if cached.Some? {
        pins := AsPins(cached.value);
        loading := false;
        return;
      }
      var pinsData := client.FetchBoardPins(boardId, pageSize);
      pins := pinsData;
      cache.SetCachedData(key, PinList(pinsData), storedAt);
      loading := false;
    }
  }

  /**
   * `useCategoryPins(categoryId, pageSize)`. The id is `None` for NaN, which
   * `parseInt` gives on a route such as `/pictures/category/origami`.
   */
  class CategoryPinsHook {
    const categoryId: Option<int>
    const pageSize: int
    var pins: seq<Pin>
    var loading: bool
    var error: Option<string>

    constructor (categoryId: Option<int>, pageSize: int := 25)
      ensures this.categoryId == categoryId && this.pageSize == pageSize
      ensures pins == [] && loading && error == None
    {
      this.categoryId, this.pageSize := categoryId, pageSize;
      pins, loading, error := [], true, None;
    }

    /** `fetchPins()`: a falsy id (NaN or 0) only clears `loading`. */
    method FetchPins(cache: PinCache, client: PinterestClient, now: int, storedAt: int)
      requires cache.Valid()
      modifies this, cache, client
      ensures cache.Valid() && !loading
      ensures categoryId.None? || categoryId.value == 0 ==>
        pins == old(pins) && error == old(error) && client.State() == old(client.State())
        && cache.entries == old(cache.entries) && cache.order == old(cache.order)
      ensures categoryId.Some? && categoryId.value != 0 ==>
        error == None &&
        var key := CategoryPinsEntry(categoryId.value, pageSize);
        var hit := Lookup(old(cache.entries), key, now);
        if hit.Some? then
          pins == AsPins(hit.value) && client.State() == old(client.State()) && cache.entries == old(cache.entries) && cache.order == old(cache.order)
        else
          (pins, client.State()) == CategoryPinsSpec(client.Environment(), old(client.State()), categoryId.value, pageSize)
          && cache.entries == old(cache.entries)[key := Entry(PinList(pins), storedAt)]
          && cache.order == if key in old(cache.entries) then old(cache.order) else old(cache.order) + [key]
    {
      if categoryId.None? || categoryId.value == 0 {
        loading := false;
        return;
      }
      var id := categoryId.value;
      loading := true;
      error := None;
      var key := CategoryPinsEntry(id, pageSize);
      var cached := cache.GetCachedData(key, now);
      if cached.Some? {
        pins := AsPins(cached.value);
        loading := false;
        return;
      }
      var pinsData := client.FetchCategoryPins(id, pageSize);
      pins := pinsData;
      cache.SetCachedData(key, PinList(pinsData), storedAt);
      loading := false;
    }
  }

  /** `useFeaturedPins(pinsPerCategory)`. */
  class FeaturedPinsHook {
    const pinsPerCategory: int
    var featuredPins: map<int, seq<Pin>>
    var loading: bool
    var error: Option<string>

    constructor (pinsPerCategory: int := 6)
      ensures this.pinsPerCategory == pinsPerCategory
      ensures featuredPins == map[] && loading && error == None
    {
      this.pinsPerCategory := pinsPerCategory;
      featuredPins, loading, error := map[], true, None;
    }

    /** `fetchPins()`. */
    method FetchPins(cache: PinCache, client: PinterestClient, now: int, storedAt: int)
      requires cache.Valid()
      modifies this, cache, client
      ensures cache.Valid() && !loading && error == None
      ensures var key := FeaturedPinsEntry(pinsPerCategory);
        var hit := Lookup(old(cache.entries), key, now);
        if hit.Some? then
          featuredPins == AsFeatured(hit.value) && client.State() == old(client.State())
          && cache.entries == old(cache.entries) && cache.order == old(cache.order)
        else
          (featuredPins, client.State()) ==
            FeaturedFrom(client.Environment(), old(client.State()), FeaturedCategories, pinsPerCategory)
          && cache.entries == old(cache.entries)[key := Entry(FeaturedMap(featuredPins), storedAt)]
          && cache.order == if key in old(cache.entries) then old(cache.order) else old(cache.order) + [key]
    {
      loading := true;
      error := None;
      var key := FeaturedPinsEntry(pinsPerCategory);
      var cached := cache.GetCachedData(key, now);
      if cached.Some? {
        featuredPins := AsFeatured(cached.value);
        loading := false;
        return;
      }
      var pinsData := client.FetchFeaturedPins(pinsPerCategory);
      featuredPins := pinsData;
      cache.SetCachedData(key, FeaturedMap(pinsData), storedAt);
      loading := false;
    }
  }

  /** `useSearchPins(initialQuery, pageSize)`. */
  class SearchPinsHook {
    const pageSize: int
    var pins: seq<Pin>
    var loading: bool
    var error: Option<string>
    var query: string

    constructor (initialQuery: string, pageSize: int := 25)
      ensures this.pageSize == pageSize
      ensures pins == [] && !loading && error == None && query == initialQuery
    {
      this.pageSize := pageSize;
      pins, loading, error, query := [], false, None, initialQuery;
    }

    /**
     * `search(searchQuery)`: a blank query empties the results and does
     * nothing else; otherwise the query is remembered and answered from the
     * cache or the service.
     */
    method Search(searchQuery: string, cache: PinCache, client: PinterestClient, now: int, storedAt: int)
      requires cache.Valid()
      modifies this, cache, client
      ensures cache.Valid()
      ensures Trim(searchQuery) == "" ==>
        pins == [] && loading == old(loading) && error == old(error) && query == old(query)
        && client.State() == old(client.State()) && cache.entries == old(cache.entries) && cache.order == old(cache.order)
      ensures Trim(searchQuery) != "" ==>
        !loading && error == None && query == searchQuery &&
        var key := SearchPinsEntry(searchQuery, pageSize);
        var hit := Lookup(old(cache.entries), key, now);
        if hit.Some? then
          pins == AsPins(hit.value) && client.State() == old(client.State()) && cache.entries == old(cache.entries) && cache.order == old(cache.order)
        else
          (pins, client.State()) == SearchSpec(client.Environment(), old(client.State()), searchQuery, pageSize)
          && cache.entries == old(cache.entries)[key := Entry(PinList(pins), storedAt)]
          && cache.order == if key in old(cache.entries) then old(cache.order) else old(cache.order) + [key]
    {
      if Trim(searchQuery) == "" {
        pins := [];
        return;
      }
      loading := true;
      error := None;
      query := searchQuery;
      var key := SearchPinsEntry(searchQuery, pageSize);
      var cached := cache.GetCachedData(key, now);
      if cached.Some? {
        pins := AsPins(cached.value);
        loading := false;
        return;
      }
      var pinsData := client.SearchPins(searchQuery, pageSize);
      pins := pinsData;
      cache.SetCachedData(key, PinList(pinsData), storedAt);
      loading := false;
    }
  }
}
