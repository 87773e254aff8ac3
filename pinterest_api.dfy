/**
 * The Pinterest API service (src/services/pinterestApi.js): cached,
 * quota-gated fetches of the user profile, the boards and a board's pins, the
 * pin transform, the category-to-board resolution, the client-side search and
 * the featured-pins collection.
 *
 * The cache manager the service imports is not part of this model. It is
 * modelled by what the service relies on: `getCache` answers from a store of
 * live entries, `setCache` writes an entry and its requested lifetime,
 * `shouldMakeApiCall` is a gate whose answer is taken as fixed during the
 * client's life, and `recordApiUsage` counts one use. The network is an
 * input (`Network`), and every request is appended to a call log.
 */
module PinterestApi {
  import opened Wrappers
  import opened Text
  import opened CacheKeys

  // ----------------------------------------------------------------- data

  /** A board as listed by the boards endpoint. */
  datatype Board = Board(id: string, name: string)

  /** The user-account record, passed through unchanged. */
  datatype Profile = Profile(id: string, username: string)

  /** A pin as the board-pins endpoint returns it; absent or null fields are `None`. */
  datatype RawPin = RawPin(
    id: string,
    title: Option<string>,
    description: Option<string>,
    image600: Option<string>,
    imageOriginal: Option<string>,
    image236: Option<string>,
    link: Option<string>,
    boardId: Option<string>,
    createdAt: Option<string>,
    note: Option<string>,
    dominantColor: Option<string>,
    altText: Option<string>)

  /** A pin in the service's own format. */
  datatype Pin = Pin(
    id: string,
    title: string,
    description: string,
    imageUrl: Option<string>,
    thumbnailUrl: Option<string>,
    link: Option<string>,
    boardId: Option<string>,
    createdAt: Option<string>,
    note: string,
    dominantColor: Option<string>,
    altText: string)

  /** What the network answers: `Fail` stands for a failed request, a non-OK status or a body that is not JSON. */
  datatype Network = Network(
    userAccount: Response<Profile>,
    boards: Response<Option<seq<Board>>>,
    boardPins: (string, int) -> Response<Option<seq<RawPin>>>)

  /** One request sent to the API. */
  datatype ApiCall = UserAccountCall | BoardsCall(pageSize: int) | BoardPinsCall(boardId: string, pageSize: int)

  /** The environment of the service: token present, the quota gate's answer, the network. */
  datatype Env = Env(hasToken: bool, quotaOpen: bool, net: Network)

  /**
   * The state the service changes: the cache manager's entries by kind of
   * value with their requested lifetimes, the usage count and the call log.
   */
  datatype ApiState = ApiState(
    profiles: map<Key, Profile>,
    boardLists: map<Key, seq<Board>>,
    pinLists: map<Key, seq<Pin>>,
    ttl: map<Key, int>,
    usage: nat,
    calls: seq<ApiCall>)

  // ------------------------------------------------------------- constants

  const Hour := 60 * 60 * 1000
  const ProfileTtl := 24 * Hour
  const BoardsTtl := 6 * Hour
  const PinsTtl := 2 * Hour
  const SearchTtl := Hour

  /** The largest page the board-pins request asks for. */
  const MaxPageSize := 100

  /** A cache entry's identity: the kind of resource and its parameters. */
  datatype Key = ProfileKey | BoardsKey | BoardPinsKey(boardId: string, pageSize: int) | SearchKey(query: string, pageSize: int)

  function Kind(k: Key): string {
    match k
    case ProfileKey => "user_profile"
    case BoardsKey => "user_boards"
    case BoardPinsKey(_, _) => "board_pins"
    case SearchKey(_, _) => "search"
  }

  function Params(k: Key): seq<(string, JsonValue)> {
    match k
    case ProfileKey => []
    case BoardsKey => []
    case BoardPinsKey(boardId, pageSize) => [("boardId", JStr(boardId)), ("pageSize", JNum(pageSize))]
    case SearchKey(query, pageSize) => [("query", JStr(query)), ("pageSize", JNum(pageSize))]
  }

  /** The string `generatePinterestCacheKey(kind, params)` builds for a key. */
  function KeyText(k: Key): string {
    CacheKey(Kind(k), Params(k))
  }

  /**
   * Two keys have the same text exactly when they are the same key, so a
   * store indexed by `Key` behaves as the cache manager's store indexed by
   * the key text.
   */
  lemma KeyTextInjective(k1: Key, k2: Key)
    ensures KeyText(k1) == KeyText(k2) <==> k1 == k2
  {
    if Kind(k1) != Kind(k2) {
      KindsSeparate(Kind(k1), Kind(k2), Params(k1), Params(k2));
    } else {
      match k1
      case ProfileKey =>
      case BoardsKey =>
      case BoardPinsKey(b1, p1) =>
        var BoardPinsKey(b2, p2) := k2;
        StringNumberKeyInjective("board_pins", "boardId", "pageSize", b1, p1, b2, p2);
      case SearchKey(q1, p1) =>
        var SearchKey(q2, p2) := k2;
        StringNumberKeyInjective("search", "query", "pageSize", q1, p1, q2, p2);
    }
  }

  // ---------------------------------------------------------- pin transform

  /** The transform of one pin into the service's format. */
  function TransformPin(p: RawPin): (r: Pin)
    ensures r.id == p.id && r.link == p.link && r.boardId == p.boardId
    ensures r.createdAt == p.createdAt && r.dominantColor == p.dominantColor
    ensures r.title != "" && r.altText != ""
    ensures Truthy(p.title) ==> r.title == p.title.value
    ensures !Truthy(p.title) ==> r.title == "Untitled"
    ensures Truthy(p.description) ==> r.description == p.description.value
    ensures !Truthy(p.description) ==> r.description == ""
    ensures Truthy(p.note) ==> r.note == p.note.value
    ensures !Truthy(p.note) ==> r.note == ""
    ensures Truthy(p.image600) ==> r.imageUrl == p.image600
    ensures !Truthy(p.image600) ==> r.imageUrl == p.imageOriginal
    ensures r.thumbnailUrl == p.image236
    ensures Truthy(p.altText) ==> r.altText == p.altText.value
    ensures !Truthy(p.altText) && Truthy(p.title) ==> r.altText == p.title.value
    ensures !Truthy(p.altText) && !Truthy(p.title) ==> r.altText == "Pinterest image"
  {
    Pin(
      id := p.id,
      title := OrElse(p.title, "Untitled"),
      description := OrElse(p.description, ""),
      imageUrl := if Truthy(p.image600) then p.image600 else p.imageOriginal,
      thumbnailUrl := p.image236,
      link := p.link,
      boardId := p.boardId,
      createdAt := p.createdAt,
      note := OrElse(p.note, ""),
      dominantColor := p.dominantColor,
      altText := OrElse(p.altText, OrElse(p.title, "Pinterest image")))
  }

  /** `pins.map(transform)`. */
  function TransformPins(raw: seq<RawPin>): (r: seq<Pin>)
    ensures |r| == |raw| && forall i :: 0 <= i < |raw| ==> r[i] == TransformPin(raw[i])
  {
    seq(|raw|, i requires 0 <= i < |raw| => TransformPin(raw[i]))
  }

  // ------------------------------------------------- specification of fetches

  /** `fetchUserProfile()`. */
  function ProfileSpec(e: Env, s: ApiState): (Option<Profile>, ApiState) {
    if !e.hasToken then (None, s)
    else if ProfileKey in s.profiles then (Some(s.profiles[ProfileKey]), s)
    else if !e.quotaOpen then (None, s)
    else
      var s1 := s.(calls := s.calls + [UserAccountCall]);
      match e.net.userAccount
      case Fail => (None, s1)
      case Ok(p) =>
        (Some(p), s1.(profiles := s1.profiles[ProfileKey := p], ttl := s1.ttl[ProfileKey := ProfileTtl],
                      usage := s1.usage + 1))
  }

  /** `fetchUserBoards()`: the cached boards are read but never returned. */
  function UserBoardsSpec(e: Env, s: ApiState): (seq<Board>, ApiState) {
    if !e.hasToken || !e.quotaOpen then ([], s)
    else
      var s1 := s.(calls := s.calls + [BoardsCall(100)]);
      match e.net.boards
      case Fail => ([], s1)
      case Ok(items) =>
        var boards := items.GetOr([]);
        (boards, s1.(boardLists := s1.boardLists[BoardsKey := boards], ttl := s1.ttl[BoardsKey := BoardsTtl],
                     usage := s1.usage + 1))
  }

  /** `fetchBoardPins(boardId, pageSize)`. */
  function BoardPinsSpec(e: Env, s: ApiState, boardId: string, pageSize: int): (seq<Pin>, ApiState) {
    var key := BoardPinsKey(boardId, pageSize);
    if !e.hasToken then ([], s)
    else if key in s.pinLists then (s.pinLists[key], s)
    else if !e.quotaOpen then ([], s)
    else
      var size := Min(pageSize, MaxPageSize);
      var s1 := s.(calls := s.calls + [BoardPinsCall(boardId, size)]);
      match e.net.boardPins(boardId, size)
      case Fail => ([], s1)
      case Ok(items) =>
        var pins := TransformPins(items.GetOr([]));
        (pins, s1.(pinLists := s1.pinLists[key := pins], ttl := s1.ttl[key := PinsTtl], usage := s1.usage + 1))
  }

  // ---------------------------------------------------- category resolution

  /** `PINTEREST_BOARD_MAPPING`: category id to board name. */
  const BoardMapping: map<int, string> := map[
    1 := "Origami & Paper Crafts",
    2 := "Drawing",
    3 := "Recycling Art",
    4 := "Beads & Accessories",
    5 := "Clay Creations",
    6 := "Preschool Crafts",
    7 := "Perler Beads",
    8 := "3D Pen Fun",
    9 := "Miniature Wonders",
    10 := "Science & DIY Experiments",
    11 := "Tips & Tricks",
    12 := "Easy Paper Folding Crafts",
    13 := "DIY Crafts & Handmade",
    14 := "Paper Quilling Creations",
    15 := "DIY Pop-Up Birthday Box",
    16 := "Creative Paper Crafts for Kids",
    17 := "DIY Hair Accessories & Bows",
    18 := "Funny Cartoon Characters",
    19 := "DIY Gift Boxes & Bags",
    20 := "DIY Back to School Ideas",
    21 := "Fun Preschool & Kindergarten Activities"
  ]

  /** Every mapped name is non-empty and has an upper-case letter. */
  lemma MappedNamesShape()
    ensures forall c :: c in BoardMapping ==> BoardMapping[c] != [] && HasUpper(BoardMapping[c])
  {
    forall c | c in BoardMapping
      ensures BoardMapping[c] != [] && HasUpper(BoardMapping[c])
    {
      var name := BoardMapping[c];
      // "3D Pen Fun" is the one name whose first letter is not upper case.
      if c == 8 {
        assert IsUpper(name[1]);
      } else {
        assert IsUpper(name[0]);
      }
    }
  }

  /** `s.replace(/[^a-z0-9]/g, '-')`: lower-case letters and digits stay, every other character becomes a dash. */
  function DashNonAlnum(s: string): (r: string)
    ensures |r| == |s|
    ensures forall i :: 0 <= i < |s| && ('a' <= s[i] <= 'z' || '0' <= s[i] <= '9') ==> r[i] == s[i]
    ensures forall i :: 0 <= i < |s| && !('a' <= s[i] <= 'z' || '0' <= s[i] <= '9') ==> r[i] == '-'
  {
    seq(|s|, i requires 0 <= i < |s| => if 'a' <= s[i] <= 'z' || '0' <= s[i] <= '9' then s[i] else '-')
  }

  /** No character of `s` is white space. */
  predicate SpaceFree(s: string) {
    forall i :: 0 <= i < |s| ==> !IsSpace(s[i])
  }

  /**
   * `s.replace(/\s+/g, '-')`: each maximal run of white space becomes one
   * dash. Read one character at a time: a white-space character followed by
   * another is dropped, and the last one of a run becomes the dash.
   */
  function DashSpaceRuns(s: string): string {
    if s == [] then []
    else if IsSpace(s[0]) then
      if |s| > 1 && IsSpace(s[1]) then DashSpaceRuns(s[1..]) else "-" + DashSpaceRuns(s[1..])
    else [s[0]] + DashSpaceRuns(s[1..])
  }

  /** Every character of the dashed text is a dash or a character of the text. */
  lemma {:induction false} DashSpaceRunsChars(s: string)
    ensures forall i :: 0 <= i < |DashSpaceRuns(s)| ==> DashSpaceRuns(s)[i] == '-' || DashSpaceRuns(s)[i] in s
  {
    if s != [] {
      DashSpaceRunsChars(s[1..]);
      assert forall c :: c in s[1..] ==> c in s;
    }
  }

  /** The dashed text holds no white space, and a text without white space is left as it is. */
  lemma {:induction false} DashSpaceRunsSpaceFree(s: string)
    ensures SpaceFree(DashSpaceRuns(s))
    ensures SpaceFree(s) ==> DashSpaceRuns(s) == s
  {
    if s != [] {
      DashSpaceRunsSpaceFree(s[1..]);
      assert SpaceFree(s) ==> SpaceFree(s[1..]);
      assert s == [s[0]] + s[1..];
    }
  }

  /** A leading white-space run becomes one dash. */
  lemma {:induction false} DashSpaceRunsLead(w: string, q: string)
    requires w != [] && forall i :: 0 <= i < |w| ==> IsSpace(w[i])
    requires q == [] || !IsSpace(q[0])
    ensures DashSpaceRuns(w + q) == "-" + DashSpaceRuns(q)
  {
    var s := w + q;
    assert s[0] == w[0] && s[1..] == w[1..] + q;
    if |w| == 1 {
      assert s[1..] == q;
    } else {
      assert s[1] == w[1];
      DashSpaceRunsLead(w[1..], q);
    }
  }

  /** A character other than white space is kept in front of the rest. */
  lemma DashSpaceRunsKeep(c: char, x: string)
    requires !IsSpace(c)
    ensures DashSpaceRuns([c] + x) == [c] + DashSpaceRuns(x)
  {
    var s := [c] + x;
    assert s[0] == c && s[1..] == x;
  }

  /** One step of the dashing on a text that starts with white space followed by something else. */
  lemma DashSpaceRunsDash(s: string)
    requires |s| > 1 && IsSpace(s[0]) && !IsSpace(s[1])
    ensures DashSpaceRuns(s) == "-" + DashSpaceRuns(s[1..])
  {
  }

  /** One step of the dashing on a text that starts with two white-space characters. */
  lemma DashSpaceRunsDrop(s: string)
    requires |s| > 1 && IsSpace(s[0]) && IsSpace(s[1])
    ensures DashSpaceRuns(s) == DashSpaceRuns(s[1..])
  {
  }

  /** A text that starts with white space and does not end with it. */
  lemma DashSpaceRunsSpaceStep(p: string, w: string, q: string)
    requires |p| > 1 && IsSpace(p[0])
    requires DashSpaceRuns(p[1..] + w + q) == DashSpaceRuns(p[1..]) + "-" + DashSpaceRuns(q)
    ensures DashSpaceRuns(p + w + q) == DashSpaceRuns(p) + "-" + DashSpaceRuns(q)
  {
    var s, p1 := p + w + q, p[1..];
    assert s[0] == p[0] && s[1] == p[1] && s[1..] == p1 + w + q;
    var dp1, dq := DashSpaceRuns(p1), DashSpaceRuns(q);
    if IsSpace(p[1]) {
      DashSpaceRunsDrop(s);
      DashSpaceRunsDrop(p);
    } else {
      DashSpaceRunsDash(s);
      DashSpaceRunsDash(p);
      assert "-" + (dp1 + "-" + dq) == ("-" + dp1) + "-" + dq;
    }
  }

  /** A text that starts with another character keeps it. */
  lemma DashSpaceRunsCharStep(c: char, p1: string, w: string, q: string)
    requires !IsSpace(c)
    requires DashSpaceRuns(p1 + w + q) == DashSpaceRuns(p1) + "-" + DashSpaceRuns(q)
    ensures DashSpaceRuns([c] + p1 + w + q) == DashSpaceRuns([c] + p1) + "-" + DashSpaceRuns(q)
  {
    assert [c] + p1 + w + q == [c] + (p1 + w + q);
    DashSpaceRunsKeep(c, p1 + w + q);
    DashSpaceRunsKeep(c, p1);
    var dp1, dq := DashSpaceRuns(p1), DashSpaceRuns(q);
    assert [c] + (dp1 + "-" + dq) == ([c] + dp1) + "-" + dq;
  }

  /**
   * A white-space run between text that does not end with white space and
   * text that does not start with it becomes one dash. With the lemma above
   * for text without white space, this fixes the value on every text.
   */
  lemma {:induction false} DashSpaceRunsSplit(p: string, w: string, q: string)
    requires w != [] && forall i :: 0 <= i < |w| ==> IsSpace(w[i])
    requires p == [] || !IsSpace(p[|p| - 1])
    requires q == [] || !IsSpace(q[0])
    ensures DashSpaceRuns(p + w + q) == DashSpaceRuns(p) + "-" + DashSpaceRuns(q)
  {
    if p == [] {
      assert p + w + q == w + q;
      DashSpaceRunsLead(w, q);
    } else {
      var p1 := p[1..];
      assert p1 == [] || p1[|p1| - 1] == p[|p| - 1];
      DashSpaceRunsSplit(p1, w, q);
      if IsSpace(p[0]) {
        DashSpaceRunsSpaceStep(p, w, q);
      } else {
        assert p == [p[0]] + p1;
        DashSpaceRunsCharStep(p[0], p1, w, q);
      }
    }
  }

  /** The four matching strategies, in the order they are tried. */
  predicate ExactName(name: string, b: Board) {
    b.name == name
  }

  predicate SameLowerName(name: string, b: Board) {
    Lower(b.name) == Lower(name)
  }

  predicate LowerNameContains(name: string, b: Board) {
    Contains(Lower(b.name), Lower(name))
  }

  predicate SlugName(name: string, b: Board) {
    DashNonAlnum(Lower(b.name)) == name || DashSpaceRuns(Lower(b.name)) == name
  }

  /** The board chosen for `name`: the first exact match, else the first of the next strategy, and so on. */
  function FindBoard(boards: seq<Board>, name: string): (r: Option<Board>)
    ensures r.Some? ==> r.value in boards
    ensures r.None? <==> forall b :: b in boards ==>
      !ExactName(name, b) && !SameLowerName(name, b) && !LowerNameContains(name, b) && !SlugName(name, b)
    ensures (exists b :: b in boards && ExactName(name, b)) ==>
      r.Some? && FirstWith(boards, r.value, b => ExactName(name, b))
    ensures (forall b :: b in boards ==> !ExactName(name, b)) && (exists b :: b in boards && SameLowerName(name, b)) ==>
      r.Some? && FirstWith(boards, r.value, b => SameLowerName(name, b))
    ensures ((forall b :: b in boards ==> !ExactName(name, b) && !SameLowerName(name, b))
             && (exists b :: b in boards && LowerNameContains(name, b))) ==>
      r.Some? && FirstWith(boards, r.value, b => LowerNameContains(name, b))
    ensures ((forall b :: b in boards ==> !ExactName(name, b) && !SameLowerName(name, b) && !LowerNameContains(name, b))
             && (exists b :: b in boards && SlugName(name, b))) ==>
      r.Some? && FirstWith(boards, r.value, b => SlugName(name, b))
  {
    match FindIndex(boards, b => ExactName(name, b))
    case Some(i) => Some(boards[i])
    case None =>
      match FindIndex(boards, b => SameLowerName(name, b))
      case Some(i) => Some(boards[i])
      case None =>
        match FindIndex(boards, b => LowerNameContains(name, b))
        case Some(i) => Some(boards[i])
        case None =>
          match FindIndex(boards, b => SlugName(name, b))
          case Some(i) => Some(boards[i])
          case None => None
  }

  /** No text that went through the lower-casing has an upper-case letter, so the slug strategy never matches a mapped name. */
  lemma SlugStageNeverMatches(c: int, b: Board)
    requires c in BoardMapping
    ensures !SlugName(BoardMapping[c], b)
  {
    MappedNamesShape();
    var name := BoardMapping[c];
    var i :| 0 <= i < |name| && IsUpper(name[i]);
    var d := DashNonAlnum(Lower(b.name));
    var w := DashSpaceRuns(Lower(b.name));
    DashSpaceRunsChars(Lower(b.name));
    if |d| == |name| {
      assert d[i] != name[i];
    }
    if |w| == |name| {
      assert w[i] == '-' || w[i] in Lower(b.name);
      assert w[i] != name[i];
    }
  }

  /** `fetchCategoryPins(categoryId, pageSize)`. */
  function CategoryPinsSpec(e: Env, s: ApiState, categoryId: int, pageSize: int): (seq<Pin>, ApiState) {
    if categoryId !in BoardMapping || BoardMapping[categoryId] == "" then ([], s)
    else
      var (boards, s1) := UserBoardsSpec(e, s);
      match FindBoard(boards, BoardMapping[categoryId])
      case None => ([], s1)
      case Some(b) => BoardPinsSpec(e, s1, b.id, pageSize)
  }

  // ------------------------------------------------------------------ search

  /** A pin matches a query when its title, description or note holds it, ignoring case. */
  predicate MatchesQuery(p: Pin, query: string) {
    Contains(Lower(p.title), Lower(query)) || Contains(Lower(p.description), Lower(query))
    || Contains(Lower(p.note), Lower(query))
  }

  /** `pins.filter(matches query)`. */
  function SearchFilter(pins: seq<Pin>, query: string): (r: seq<Pin>)
    ensures |r| <= |pins|
    ensures forall i :: 0 <= i < |r| ==> r[i] in pins && MatchesQuery(r[i], query)
    ensures forall p :: p in pins && MatchesQuery(p, query) ==> p in r
  {
    if pins == [] then []
    else
      var rest := SearchFilter(pins[1..], query);
      if MatchesQuery(pins[0], query) then [pins[0]] + rest else rest
  }

  /** The pins of `boards`, ten per board, fetched in order, and the state after. */
  function CollectPins(e: Env, s: ApiState, boards: seq<Board>): (seq<Pin>, ApiState) {
    if boards == [] then ([], s)
    else
      var (before, s1) := CollectPins(e, s, boards[..|boards| - 1]);
      var (pins, s2) := BoardPinsSpec(e, s1, boards[|boards| - 1].id, 10);
      (before + pins, s2)
  }

  /** How many boards the search reads. */
  const SearchBoards := 5

  /** `searchPins(query, pageSize)`. */
  function SearchSpec(e: Env, s: ApiState, query: string, pageSize: int): (seq<Pin>, ApiState) {
    var key := SearchKey(query, pageSize);
    if !e.hasToken then ([], s)
    else if key in s.pinLists then (s.pinLists[key], s)
    else if !e.quotaOpen then ([], s)
    else
      var (boards, s1) := UserBoardsSpec(e, s);
      var (all, s2) := CollectPins(e, s1, Take(boards, SearchBoards));
      var found := Take(SearchFilter(all, query), pageSize);
      (found, s2.(pinLists := s2.pinLists[key := found], ttl := s2.ttl[key := SearchTtl]))
  }

  // ---------------------------------------------------------------- featured

  /** The categories the featured collection visits: 1 to 11, in order. */
  const FeaturedCategories: seq<int> := seq(11, i => i + 1)

  /** The featured map over `categories`, in order: each category with pins is entered. */
  function FeaturedFrom(e: Env, s: ApiState, categories: seq<int>, perCategory: int): (map<int, seq<Pin>>, ApiState) {
    if categories == [] then (map[], s)
    else
      var (before, s1) := FeaturedFrom(e, s, categories[..|categories| - 1], perCategory);
      var c := categories[|categories| - 1];
      var (pins, s2) := CategoryPinsSpec(e, s1, c, perCategory);
      (if |pins| > 0 then before[c := pins] else before, s2)
  }

  // ------------------------------------------------------- properties of fetches

  /** Without a token nothing is read, asked or written. */
  lemma NoTokenNoEffect(e: Env, s: ApiState, boardId: string, query: string, pageSize: int)
    requires !e.hasToken
    ensures ProfileSpec(e, s) == (None, s)
    ensures UserBoardsSpec(e, s) == ([], s)
    ensures BoardPinsSpec(e, s, boardId, pageSize) == ([], s)
    ensures SearchSpec(e, s, query, pageSize) == ([], s)
  {
  }

  /** A cache hit is returned without consulting the quota gate or the network. */
  lemma BoardPinsHit(e: Env, s: ApiState, boardId: string, pageSize: int)
    requires e.hasToken && BoardPinsKey(boardId, pageSize) in s.pinLists
    ensures BoardPinsSpec(e, s, boardId, pageSize) == (s.pinLists[BoardPinsKey(boardId, pageSize)], s)
    ensures BoardPinsSpec(e.(quotaOpen := !e.quotaOpen), s, boardId, pageSize) == BoardPinsSpec(e, s, boardId, pageSize)
  {
  }

  /** With the quota gate closed, a miss returns null or `[]` and nothing changes. */
  lemma QuotaClosedNoEffect(e: Env, s: ApiState, boardId: string, query: string, pageSize: int)
    requires !e.quotaOpen
    ensures ProfileKey !in s.profiles ==> ProfileSpec(e, s) == (None, s)
    ensures UserBoardsSpec(e, s) == ([], s)
    ensures BoardPinsKey(boardId, pageSize) !in s.pinLists ==> BoardPinsSpec(e, s, boardId, pageSize) == ([], s)
    ensures SearchKey(query, pageSize) !in s.pinLists ==> SearchSpec(e, s, query, pageSize) == ([], s)
  {
  }

  /**
   * A successful board-pins request asks for at most 100 pins, caches the
   * transformed list for two hours under its key and records one use.
   */
  lemma BoardPinsSuccess(e: Env, s: ApiState, boardId: string, pageSize: int, items: Option<seq<RawPin>>)
    requires e.hasToken && e.quotaOpen && BoardPinsKey(boardId, pageSize) !in s.pinLists
    requires e.net.boardPins(boardId, Min(pageSize, MaxPageSize)) == Ok(items)
    ensures var (pins, s2) := BoardPinsSpec(e, s, boardId, pageSize);
      && pins == TransformPins(items.GetOr([]))
      && s2.pinLists == s.pinLists[BoardPinsKey(boardId, pageSize) := pins]
      && s2.ttl == s.ttl[BoardPinsKey(boardId, pageSize) := 2 * 60 * 60 * 1000]
      && s2.usage == s.usage + 1
      && s2.calls == s.calls + [BoardPinsCall(boardId, Min(pageSize, MaxPageSize))]
      && Min(pageSize, MaxPageSize) <= 100
      && s2.profiles == s.profiles && s2.boardLists == s.boardLists
  {
  }

  /** A failed board-pins request returns `[]`, caches nothing and records no use. */
  lemma BoardPinsFailure(e: Env, s: ApiState, boardId: string, pageSize: int)
    requires e.hasToken && e.quotaOpen && BoardPinsKey(boardId, pageSize) !in s.pinLists
    requires e.net.boardPins(boardId, Min(pageSize, MaxPageSize)) == Fail
    ensures BoardPinsSpec(e, s, boardId, pageSize) ==
      ([], s.(calls := s.calls + [BoardPinsCall(boardId, Min(pageSize, MaxPageSize))]))
  {
  }

  /** The boards fetch never answers from the cache: with a token and an open gate it always asks the network. */
  lemma UserBoardsAlwaysCalls(e: Env, s: ApiState)
    requires e.hasToken && e.quotaOpen
    ensures UserBoardsSpec(e, s).1.calls == s.calls + [BoardsCall(100)]
    ensures forall t: ApiState :: t.calls == s.calls ==> UserBoardsSpec(e, t).0 == UserBoardsSpec(e, s).0
  {
  }

  /** An unmapped category gives `[]` and touches nothing; a missing board gives `[]`. */
  lemma CategoryPinsEmptyCases(e: Env, s: ApiState, categoryId: int, pageSize: int)
    ensures categoryId !in BoardMapping ==> CategoryPinsSpec(e, s, categoryId, pageSize) == ([], s)
    ensures categoryId in BoardMapping && FindBoard(UserBoardsSpec(e, s).0, BoardMapping[categoryId]).None? ==>
      CategoryPinsSpec(e, s, categoryId, pageSize).0 == []
  {
    MappedNamesShape();
  }

  /** A mapped category with a matching board delegates to that board's pins. */
  lemma CategoryPinsDelegates(e: Env, s: ApiState, categoryId: int, pageSize: int, b: Board)
    requires categoryId in BoardMapping
    requires FindBoard(UserBoardsSpec(e, s).0, BoardMapping[categoryId]) == Some(b)
    ensures CategoryPinsSpec(e, s, categoryId, pageSize) == BoardPinsSpec(e, UserBoardsSpec(e, s).1, b.id, pageSize)
    ensures b in UserBoardsSpec(e, s).0
  {
    MappedNamesShape();
  }

  /** Searching fetches ten pins from each of at most the first five boards. */
  lemma {:induction false} CollectPinsCalls(e: Env, s: ApiState, boards: seq<Board>)
    ensures var s2 := CollectPins(e, s, boards).1;
      && |s.calls| <= |s2.calls| <= |s.calls| + |boards|
      && s2.calls[..|s.calls|] == s.calls
      && forall i :: |s.calls| <= i < |s2.calls| ==> s2.calls[i].BoardPinsCall? && s2.calls[i].pageSize == 10
  {
    if boards != [] {
      var s1 := CollectPins(e, s, boards[..|boards| - 1]).1;
      CollectPinsCalls(e, s, boards[..|boards| - 1]);
      var s2 := BoardPinsSpec(e, s1, boards[|boards| - 1].id, 10).1;
      assert s2.calls == s1.calls || s2.calls == s1.calls + [BoardPinsCall(boards[|boards| - 1].id, 10)];
    }
  }

  /**
   * Search results are the first `pageSize` matching pins of the first five
   * boards, read in board order: each is one of those pins and matches the
   * query, and when there are no more than `pageSize` matches, every match is
   * among the results.
   */
  lemma SearchResults(e: Env, s: ApiState, query: string, pageSize: int)
    requires e.hasToken && e.quotaOpen && SearchKey(query, pageSize) !in s.pinLists
    ensures var (boards, s1) := UserBoardsSpec(e, s);
      var all := CollectPins(e, s1, Take(boards, SearchBoards)).0;
      var (found, s2) := SearchSpec(e, s, query, pageSize);
      && found == Take(SearchFilter(all, query), pageSize)
      && (forall i :: 0 <= i < |found| ==> found[i] in all && MatchesQuery(found[i], query))
      && (0 <= pageSize ==> |found| <= pageSize)
      && (0 <= pageSize && |SearchFilter(all, query)| <= pageSize ==>
            forall p :: p in all && MatchesQuery(p, query) ==> p in found)
      && s2.pinLists[SearchKey(query, pageSize)] == found
      && s2.ttl[SearchKey(query, pageSize)] == 60 * 60 * 1000
  {
    var (boards, s1) := UserBoardsSpec(e, s);
    var (all, s2) := CollectPins(e, s1, Take(boards, SearchBoards));
    var filtered := SearchFilter(all, query);
    var found := Take(filtered, pageSize);
    assert forall i :: 0 <= i < |found| ==> found[i] == filtered[i];
  }

  /** The search stores its result without recording an API use of its own. */
  lemma SearchRecordsNoUse(e: Env, s: ApiState, query: string, pageSize: int)
    requires e.hasToken && e.quotaOpen && SearchKey(query, pageSize) !in s.pinLists
    ensures var (boards, s1) := UserBoardsSpec(e, s);
      SearchSpec(e, s, query, pageSize).1.usage == CollectPins(e, s1, Take(boards, SearchBoards)).1.usage
  {
  }

  /** The featured map holds only categories 1 to 11, each with a non-empty list. */
  lemma {:induction false} FeaturedShape(e: Env, s: ApiState, categories: seq<int>, perCategory: int)
    ensures var m := FeaturedFrom(e, s, categories, perCategory).0;
      forall c :: c in m ==> c in categories && |m[c]| > 0
  {
    if categories != [] {
      var prefix := categories[..|categories| - 1];
      FeaturedShape(e, s, prefix, perCategory);
      var (before, s1) := FeaturedFrom(e, s, prefix, perCategory);
      var c := categories[|categories| - 1];
      var pins := CategoryPinsSpec(e, s1, c, perCategory).0;
      var m := FeaturedFrom(e, s, categories, perCategory).0;
      assert m == if |pins| > 0 then before[c := pins] else before;
      assert forall d :: d in prefix ==> d in categories;
    }
  }

  // ------------------------------------------------------------------ client

  /** The service with the cache manager's state; the token, gate and network are fixed inputs. */
  class PinterestClient {
    const hasToken: bool
    const quotaOpen: bool
    const net: Network
    var profiles: map<Key, Profile>
    var boardLists: map<Key, seq<Board>>
    var pinLists: map<Key, seq<Pin>>
    var ttl: map<Key, int>
    var usage: nat
    var calls: seq<ApiCall>

    constructor (hasToken: bool, quotaOpen: bool, net: Network)
      ensures Environment() == Env(hasToken, quotaOpen, net)
      ensures State() == ApiState(map[], map[], map[], map[], 0, [])
    {
      this.hasToken := hasToken;
      this.quotaOpen := quotaOpen;
      this.net := net;
      profiles, boardLists, pinLists, ttl, usage, calls := map[], map[], map[], map[], 0, [];
    }

    function Environment(): Env {
      Env(hasToken, quotaOpen, net)
    }

    function State(): ApiState
      reads this
    {
      ApiState(profiles, boardLists, pinLists, ttl, usage, calls)
    }

    // The cache manager and network operations the service calls.

    /** `shouldMakeApiCall()`. */
    function ShouldMakeApiCall(): bool {
      quotaOpen
    }

    /** `setCache(key, value, ttl)` for a list of pins. */
    method SetCachedPins(key: Key, pins: seq<Pin>, lifetime: int)
      modifies this
      ensures State() == old(State()).(pinLists := old(pinLists)[key := pins], ttl := old(ttl)[key := lifetime])
    {
      pinLists := pinLists[key := pins];
      ttl := ttl[key := lifetime];
    }

    /** `recordApiUsage('pinterest', 1)`. */
    method RecordApiUsage()
      modifies this
      ensures State() == old(State()).(usage := old(usage) + 1)
    {
      usage := usage + 1;
    }

    /** One request to the network, logged. */
    method Request(call: ApiCall)
      modifies this
      ensures State() == old(State()).(calls := old(calls) + [call])
    {
      calls := calls + [call];
    }

    // The service.

    /** `fetchUserProfile()`. */
    method FetchUserProfile() returns (profile: Option<Profile>)
      modifies this
      ensures (profile, State()) == ProfileSpec(Environment(), old(State()))
    {
      if !hasToken {
        return None;
      }
      if ProfileKey in profiles {
        return Some(profiles[ProfileKey]);
      }
      if !ShouldMakeApiCall() {
        return None;
      }
      Request(UserAccountCall);
      match net.userAccount
      case Fail =>
        profile := None;
      case Ok(p) =>
        profiles := profiles[ProfileKey := p];
        ttl := ttl[ProfileKey := ProfileTtl];
        RecordApiUsage();
        profile := Some(p);
    }

    /** `fetchUserBoards()`. */
    method FetchUserBoards() returns (boards: seq<Board>)
      modifies this
      ensures (boards, State()) == UserBoardsSpec(Environment(), old(State()))
    {
      if !hasToken {
        return [];
      }
      if !ShouldMakeApiCall() {
        return [];
      }
      Request(BoardsCall(100));
      match net.boards
      case Fail =>
        boards := [];
      case Ok(items) =>
        boards := items.GetOr([]);
        boardLists := boardLists[BoardsKey := boards];
        ttl := ttl[BoardsKey := BoardsTtl];
        RecordApiUsage();
    }

    /** `fetchBoardPins(boardId, pageSize = 25)`. */
    method FetchBoardPins(boardId: string, pageSize: int := 25) returns (pins: seq<Pin>)
      modifies this
      ensures (pins, State()) == BoardPinsSpec(Environment(), old(State()), boardId, pageSize)
    {
      if !hasToken {
        return [];
      }
      var key := BoardPinsKey(boardId, pageSize);
      if key in pinLists {
        return pinLists[key];
      }
      if !ShouldMakeApiCall() {
        return [];
      }
      var size := Min(pageSize, MaxPageSize);
      Request(BoardPinsCall(boardId, size));
      match net.boardPins(boardId, size)
      case Fail =>
        pins := [];
      case Ok(items) =>
        pins := TransformPins(items.GetOr([]));
        SetCachedPins(key, pins, PinsTtl);
        RecordApiUsage();
    }

    /** `fetchCategoryPins(categoryId, pageSize = 25)`. */
    method FetchCategoryPins(categoryId: int, pageSize: int := 25) returns (pins: seq<Pin>)
      modifies this
      ensures (pins, State()) == CategoryPinsSpec(Environment(), old(State()), categoryId, pageSize)
    {
      if categoryId !in BoardMapping || BoardMapping[categoryId] == "" {
        return [];
      }
      var boards := FetchUserBoards();
      var target := FindBoard(boards, BoardMapping[categoryId]);
      if target.None? {
        return [];
      }
      pins := FetchBoardPins(target.value.id, pageSize);
    }

    /** `searchPins(query, pageSize = 25)`. */
    method SearchPins(query: string, pageSize: int := 25) returns (found: seq<Pin>)
      modifies this
      ensures (found, State()) == SearchSpec(Environment(), old(State()), query, pageSize)
    {
      if !hasToken {
        return [];
      }
      var key := SearchKey(query, pageSize);
      if key in pinLists {
        return pinLists[key];
      }
      if !ShouldMakeApiCall() {
        return [];
      }
      var boards := FetchUserBoards();
      ghost var s1 := State();
      var first := Take(boards, SearchBoards);
      var allPins: seq<Pin> := [];
      for i := 0 to |first|
        invariant (allPins, State()) == CollectPins(Environment(), s1, first[..i])
      {
        var boardPins := FetchBoardPins(first[i].id, 10);
        assert first[..i + 1][..i] == first[..i];
        allPins := allPins + boardPins;
      }
      assert first[..|first|] == first;
      found := Take(SearchFilter(allPins, query), pageSize);
      SetCachedPins(key, found, SearchTtl);
    }

    /** `fetchFeaturedPins(pinsPerCategory = 6)`. */
    method FetchFeaturedPins(pinsPerCategory: int := 6) returns (featured: map<int, seq<Pin>>)
      modifies this
      ensures (featured, State()) == FeaturedFrom(Environment(), old(State()), FeaturedCategories, pinsPerCategory)
      ensures forall c :: c in featured ==> 1 <= c <= 11 && |featured[c]| > 0
    {
      ghost var s0 := State();
      featured := map[];
      for i := 0 to |FeaturedCategories|
        invariant (featured, State()) == FeaturedFrom(Environment(), s0, FeaturedCategories[..i], pinsPerCategory)
      {
        var categoryId := FeaturedCategories[i];
        var pins := FetchCategoryPins(categoryId, pinsPerCategory);
        assert FeaturedCategories[..i + 1][..i] == FeaturedCategories[..i];
        if |pins| > 0 {
          featured := featured[categoryId := pins];
        }
      }
      assert FeaturedCategories[..|FeaturedCategories|] == FeaturedCategories;
      FeaturedShape(Environment(), s0, FeaturedCategories, pinsPerCategory);
      assert forall c :: c in FeaturedCategories ==> 1 <= c <= 11;
    }
  }
}
