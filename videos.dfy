/**
 * The video record the video pages share, and the list operations they all
 * use: keeping the API list unless it is empty, filtering in order, the
 * stable sort by descending key that `[...list].sort((a, b) => key(b) -
 * key(a))` performs, and the `embed/<id>` pattern that finds a YouTube id in
 * an embed address (src/components/Videos/VideoCard.jsx:37-46,
 * src/components/VideoDetail/VideoDetailPage.jsx:163).
 */
module Videos {
  import opened Wrappers
  import opened Text

  /**
   * A video as the pages read it. An absent property is `None`; ids and
   * category ids are numbers; `publishedAt` is the publication time in
   * milliseconds.
   */
  datatype Video = Video(
    id: Option<int>,
    url: Option<string>,
    title: Option<string>,
    titleKey: Option<string>,
    categoryId: int,
    categoryTitle: Option<string>,
    categoryTitleKey: Option<string>,
    description: Option<string>,
    thumbnail: Option<string>,
    publishedAt: Option<int>,
    views: Option<int>)

  /** `api.length > 0 ? api : fallback`. */
  function Preferred<T>(api: seq<T>, fallback: seq<T>): seq<T> {
    if |api| > 0 then api else fallback
  }

  /** `s.filter(p)`: the elements `p` accepts, in order. */
  function Filter<T>(s: seq<T>, p: T -> bool): (r: seq<T>)
    ensures |r| <= |s|
    ensures forall i :: 0 <= i < |r| ==> r[i] in s && p(r[i])
    ensures forall i :: 0 <= i < |s| && p(s[i]) ==> s[i] in r
  {
    if s == [] then [] else Filter(s[..|s| - 1], p) + (if p(s[|s| - 1]) then [s[|s| - 1]] else [])
  }

  /** Filtering a concatenation filters each part. */
  lemma {:induction false} FilterAppend<T>(a: seq<T>, b: seq<T>, p: T -> bool)
    ensures Filter(a + b, p) == Filter(a, p) + Filter(b, p)
    decreases |b|
  {
    if b != [] {
      var b' := b[..|b| - 1];
      assert (a + b)[..|a + b| - 1] == a + b';
      FilterAppend(a, b', p);
    } else {
      assert a + b == a;
    }
  }

  /** `v => v.categoryId === c`. */
  function InCategory(c: int): Video -> bool {
    (v: Video) => v.categoryId == c
  }

  /** `v.id ?? 0`: the sort key of the category pages. */
  function IdKey(v: Video): int {
    v.id.GetOr(0)
  }

  /** `s` is in non-increasing order of `key`. */
  predicate SortedDesc<T>(s: seq<T>, key: T -> int) {
    forall i, j :: 0 <= i < j < |s| ==> key(s[i]) >= key(s[j])
  }

  /** The elements whose key is `k`. */
  function KeyIs<T>(key: T -> int, k: int): T -> bool {
    x => key(x) == k
  }

  /** Places `x` after every element of the sorted `t` whose key is not below its own. */
  function Insert<T>(t: seq<T>, x: T, key: T -> int): seq<T>
    decreases |t|
  {
    if t == [] || key(x) <= key(t[|t| - 1]) then t + [x]
    else Insert(t[..|t| - 1], x, key) + [t[|t| - 1]]
  }

  /**
   * `[...s].sort((a, b) => key(b) - key(a))`: a stable sort by descending
   * key, on a copy.
   */
  function SortDesc<T>(s: seq<T>, key: T -> int): seq<T> {
    if s == [] then [] else Insert(SortDesc(s[..|s| - 1], key), s[|s| - 1], key)
  }

  lemma {:induction false} InsertPermutes<T>(t: seq<T>, x: T, key: T -> int)
    ensures multiset(Insert(t, x, key)) == multiset(t) + multiset{x}
    decreases |t|
  {
    if !(t == [] || key(x) <= key(t[|t| - 1])) {
      var t' := t[..|t| - 1];
      InsertPermutes(t', x, key);
      assert t == t' + [t[|t| - 1]];
    }
  }

  lemma {:induction false} InsertSorted<T>(t: seq<T>, x: T, key: T -> int)
    requires SortedDesc(t, key)
    ensures SortedDesc(Insert(t, x, key), key)
    decreases |t|
  {
    if !(t == [] || key(x) <= key(t[|t| - 1])) {
      var t' := t[..|t| - 1];
      var last := t[|t| - 1];
      InsertSorted(t', x, key);
      InsertPermutes(t', x, key);
      var u := Insert(t', x, key);
      forall i | 0 <= i < |u|
        ensures key(u[i]) >= key(last)
      {
        assert u[i] in multiset(u);
        assert u[i] in multiset(t') || u[i] == x;
        if u[i] != x {
          var j :| 0 <= j < |t'| && t'[j] == u[i];
          assert t[j] == u[i];
        }
      }
    }
  }

  lemma {:induction false} InsertStable<T>(t: seq<T>, x: T, key: T -> int, k: int)
    ensures Filter(Insert(t, x, key), KeyIs(key, k)) == Filter(t, KeyIs(key, k)) + Filter([x], KeyIs(key, k))
    decreases |t|
  {
    var p := KeyIs(key, k);
    if t == [] || key(x) <= key(t[|t| - 1]) {
      FilterAppend(t, [x], p);
    } else {
      var t' := t[..|t| - 1];
      var last := t[|t| - 1];
      InsertStable(t', x, key, k);
      FilterAppend(Insert(t', x, key), [last], p);
      FilterAppend(t', [last], p);
      assert t == t' + [last];
      var fx, fl := Filter([x], p), Filter([last], p);
      assert fx == [] || fl == [] by {
        FilterSingle(last, p);
        FilterSingle(x, p);
        assert p(x) == (key(x) == k) && p(last) == (key(last) == k);
      }
      SwapEmpty(Filter(t', p), fx, fl);
    }
  }

  lemma SwapEmpty<T>(a: seq<T>, b: seq<T>, c: seq<T>)
    requires b == [] || c == []
    ensures a + b + c == a + c + b
  {
  }

  lemma FilterSingle<T>(x: T, p: T -> bool)
    ensures Filter([x], p) == if p(x) then [x] else []
  {
    assert [x][..0] == [];
  }

  /** The sort yields a non-increasing order. */
  lemma {:induction false} SortDescSorted<T>(s: seq<T>, key: T -> int)
    ensures SortedDesc(SortDesc(s, key), key)
  {
    if s != [] {
      SortDescSorted(s[..|s| - 1], key);
      InsertSorted(SortDesc(s[..|s| - 1], key), s[|s| - 1], key);
    }
  }

  /** The sort rearranges its input: same elements, same multiplicities. */
  lemma {:induction false} SortDescPermutes<T>(s: seq<T>, key: T -> int)
    ensures multiset(SortDesc(s, key)) == multiset(s)
    ensures |SortDesc(s, key)| == |s|
  {
    if s != [] {
      SortDescPermutes(s[..|s| - 1], key);
      InsertPermutes(SortDesc(s[..|s| - 1], key), s[|s| - 1], key);
      assert s == s[..|s| - 1] + [s[|s| - 1]];
    }
    assert |multiset(SortDesc(s, key))| == |multiset(s)|;
  }

  /** Every element of the sorted list comes from the input. */
  lemma SortDescMembers<T>(s: seq<T>, key: T -> int)
    ensures forall i :: 0 <= i < |SortDesc(s, key)| ==> SortDesc(s, key)[i] in s
  {
    SortDescPermutes(s, key);
    forall i | 0 <= i < |SortDesc(s, key)|
      ensures SortDesc(s, key)[i] in s
    {
      assert SortDesc(s, key)[i] in multiset(SortDesc(s, key));
    }
  }

  /** The sort is stable: elements with the same key keep their input order. */
  lemma {:induction false} SortDescStable<T>(s: seq<T>, key: T -> int, k: int)
    ensures Filter(SortDesc(s, key), KeyIs(key, k)) == Filter(s, KeyIs(key, k))
  {
    if s != [] {
      var init := s[..|s| - 1];
      SortDescStable(init, key, k);
      InsertStable(SortDesc(init, key), s[|s| - 1], key, k);
      FilterAppend(init, [s[|s| - 1]], KeyIs(key, k));
      assert s == init + [s[|s| - 1]];
    }
  }

  // ------------------------------------------------------------ embed ids

  /** `embed/` starts at `k` and is followed by a character other than `?`. */
  predicate EmbedAt(s: string, k: nat) {
    k + 6 < |s| && s[k..k + 6] == "embed/" && s[k + 6] != '?'
  }

  /** The length of the longest prefix of `s` without `?`. */
  function UntilQuery(s: string): (n: nat)
    ensures n <= |s|
    ensures forall i :: 0 <= i < n ==> s[i] != '?'
    ensures n < |s| ==> s[n] == '?'
  {
    if s == [] || s[0] == '?' then 0 else 1 + UntilQuery(s[1..])
  }

  /** Where the first match of `/embed\/([^?]+)/` at or after `k` starts. */
  function FirstEmbed(s: string, k: nat): (r: Option<nat>)
    decreases |s| - k
    ensures r.None? ==> forall j :: k <= j ==> !EmbedAt(s, j)
    ensures r.Some? ==> k <= r.value && EmbedAt(s, r.value)
    ensures r.Some? ==> forall j :: k <= j < r.value ==> !EmbedAt(s, j)
  {
    if k + 6 >= |s| then None
    else if EmbedAt(s, k) then Some(k)
    else FirstEmbed(s, k + 1)
  }

  /** The group of a match at `j`: the characters up to the next `?`. */
  function EmbedGroup(s: string, j: nat): (r: string)
    requires EmbedAt(s, j)
    ensures r != [] && '?' !in r
    ensures j + 6 + |r| <= |s| && r == s[j + 6..j + 6 + |r|]
    ensures j + 6 + |r| < |s| ==> s[j + 6 + |r|] == '?'
  {
    var rest := s[j + 6..];
    assert rest[0] != '?';
    rest[..UntilQuery(rest)]
  }

  /**
   * `url.match(/embed\/([^?]+)/)?.[1]`: the text after the first `embed/`
   * that is followed by something other than `?`, up to the next `?`.
   */
  function EmbedId(url: string): (r: Option<string>)
    ensures r.None? <==> forall j :: 0 <= j ==> !EmbedAt(url, j)
    ensures r.Some? ==> r.value != [] && '?' !in r.value
    ensures r.Some? ==>
      exists j :: 0 <= j && EmbedAt(url, j) && (forall k :: 0 <= k < j ==> !EmbedAt(url, k))
        && j + 6 + |r.value| <= |url| && url[j + 6..j + 6 + |r.value|] == r.value
        && (j + 6 + |r.value| == |url| || url[j + 6 + |r.value|] == '?')
  {
    match FirstEmbed(url, 0)
    case None => None
    case Some(j) =>
      var id := EmbedGroup(url, j);
      assert j + 6 + |id| == |url| || url[j + 6 + |id|] == '?';
      Some(id)
  }

  /** No `e` in `p` starts `embed/`, even with `embed/` appended right after `p`. */
  predicate NoEmbedStart(p: string) {
    |p| == 0 || (!(p[0] == 'e' && (|p| == 1 || p[1] == 'm')) && NoEmbedStart(p[1..]))
  }

  lemma {:induction false} NoEmbedStartAt(p: string, tail: string, j: nat)
    requires NoEmbedStart(p) && j < |p|
    ensures !EmbedAt(p + "embed/" + tail, j)
  {
    var s := p + "embed/" + tail;
    assert EmbedAt(s, j) ==> s[j] == 'e' && s[j + 1] == 'm' by {
      if EmbedAt(s, j) {
        assert s[j..j + 6][0] == s[j] && s[j..j + 6][1] == s[j + 1];
      }
    }
    if j == 0 {
      assert s[0] == p[0];
      assert s[1] == if |p| > 1 then p[1] else 'e';
    } else {
      NoEmbedStartAt(p[1..], tail, j - 1);
      assert p[1..] + "embed/" + tail == s[1..];
    }
  }

  /** Text after a prefix without `embed/`: the id is the text up to the next `?`. */
  lemma EmbedIdAfter(p: string, id: string)
    requires NoEmbedStart(p) && id != [] && '?' !in id
    ensures EmbedId(p + "embed/" + id) == Some(id)
  {
    var s := p + "embed/" + id;
    forall j | 0 <= j < |p|
      ensures !EmbedAt(s, j)
    {
      NoEmbedStartAt(p, id, j);
    }
    assert s[|p|..|p| + 6] == "embed/";
    assert s[|p| + 6..] == id;
    assert EmbedAt(s, |p|);
    var first := FirstEmbed(s, 0);
    assert first == Some(|p|);
    assert UntilQuery(id) == |id|;
    assert EmbedGroup(s, |p|) == id;
    assert EmbedId(s) == Some(EmbedGroup(s, |p|));
  }

  /** The watch page on YouTube. */
  const WatchBase := "https://www.youtube.com/watch?v="

  /**
   * The "watch on YouTube" address of an embed address: the watch page with
   * the embed id as its `v` parameter, or nothing when the address has no id.
   */
  function WatchUrl(url: string): (r: Option<string>)
    ensures r.Some? <==> EmbedId(url).Some?
    ensures r.Some? ==> StartsWith(r.value, WatchBase) && |r.value| > |WatchBase|
    ensures r.Some? ==> '?' !in r.value[|WatchBase|..]
  {
    match EmbedId(url)
    case None => None
    case Some(id) =>
      assert (WatchBase + id)[|WatchBase|..] == id;
      Some(WatchBase + id)
  }

  /** An embed address after a prefix without `embed/` leads to the watch page of its id. */
  lemma WatchUrlOfEmbed(p: string, id: string)
    requires NoEmbedStart(p) && id != [] && '?' !in id
    ensures WatchUrl(p + "embed/" + id) == Some(WatchBase + id)
  {
    EmbedIdAfter(p, id);
  }
}
