/**
 * The browser's `localStorage` and `sessionStorage` as the site uses them:
 * a map from key to value, the keys in the order `Object.keys` lists them,
 * and whether the store can be reached at all (a browser may refuse access,
 * and then every call throws).
 *
 * `RemoveMatching` is the eviction loop every clear utility runs: walk a
 * snapshot of the keys and remove each one a predicate selects.
 */
module WebStorage {
  import opened Wrappers

  /** The entries of `m` whose key `evict` does not select. */
  function Kept<V>(m: map<string, V>, evict: string -> bool): (r: map<string, V>)
    ensures forall k :: k in r <==> k in m && !evict(k)
    ensures forall k :: k in r ==> r[k] == m[k]
  {
    map k | k in m && !evict(k) :: m[k]
  }

  /** The keys of `m` that `evict` selects. */
  function Selected<V>(m: map<string, V>, evict: string -> bool): set<string> {
    set k | k in m && evict(k)
  }

  /** Evicting twice removes nothing the first eviction did not. */
  lemma KeptIdempotent<V>(m: map<string, V>, evict: string -> bool)
    ensures Kept(Kept(m, evict), evict) == Kept(m, evict)
    ensures Selected(Kept(m, evict), evict) == {}
  {
    assert forall k :: k in Selected(Kept(m, evict), evict) ==> false;
  }

  /** The keys `s` without `key`. */
  function Without(s: seq<string>, key: string): (r: seq<string>)
    ensures forall k :: k in r <==> k in s && k != key
    ensures (forall i, j :: 0 <= i < j < |s| ==> s[i] != s[j]) ==> forall i, j :: 0 <= i < j < |r| ==> r[i] != r[j]
  {
    if s == [] then []
    else if s[0] == key then Without(s[1..], key)
    else
      var rest := Without(s[1..], key);
      assert (forall i, j :: 0 <= i < j < |s| ==> s[i] != s[j]) ==> s[0] !in s[1..];
      [s[0]] + rest
  }

  /** One web storage area. */
  class Storage<V> {
    const accessible: bool
    var items: map<string, V>
    var keys: seq<string>

    ghost predicate Valid()
      reads this
    {
      && (forall i, j :: 0 <= i < j < |keys| ==> keys[i] != keys[j])
      && (forall k :: k in keys <==> k in items)
    }

    constructor (accessible: bool, items: map<string, V>, keys: seq<string>)
      requires forall i, j :: 0 <= i < j < |keys| ==> keys[i] != keys[j]
      requires forall k :: k in keys <==> k in items
      ensures Valid() && this.accessible == accessible && this.items == items && this.keys == keys
    {
      this.accessible := accessible;
      this.items := items;
      this.keys := keys;
    }

    /** `getItem(key)`: `None` stands for null. */
    function GetItem(key: string): (r: Option<V>)
      reads this
      ensures r.Some? <==> key in items
    {
      if key in items then Some(items[key]) else None
    }

    /** `setItem(key, value)`. */
    method SetItem(key: string, value: V)
      requires Valid()
      modifies this
      ensures Valid()
      ensures items == old(items)[key := value]
      ensures keys == if key in old(items) then old(keys) else old(keys) + [key]
    {
      if key !in items {
        keys := keys + [key];
      }
      items := items[key := value];
    }

    /** `removeItem(key)`. */
    method RemoveItem(key: string)
      requires Valid()
      modifies this
      ensures Valid()
      ensures items == old(items) - {key}
      ensures keys == Without(old(keys), key)
    {
      items := items - {key};
      keys := Without(keys, key);
    }
  }

  /** The entries of `m` left after evicting the selected keys among `ks`. */
  function KeptAmong<V>(m: map<string, V>, ks: seq<string>, evict: string -> bool): map<string, V> {
    map k | k in m && !(k in ks && evict(k)) :: m[k]
  }

  /** The selected keys among `ks`. */
  function SelectedAmong(ks: seq<string>, evict: string -> bool): set<string> {
    set k | k in ks && evict(k)
  }

  /** Visiting one more key removes it when it is selected, and nothing else. */
  lemma KeptAmongStep<V>(m: map<string, V>, ks: seq<string>, key: string, evict: string -> bool)
    ensures KeptAmong(m, ks + [key], evict) ==
      if evict(key) then KeptAmong(m, ks, evict) - {key} else KeptAmong(m, ks, evict)
    ensures SelectedAmong(ks + [key], evict) ==
      if evict(key) then SelectedAmong(ks, evict) + {key} else SelectedAmong(ks, evict)
  {
  }

  /** In a sequence without repetitions, no element occurs before its own position. */
  lemma NotBefore(s: seq<string>, i: nat)
    requires forall a, b :: 0 <= a < b < |s| ==> s[a] != s[b]
    requires i < |s|
    ensures s[i] !in s[..i]
  {
  }

  /** Once every key of `m` has been visited, what is left is `Kept(m, evict)`. */
  lemma KeptAmongAll<V>(m: map<string, V>, ks: seq<string>, evict: string -> bool)
    requires forall k :: k in ks <==> k in m
    ensures KeptAmong(m, ks, evict) == Kept(m, evict)
    ensures SelectedAmong(ks, evict) == Selected(m, evict)
  {
  }

  /**
   * `Object.keys(storage).forEach(key => { if (evict(key)) storage.removeItem(key) })`:
   * exactly the selected keys go, every other entry keeps its value, and the
   * count is the number of keys removed.
   */
  method RemoveMatching<V>(storage: Storage<V>, evict: string -> bool) returns (count: nat)
    requires storage.Valid()
    modifies storage
    ensures storage.Valid()
    ensures storage.items == Kept(old(storage.items), evict)
    ensures count == |Selected(old(storage.items), evict)|
  {
    var snapshot := storage.keys;
    ghost var before := storage.items;
    count := 0;
    for i := 0 to |snapshot|
      invariant forall a, b :: 0 <= a < b < |snapshot| ==> snapshot[a] != snapshot[b]
      invariant storage.Valid()
      invariant storage.items == KeptAmong(before, snapshot[..i], evict)
      invariant count == |SelectedAmong(snapshot[..i], evict)|
    {
      var key := snapshot[i];
      assert snapshot[..i + 1] == snapshot[..i] + [key];
      KeptAmongStep(before, snapshot[..i], key, evict);
      NotBefore(snapshot, i);
      if evict(key) {
        storage.RemoveItem(key);
        count := count + 1;
      }
    }
    assert snapshot[..|snapshot|] == snapshot;
    KeptAmongAll(before, snapshot, evict);
  }
}
