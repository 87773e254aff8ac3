/**
 * The featured map of src/services/pinterestEmbedService.js, apart from the
 * sample table it is built over: for each category id in turn, the id's
 * decimal text maps to the category's list when that list is non-empty.
 */
module FeaturedMap {
  import opened Wrappers
  import opened Text

  /**
   * The featured map built from the category ids `keys`, in order: each id
   * whose list `images` gives is non-empty is entered, with that list, under
   * its decimal text.
   */
  function FeaturedFrom<V>(keys: seq<int>, images: int -> seq<V>): map<string, seq<V>> {
    if keys == [] then map[]
    else
      var before := FeaturedFrom(keys[..|keys| - 1], images);
      var k := keys[|keys| - 1];
      if |images(k)| > 0 then before[IntToString(k) := images(k)] else before
  }

  /** One more id extends the featured map by that id alone. */
  lemma FeaturedFromStep<V>(keys: seq<int>, i: nat, images: int -> seq<V>)
    requires i < |keys|
    ensures FeaturedFrom(keys[..i + 1], images) ==
      if |images(keys[i])| > 0 then FeaturedFrom(keys[..i], images)[IntToString(keys[i]) := images(keys[i])]
      else FeaturedFrom(keys[..i], images)
  {
    assert keys[..i + 1][..i] == keys[..i];
  }

  /** Every key of the featured map is the decimal text of one of the ids. */
  lemma {:induction false} FeaturedFromKeys<V>(keys: seq<int>, images: int -> seq<V>)
    ensures forall key :: key in FeaturedFrom(keys, images) ==> exists k :: k in keys && key == IntToString(k)
  {
    if keys != [] {
      var init := keys[..|keys| - 1];
      var last := keys[|keys| - 1];
      FeaturedFromKeys(init, images);
      forall key | key in FeaturedFrom(keys, images)
        ensures exists k :: k in keys && key == IntToString(k)
      {
        if key in FeaturedFrom(init, images) {
          var k :| k in init && key == IntToString(k);
          assert k in keys;
        } else {
          assert last in keys;
        }
      }
    }
  }

  /** Over distinct ids, the last id's text is not yet a key of the map built from the ids before it. */
  lemma LastKeyFresh<V>(keys: seq<int>, images: int -> seq<V>)
    requires keys != []
    requires forall i, j :: 0 <= i < j < |keys| ==> keys[i] != keys[j]
    ensures IntToString(keys[|keys| - 1]) !in FeaturedFrom(keys[..|keys| - 1], images)
  {
    var init := keys[..|keys| - 1];
    var last := keys[|keys| - 1];
    FeaturedFromKeys(init, images);
    if IntToString(last) in FeaturedFrom(init, images) {
      var k :| k in init && IntToString(last) == IntToString(k);
      IntToStringInjective(k, last);
      assert false;
    }
  }

  /**
   * Over distinct ids, the featured map holds exactly the ids whose list is
   * non-empty, each with its list, under its decimal text.
   */
  lemma {:induction false} FeaturedFromEntries<V>(keys: seq<int>, images: int -> seq<V>)
    requires forall i, j :: 0 <= i < j < |keys| ==> keys[i] != keys[j]
    ensures forall k :: k in keys ==> (IntToString(k) in FeaturedFrom(keys, images) <==> |images(k)| > 0)
    ensures forall k :: k in keys && IntToString(k) in FeaturedFrom(keys, images) ==>
      FeaturedFrom(keys, images)[IntToString(k)] == images(k)
    ensures forall key :: key in FeaturedFrom(keys, images) ==> exists k :: k in keys && key == IntToString(k)
  {
    FeaturedFromKeys(keys, images);
    forall k | k in keys
      ensures IntToString(k) in FeaturedFrom(keys, images) <==> |images(k)| > 0
      ensures IntToString(k) in FeaturedFrom(keys, images) ==> FeaturedFrom(keys, images)[IntToString(k)] == images(k)
    {
      FeaturedEntry(keys, images, k);
    }
  }

  /** Over distinct ids, id `k` has an entry exactly when its list is non-empty, and the entry is that list. */
  lemma {:induction false} FeaturedEntry<V>(keys: seq<int>, images: int -> seq<V>, k: int)
    requires forall i, j :: 0 <= i < j < |keys| ==> keys[i] != keys[j]
    requires k in keys
    ensures IntToString(k) in FeaturedFrom(keys, images) <==> |images(k)| > 0
    ensures IntToString(k) in FeaturedFrom(keys, images) ==> FeaturedFrom(keys, images)[IntToString(k)] == images(k)
  {
    var init := keys[..|keys| - 1];
    var last := keys[|keys| - 1];
    if k == last {
      LastKeyFresh(keys, images);
    } else {
      assert k in init;
      FeaturedEntry(init, images, k);
      if IntToString(k) == IntToString(last) {
        IntToStringInjective(k, last);
      }
    }
  }

  /**
   * The loop of `getFeaturedPinterestImages`: each key's text is parsed back
   * to a number, and the list `images` gives for it is kept under the text
   * when it is non-empty.
   */
  method CollectFeatured<V>(keys: seq<int>, images: int -> seq<V>) returns (featured: map<string, seq<V>>)
    ensures featured == FeaturedFrom(keys, images)
  {
    featured := map[];
    for i := 0 to |keys|
      invariant featured == FeaturedFrom(keys[..i], images)
    {
      var categoryId := IntToString(keys[i]);
      var parsed := ParseInt(categoryId);
      IntToStringRoundTrip(keys[i]);
      var list := if parsed.Some? then images(parsed.value) else [];
      if |list| > 0 {
        featured := featured[categoryId := list];
      }
      FeaturedFromStep(keys, i, images);
    }
    assert keys[..|keys|] == keys;
  }
}
