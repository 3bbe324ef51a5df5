/** The wishlist view (src/components/Wishlist.js): the fetched items, removal
    and clearing, the grouping of items into per-category buckets with an
    'Other' fallback, and the per-category scroll-arrow visibility. */
module WishlistView {
  import opened Base
  import opened Js
  import opened Seqs
  import opened Effects
  import Api

  /** The art a wishlist item points to; `category` is None when absent. */
  datatype ArtRef = ArtRef(id: int, artTitle: string, category: Option<string>)

  /** A wishlist entry; `art` is None when the server sent null or nothing. */
  datatype WishlistItem = WishlistItem(id: int, art: Option<ArtRef>)

  /** `item.art?.category || 'Other'`: a missing art, a missing category and
      the empty category all fall back to 'Other'. */
  function CategoryKey(item: WishlistItem): (c: string)
    ensures c != ""
    ensures c != "Other" ==> item.art.Some? && item.art.value.category == Some(c)
    ensures item.art.Some? && item.art.value.category.Some? && item.art.value.category.value != ""
            ==> c == item.art.value.category.value
  {
    if item.art.Some? && item.art.value.category.Some? && item.art.value.category.value != "" then
      item.art.value.category.value
    else
      "Other"
  }

  /** The keys of the grouping object in the order the reduce creates them:
      each category once, at its first occurrence. */
  function CategoryKeys(items: seq<WishlistItem>): seq<string>
  {
    if items == [] then []
    else
      var keys := CategoryKeys(items[..|items| - 1]);
      var c := CategoryKey(items[|items| - 1]);
      if c in keys then keys else keys + [c]
  }

  /** The bucket of category `c`: the items with that key, in wishlist order. */
  function Bucket(items: seq<WishlistItem>, c: string): seq<WishlistItem>
  {
    Filter(items, (item: WishlistItem) => CategoryKey(item) == c)
  }

  predicate Distinct(keys: seq<string>)
  {
    forall i, j :: 0 <= i < j < |keys| ==> keys[i] != keys[j]
  }

  /** The category keys are distinct, and a category is a key exactly when
      some item falls into it. */
  lemma {:induction false} CategoryKeysSound(items: seq<WishlistItem>)
    ensures Distinct(CategoryKeys(items))
    ensures forall c :: c in CategoryKeys(items) <==> exists item :: item in items && CategoryKey(item) == c
  {
    if items != [] {
      var init, last := items[..|items| - 1], items[|items| - 1];
      CategoryKeysSound(init);
      assert items == init + [last];
      forall c | c in CategoryKeys(items)
        ensures exists item :: item in items && CategoryKey(item) == c
      {
        if c in CategoryKeys(init) {
          var item :| item in init && CategoryKey(item) == c;
          assert item in items;
        } else {
          assert CategoryKey(last) == c;
        }
      }
      forall c | exists item :: item in items && CategoryKey(item) == c
        ensures c in CategoryKeys(items)
      {
        var item :| item in items && CategoryKey(item) == c;
        if item != last {
          assert item in init;
        }
      }
    }
  }

  /** A category that no item falls into has an empty bucket. */
  lemma EmptyBucket(items: seq<WishlistItem>, c: string)
    requires c !in CategoryKeys(items)
    ensures Bucket(items, c) == []
  {
    CategoryKeysSound(items);
    FilterNone(items, (item: WishlistItem) => CategoryKey(item) == c);
  }

  /** Every item lies in the bucket of its own category and in no other one,
      and its category is among the keys. */
  lemma ExactlyOneBucket(items: seq<WishlistItem>, item: WishlistItem, c: string)
    requires item in items
    ensures CategoryKey(item) in CategoryKeys(items)
    ensures item in Bucket(items, c) <==> c == CategoryKey(item)
  {
    CategoryKeysSound(items);
  }

  /** The total size of the buckets of `keys`. */
  function BucketSizes(items: seq<WishlistItem>, keys: seq<string>): nat
  {
    if keys == [] then 0 else |Bucket(items, keys[0])| + BucketSizes(items, keys[1..])
  }

  /** Appending one item grows exactly the bucket of its category by one. */
  lemma {:induction false} BucketSizesSnoc(items: seq<WishlistItem>, x: WishlistItem, keys: seq<string>)
    requires Distinct(keys)
    ensures BucketSizes(items + [x], keys) == BucketSizes(items, keys) + (if CategoryKey(x) in keys then 1 else 0)
  {
    if keys != [] {
      BucketSizesSnoc(items, x, keys[1..]);
      FilterSnoc(items, x, (item: WishlistItem) => CategoryKey(item) == keys[0]);
      assert CategoryKey(x) in keys <==> CategoryKey(x) == keys[0] || CategoryKey(x) in keys[1..];
      if CategoryKey(x) == keys[0] {
        assert keys[0] !in keys[1..];
      }
    }
  }

  /** Adding one more key adds its bucket's size. */
  lemma {:induction false} BucketSizesAppend(items: seq<WishlistItem>, keys: seq<string>, c: string)
    ensures BucketSizes(items, keys + [c]) == BucketSizes(items, keys) + |Bucket(items, c)|
  {
    if keys == [] {
      assert [] + [c] == [c];
      assert [c][1..] == [];
    } else {
      assert (keys + [c])[1..] == keys[1..] + [c];
      BucketSizesAppend(items, keys[1..], c);
    }
  }

  /** The buckets partition the wishlist: their sizes add up to its length. */
  lemma {:induction false} BucketsPartition(items: seq<WishlistItem>)
    ensures BucketSizes(items, CategoryKeys(items)) == |items|
  {
    if items != [] {
      var init, last := items[..|items| - 1], items[|items| - 1];
      assert items == init + [last];
      BucketsPartition(init);
      CategoryKeysSound(init);
      var keys := CategoryKeys(init);
      BucketSizesSnoc(init, last, keys);
      if CategoryKey(last) !in keys {
        BucketSizesAppend(items, keys, CategoryKey(last));
        EmptyBucket(init, CategoryKey(last));
        FilterSnoc(init, last, (item: WishlistItem) => CategoryKey(item) == CategoryKey(last));
      }
    }
  }

  /** Appending one item adds it to the end of its own bucket only. */
  lemma BucketSnoc(items: seq<WishlistItem>, x: WishlistItem)
    ensures forall d :: Bucket(items + [x], d) == Bucket(items, d) + (if CategoryKey(x) == d then [x] else [])
  {
    forall d
      ensures Bucket(items + [x], d) == Bucket(items, d) + (if CategoryKey(x) == d then [x] else [])
    {
      FilterSnoc(items, x, (it: WishlistItem) => CategoryKey(it) == d);
    }
  }

  /** `keys` and `groups` are the grouping of `items`: the keys in
      first-occurrence order, one group per key, each group its bucket. */
  ghost predicate Grouped(items: seq<WishlistItem>, keys: seq<string>, groups: map<string, seq<WishlistItem>>)
  {
    && keys == CategoryKeys(items)
    && (forall c :: c in groups <==> c in keys)
    && (forall c :: c in groups ==> groups[c] == Bucket(items, c))
  }

  /** One step of the reduce keeps the grouping: the item's category gets a
      key on first sight, and the item goes at the end of its group. */
  lemma GroupStep(items: seq<WishlistItem>, item: WishlistItem, keys: seq<string>, groups: map<string, seq<WishlistItem>>)
    requires Grouped(items, keys, groups)
    ensures var c := CategoryKey(item);
            Grouped(items + [item], if c in groups then keys else keys + [c],
                    groups[c := (if c in groups then groups[c] else []) + [item]])
  {
    var c := CategoryKey(item);
    assert (items + [item])[..|items|] == items;
    BucketSnoc(items, item);
    if c !in groups {
      EmptyBucket(items, c);
    }
  }

  /** The `groupedWishlist` reduce as it is evidently meant to work (as it
      does over an object without a prototype, or a `Map`): walks the
      wishlist once, creating a key on first sight and pushing each item onto
      its category's bucket. */
  method GroupByCategory(items: seq<WishlistItem>) returns (keys: seq<string>, groups: map<string, seq<WishlistItem>>)
    ensures keys == CategoryKeys(items)
    ensures forall c :: c in groups <==> c in keys
    ensures forall c :: c in groups ==> groups[c] == Bucket(items, c)
  {
    keys, groups := [], map[];
    var i := 0;
    while i < |items|
      invariant 0 <= i <= |items|
      invariant Grouped(items[..i], keys, groups)
    {
      var item := items[i];
      var c := CategoryKey(item);
      GroupStep(items[..i], item, keys, groups);
      assert items[..i + 1] == items[..i] + [item];
      var bucket := if c in groups then groups[c] else [];
      keys := if c in groups then keys else keys + [c];
      groups := groups[c := bucket + [item]];
      i := i + 1;
    }
    assert items[..|items|] == items;
  }

  /** The members a plain object literal inherits from `Object.prototype`.
      Reading any of them on `{}` gives a truthy value that is not an array. */
  const InheritedKeys: set<string> :=
    {"constructor", "__defineGetter__", "__defineSetter__", "hasOwnProperty", "__lookupGetter__",
     "__lookupSetter__", "isPrototypeOf", "propertyIsEnumerable", "toString", "valueOf",
     "__proto__", "toLocaleString"}

  /** The error the reduce as written throws on such a category. */
  const PushNotAFunction := JsError(Str("acc[category].push is not a function"))

  /** Whether the reduce as written throws: some item's category names an
      inherited member, so `!acc[category]` is false, no bucket is created,
      and `push` is looked up on the inherited value. */
  predicate ReduceThrows(items: seq<WishlistItem>)
  {
    exists i :: 0 <= i < |items| && CategoryKey(items[i]) in InheritedKeys
  }

  /** The `groupedWishlist` reduce as written, starting from `{}`: it throws
      at the first item whose category is inherited, and otherwise builds the
      same grouping as `GroupByCategory`. */
  method GroupByCategoryAsWritten(items: seq<WishlistItem>)
    returns (result: Result<(seq<string>, map<string, seq<WishlistItem>>), JsError>)
    ensures result.Failure? <==> ReduceThrows(items)
    ensures result.Failure? ==> result.error == PushNotAFunction
    ensures result.Success? ==> Grouped(items, result.value.0, result.value.1)
  {
    var keys: seq<string>, groups: map<string, seq<WishlistItem>> := [], map[];
    var i := 0;
    while i < |items|
      invariant 0 <= i <= |items|
      invariant Grouped(items[..i], keys, groups)
      invariant forall j :: 0 <= j < i ==> CategoryKey(items[j]) !in InheritedKeys
    {
      var item := items[i];
      var c := CategoryKey(item);
      if c in InheritedKeys {
        return Failure(PushNotAFunction);
      }
      GroupStep(items[..i], item, keys, groups);
      assert items[..i + 1] == items[..i] + [item];
      var bucket := if c in groups then groups[c] else [];
      keys := if c in groups then keys else keys + [c];
      groups := groups[c := bucket + [item]];
      i := i + 1;
    }
    assert items[..|items|] == items;
    return Success((keys, groups));
  }

  /** A single item in the category "constructor": the reduce as written
      throws, while the intended grouping has one bucket holding it. */
  lemma InheritedCategoryThrows()
    ensures var items := [WishlistItem(1, Some(ArtRef(10, "a", Some("constructor"))))];
            ReduceThrows(items)
            && CategoryKeys(items) == ["constructor"] && Bucket(items, "constructor") == items
  {
    var items := [WishlistItem(1, Some(ArtRef(10, "a", Some("constructor"))))];
    assert CategoryKey(items[0]) in InheritedKeys;
    assert items[..0] == [] && items[1..] == [];
  }

  /** The worked example: two paintings, a sculpture and an item without a
      category give the buckets Painting (2), Sculpture (1) and Other (1). */
  lemma GroupingExample()
    ensures
      var painting := Some(ArtRef(10, "a", Some("Painting")));
      var items := [WishlistItem(1, painting), WishlistItem(2, Some(ArtRef(11, "b", Some("Sculpture")))),
                    WishlistItem(3, painting), WishlistItem(4, Some(ArtRef(12, "c", None)))];
      CategoryKeys(items) == ["Painting", "Sculpture", "Other"]
      && Bucket(items, "Painting") == [items[0], items[2]]
      && Bucket(items, "Sculpture") == [items[1]]
      && Bucket(items, "Other") == [items[3]]
  {
    var painting := Some(ArtRef(10, "a", Some("Painting")));
    var items := [WishlistItem(1, painting), WishlistItem(2, Some(ArtRef(11, "b", Some("Sculpture")))),
                  WishlistItem(3, painting), WishlistItem(4, Some(ArtRef(12, "c", None)))];
    assert items[..1][..0] == [] && items[..2][..1] == items[..1] && items[..3][..2] == items[..2];
    assert items[..4] == items && items[..4][..3] == items[..3];
    assert CategoryKeys(items[..1]) == ["Painting"];
    assert CategoryKeys(items[..2]) == ["Painting", "Sculpture"];
    assert CategoryKeys(items[..3]) == ["Painting", "Sculpture"];
    assert items[3..][1..] == [] && items[2..][1..] == items[3..] && items[1..][1..] == items[2..];
  }

  /** `wishlist.filter(item => item.id !== id)`: every item with that id is
      gone, every other item stays, as often as it was there and in its
      order. */
  function Without(items: seq<WishlistItem>, id: int): (r: seq<WishlistItem>)
    ensures forall item :: item in r <==> item in items && item.id != id
    ensures forall item :: multiset(r)[item] == if item.id == id then 0 else multiset(items)[item]
    ensures IsSubsequence(r, items)
  {
    var p := (item: WishlistItem) => item.id != id;
    FilterIsSubsequence(items, p);
    FilterCount(items, p);
    Filter(items, p)
  }

  /** A scroll container's geometry, in pixels. */
  datatype ScrollMetrics = ScrollMetrics(scrollLeft: int, clientWidth: int, scrollWidth: int)

  datatype Arrows = Arrows(showLeft: bool, showRight: bool)

  /** The arrows for one container: the left one unless it is scrolled to the
      start, the right one unless its right edge reaches the content's end. */
  function ArrowsFor(m: ScrollMetrics): (a: Arrows)
    ensures a.showLeft <==> m.scrollLeft != 0
    ensures a.showRight <==> m.scrollLeft + m.clientWidth < m.scrollWidth
  {
    var isAtStart := m.scrollLeft == 0;
    var isAtEnd := m.scrollLeft + m.clientWidth >= m.scrollWidth;
    Arrows(!isAtStart, !isAtEnd)
  }

  /** The wishlist component's state. `error` is null until a call fails. */
  class Wishlist {
    const userId: Option<int>
    var wishlist: seq<WishlistItem>
    var loading: bool
    var error: JsValue
    var scrollVisibility: map<string, Arrows>
    var effects: seq<Effect>

    constructor (session: Option<int>)
      ensures userId == session && wishlist == [] && loading && error == Null
      ensures scrollVisibility == map[] && effects == []
    {
      userId := session;
      wishlist, loading, error := [], true, Null;
      scrollVisibility, effects := map[], [];
    }

    /** The load effect. Without a session the façade throws before any
        request, so the error is set to its network-error text. */
    method Load(outcome: Api.AxiosOutcome<seq<WishlistItem>>)
      modifies this
      ensures !loading && scrollVisibility == old(scrollVisibility)
      ensures userId.None? ==>
                effects == old(effects) && wishlist == old(wishlist) && error == Str("Network error: User not logged in.")
      ensures userId.Some? ==> effects == old(effects) + [Send(GetUserWishlistRequest(userId.value))]
      ensures userId.Some? && outcome.Resolved? ==> wishlist == outcome.data && error == old(error)
      ensures userId.Some? && outcome.Rejected? ==>
                wishlist == old(wishlist) && error == Api.HandleApiError(outcome.error).message
      ensures old(error) == Null && error != Null ==> Truthy(error)
    {
      var exchange := Api.GetUserWishlist(userId, outcome);
      if exchange.sent.Some? {
        effects := effects + [Send(exchange.sent.value)];
      }
      match exchange.result {
        case Success(data) => wishlist := data;
        case Failure(e) => error := e.message;
      }
      loading := false;
    }

    /** `handleRemoveFromWishlist`: on success the list becomes `Without` of
        the old one; on failure the error is set and the list is unchanged. */
    method RemoveItem(wishlistItemId: int, outcome: Api.AxiosOutcome<()>)
      modifies this
      ensures effects == old(effects) + [Send(RemoveFromWishlistRequest(wishlistItemId))]
      ensures outcome.Resolved? ==> wishlist == Without(old(wishlist), wishlistItemId) && error == old(error)
      ensures outcome.Rejected? ==>
                wishlist == old(wishlist) && Truthy(error) && error == Api.HandleApiError(outcome.error).message
      ensures loading == old(loading) && scrollVisibility == old(scrollVisibility)
    {
      effects := effects + [Send(RemoveFromWishlistRequest(wishlistItemId))];
      match Api.Call(outcome) {
        case Success(_) =>
          wishlist := Without(wishlist, wishlistItemId);
        case Failure(e) =>
          error := e.message;
      }
    }

    /** `handleClearWishlist`: empties the list on success; on failure the
        error is set and the list is unchanged. */
    method Clear(outcome: Api.AxiosOutcome<()>)
      modifies this
      ensures effects == old(effects) + [Send(ClearWishlistRequest(userId))]
      ensures outcome.Resolved? ==> wishlist == [] && error == old(error)
      ensures outcome.Rejected? ==>
                wishlist == old(wishlist) && Truthy(error) && error == Api.HandleApiError(outcome.error).message
      ensures loading == old(loading) && scrollVisibility == old(scrollVisibility)
    {
      effects := effects + [Send(ClearWishlistRequest(userId))];
      match Api.Call(outcome) {
        case Success(_) => wishlist := [];
        case Failure(e) => error := e.message;
      }
    }

    /** `onScroll(category)`: `container` is the category's scroll element,
        None when it is not mounted, in which case nothing changes. Only the
        entry of that category is replaced. */
    method OnScroll(category: string, container: Option<ScrollMetrics>)
      modifies this
      ensures container.None? ==> scrollVisibility == old(scrollVisibility)
      ensures container.Some? ==> scrollVisibility == old(scrollVisibility)[category := ArrowsFor(container.value)]
      ensures wishlist == old(wishlist) && error == old(error) && loading == old(loading) && effects == old(effects)
    {
      if container.Some? {
        scrollVisibility := scrollVisibility[category := ArrowsFor(container.value)];
      }
    }

    /** The clear button's `disabled` attribute. */
    function ClearDisabled(): (disabled: bool)
      reads this
      ensures disabled <==> wishlist == []
    {
      |wishlist| == 0
    }
  }
}
