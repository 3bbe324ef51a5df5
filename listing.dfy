/** The art listing with its category and price filter. The user listing
    (src/components/UserViewArts.js) and the admin listing
    (src/components/ViewArts.jsx) contain the same filter code; this module
    models both. */
module ArtListing {
  import opened Base
  import opened Js
  import opened Seqs

  datatype Art = Art(id: int, artTitle: string, category: string, price: real)

  /** The filter state: the ticked categories (in ticking order) and the two
      price fields. A price field is kept as what `parseFloat` makes of its
      text: None when that is NaN, which includes the empty field. */
  datatype Filters = Filters(categories: seq<string>, lower: Option<real>, upper: Option<real>)

  const InitialFilters := Filters([], None, None)

  datatype Bound = Lower | Upper

  /** A change event from the filter form: a category checkbox, or one of the
      two price fields (the form has no other named inputs). */
  datatype FilterEvent =
    | CategoryBox(value: string, checked: bool)
    | PriceField(bound: Bound, parsed: Option<real>)

  /** `handleFilterChange`: ticking appends the category, unticking removes
      every occurrence of it and keeps every other entry, as often as it was
      there and in its order; a price edit replaces only that bound. */
  function ChangeFilters(f: Filters, ev: FilterEvent): (r: Filters)
    ensures ev.CategoryBox? && ev.checked ==> r.categories == f.categories + [ev.value]
    ensures ev.CategoryBox? && !ev.checked ==>
              (forall c :: c in r.categories <==> c in f.categories && c != ev.value)
              && (forall c :: multiset(r.categories)[c] == if c == ev.value then 0 else multiset(f.categories)[c])
              && IsSubsequence(r.categories, f.categories)
    ensures ev.CategoryBox? ==> r.lower == f.lower && r.upper == f.upper
    ensures ev.PriceField? ==> r.categories == f.categories
    ensures ev.PriceField? && ev.bound == Lower ==> r.lower == ev.parsed && r.upper == f.upper
    ensures ev.PriceField? && ev.bound == Upper ==> r.upper == ev.parsed && r.lower == f.lower
  {
    match ev
    case CategoryBox(value, checked) =>
      if checked then f.(categories := f.categories + [value])
      else
        var kept := Filter(f.categories, c => c != value);
        FilterIsSubsequence(f.categories, c => c != value);
        FilterCount(f.categories, c => c != value);
        f.(categories := kept)
    case PriceField(bound, parsed) =>
      if bound == Lower then f.(lower := parsed) else f.(upper := parsed)
  }

  /** `parseFloat(lower) || 0`: NaN and 0 both give 0. */
  function LowerLimit(lower: Option<real>): real
  {
    if lower.Some? && lower.value != 0.0 then lower.value else 0.0
  }

  /** `parseFloat(upper) || Infinity`, with None standing for Infinity. */
  function UpperLimit(upper: Option<real>): Option<real>
  {
    if upper.Some? && upper.value != 0.0 then upper else None
  }

  /** The predicate inside `applyFilters`. */
  predicate Keeps(f: Filters, art: Art)
  {
    && (|f.categories| == 0 || art.category in f.categories)
    && LowerLimit(f.lower) <= art.price
    && (UpperLimit(f.upper).None? || art.price <= UpperLimit(f.upper).value)
  }

  /** `applyFilters`: an order-preserving subsequence of the full list whose
      members are exactly the arts in the selected categories (any category
      when none is selected) whose price lies within both bounds, inclusive. */
  function Apply(arts: seq<Art>, f: Filters): (r: seq<Art>)
    ensures IsSubsequence(r, arts)
    ensures forall a :: a in r <==>
              && a in arts
              && (|f.categories| == 0 || a.category in f.categories)
              && LowerLimit(f.lower) <= a.price
              && (UpperLimit(f.upper).None? || a.price <= UpperLimit(f.upper).value)
  {
    FilterIsSubsequence(arts, a => Keeps(f, a));
    Filter(arts, a => Keeps(f, a))
  }

  /** Applying the same filters to an already filtered list changes nothing,
      so recomputing from the full list and refiltering the shown list agree
      when the filters have not changed. */
  lemma ApplyIdempotent(arts: seq<Art>, f: Filters)
    ensures Apply(Apply(arts, f), f) == Apply(arts, f)
  {
    FilterIdempotent(arts, a => Keeps(f, a));
  }

  /** Empty or zero price fields leave the price range open: 0 below,
      unbounded above. With no category ticked as well, every art whose price
      is not negative is shown. */
  lemma OpenBounds(arts: seq<Art>, f: Filters)
    requires f.lower.None? || f.lower == Some(0.0)
    requires f.upper.None? || f.upper == Some(0.0)
    requires f.categories == []
    requires forall i :: 0 <= i < |arts| ==> arts[i].price >= 0.0
    ensures Apply(arts, f) == arts
  {
    FilterAll(arts, a => Keeps(f, a));
  }

  /** The worked example: bounds 10 and 50 over prices 5, 10, 25, 50, 75
      keep exactly the arts priced 10, 25 and 50, both bounds included. */
  lemma PriceRangeExample(c: string)
    ensures
      var arts := [Art(1, "a", c, 5.0), Art(2, "b", c, 10.0), Art(3, "c", c, 25.0),
                   Art(4, "d", c, 50.0), Art(5, "e", c, 75.0)];
      Apply(arts, Filters([], Some(10.0), Some(50.0))) == [arts[1], arts[2], arts[3]]
  {
    var arts := [Art(1, "a", c, 5.0), Art(2, "b", c, 10.0), Art(3, "c", c, 25.0),
                 Art(4, "d", c, 50.0), Art(5, "e", c, 75.0)];
    var f := Filters([], Some(10.0), Some(50.0));
    var p := a => Keeps(f, a);
    assert arts[1..][1..][1..][1..][1..] == [];
    assert Filter(arts[4..], p) == [];
    assert Filter(arts[3..], p) == [arts[3]];
    assert Filter(arts[2..], p) == [arts[2], arts[3]];
    assert Filter(arts[1..], p) == [arts[1], arts[2], arts[3]];
  }

  /** What the listing renders. */
  datatype Screen = LoadingScreen | ErrorScreen(text: string) | NoProducts | Products(shown: seq<Art>)

  /** Loading text first, then the error text, then either the
      "No products available" notice or the filtered arts. */
  function ScreenOf(loading: bool, error: Option<string>, filteredArts: seq<Art>): (r: Screen)
    ensures r.NoProducts? <==> !loading && error.None? && filteredArts == []
    ensures r.Products? ==> r.shown == filteredArts && |r.shown| > 0
  {
    if loading then LoadingScreen
    else if error.Some? then ErrorScreen(error.value)
    else if filteredArts == [] then NoProducts
    else Products(filteredArts)
  }

  /** The listing component's state. */
  class ListingView {
    var arts: seq<Art>
    var categories: seq<string>
    var filteredArts: seq<Art>
    var loading: bool
    var error: Option<string>
    var filters: Filters

    constructor ()
      ensures arts == [] && categories == [] && filteredArts == []
      ensures loading && error == None && filters == InitialFilters
    {
      arts, categories, filteredArts := [], [], [];
      loading, error, filters := true, None, InitialFilters;
    }

    /** The mount effect's `fetchArts`: on success both lists become the
        fetched arts; on failure the error text is set. Loading ends either way. */
    method LoadArts(outcome: Result<seq<Art>, JsError>)
      modifies this
      ensures !loading
      ensures outcome.Success? ==> arts == outcome.value && filteredArts == outcome.value && error == old(error)
      ensures outcome.Failure? ==> error == Some("Error fetching art items")
                                   && arts == old(arts) && filteredArts == old(filteredArts)
      ensures categories == old(categories) && filters == old(filters)
    {
      match outcome {
        case Success(data) =>
          arts := data;
          filteredArts := data;
          loading := false;
        case Failure(_) =>
          error := Some("Error fetching art items");
          loading := false;
      }
    }

    /** The mount effect's `fetchCategories`: a failure is only logged. */
    method LoadCategories(outcome: Result<seq<string>, JsError>)
      modifies this
      ensures categories == (if outcome.Success? then outcome.value else old(categories))
      ensures arts == old(arts) && filteredArts == old(filteredArts) && loading == old(loading)
      ensures error == old(error) && filters == old(filters)
    {
      if outcome.Success? {
        categories := outcome.value;
      }
    }

    method HandleFilterChange(ev: FilterEvent)
      modifies this
      ensures filters == ChangeFilters(old(filters), ev)
      ensures arts == old(arts) && filteredArts == old(filteredArts) && categories == old(categories)
      ensures loading == old(loading) && error == old(error)
    {
      filters := ChangeFilters(filters, ev);
    }

    /** `applyFilters`: recomputed from the full list, never from the
        previously shown one. */
    method ApplyFilters()
      modifies this
      ensures filteredArts == Apply(arts, filters)
      ensures arts == old(arts) && filters == old(filters) && categories == old(categories)
      ensures loading == old(loading) && error == old(error)
    {
      filteredArts := Apply(arts, filters);
    }

    function Shown(): Screen
      reads this
    {
      ScreenOf(loading, error, filteredArts)
    }
  }
}
