/**
 * The buyer's product filter panel of components/buyer/product-filter.tsx:
 * a search text, a category chosen among fixed buttons, and a price range
 * whose two ends are typed as numbers. "Apply Filters" and the reset button
 * hand a filter object to the page; the handed object is the methods'
 * result.
 */
module ProductFilter {
  import opened Common
  import opened Text

  const AllCategories: string := "All"
  const DefaultMin: int := 0
  const DefaultMax: int := 1000

  /** The object given to `onFilterChange`. */
  datatype Filters = Filters(search: string, category: string, minPrice: int, maxPrice: int)

  /** The category sent on: "All" is sent as the empty category. */
  function EmittedCategory(category: string): (c: string)
    ensures category == AllCategories ==> c == ""
    ensures category != AllCategories ==> c == category
  {
    if category == AllCategories then "" else category
  }

  /** Typing "0" as the maximum sets it to 1000, and typing a number's digits sets that number. */
  lemma ZeroMaxBecomesDefault(n: nat)
    ensures ParseIntOr("0", DefaultMax) == DefaultMax
    ensures n != 0 ==> ParseIntOr(Decimal(n), DefaultMax) == n
  {
    assert Decimal(0) == "0";
    ParseIntDecimal(0);
    ParseIntDecimal(n);
  }

  /** `ProductFilter()`'s state. */
  class ProductFilterPanel {
    var search: string
    var category: string
    var minPrice: int
    var maxPrice: int

    constructor()
      ensures search == "" && category == AllCategories && minPrice == DefaultMin && maxPrice == DefaultMax
    {
      search := "";
      category := AllCategories;
      minPrice := DefaultMin;
      maxPrice := DefaultMax;
    }

    method SetSearch(text: string)
      modifies this
      ensures search == text && category == old(category)
      ensures minPrice == old(minPrice) && maxPrice == old(maxPrice)
    {
      search := text;
    }

    /** A category button. */
    method SetCategory(c: string)
      modifies this
      ensures category == c && search == old(search)
      ensures minPrice == old(minPrice) && maxPrice == old(maxPrice)
    {
      category := c;
    }

    /** The Min input: the maximum is kept, even when it is now below the minimum. */
    method EditMin(text: string)
      modifies this
      ensures minPrice == ParseIntOr(text, DefaultMin) && maxPrice == old(maxPrice)
      ensures search == old(search) && category == old(category)
    {
      minPrice := ParseIntOr(text, DefaultMin);
    }

    /** The Max input: the minimum is kept. */
    method EditMax(text: string)
      modifies this
      ensures maxPrice == ParseIntOr(text, DefaultMax) && minPrice == old(minPrice)
      ensures search == old(search) && category == old(category)
    {
      maxPrice := ParseIntOr(text, DefaultMax);
    }

    /** `handleFilterChange()`: the current fields, with "All" sent as "". */
    method ApplyFilters() returns (f: Filters)
      ensures f.search == search && f.minPrice == minPrice && f.maxPrice == maxPrice
      ensures f.category == "" <==> category == AllCategories || category == ""
      ensures category != AllCategories ==> f.category == category
    {
      f := Filters(search, EmittedCategory(category), minPrice, maxPrice);
    }

    /** `handleReset()`: the initial fields, and the empty filter handed on. */
    method Reset() returns (f: Filters)
      modifies this
      ensures search == "" && category == AllCategories && minPrice == DefaultMin && maxPrice == DefaultMax
      ensures f == Filters("", "", DefaultMin, DefaultMax)
    {
      search := "";
      category := AllCategories;
      minPrice := DefaultMin;
      maxPrice := DefaultMax;
      f := Filters("", "", DefaultMin, DefaultMax);
    }
  }

  /** A reversed range is accepted and handed on as it is. */
  method ReversedRangeIsEmitted() returns (f: Filters)
    ensures f.minPrice == 500 && f.maxPrice == 100
  {
    var panel := new ProductFilterPanel();
    ParseIntDecimal(500);
    ParseIntDecimal(100);
    panel.EditMin(Decimal(500));
    panel.EditMax(Decimal(100));
    f := panel.ApplyFilters();
  }

  /** Reset hands on the same filter as applying the freshly reset panel. */
  method ResetMatchesApply() returns (reset: Filters, applied: Filters)
    ensures reset == applied
  {
    var panel := new ProductFilterPanel();
    panel.SetSearch("tomato");
    reset := panel.Reset();
    applied := panel.ApplyFilters();
  }
}
