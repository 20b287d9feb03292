/**
 * The storefront page's state (App.tsx): the catalog, the search text, the
 * selected categories, the price range, the sort key and whether the sidebar
 * is shown on small screens.
 */
module App {
  import opened Types
  import opened Sequences
  import opened Text
  import opened Catalog
  import Sidebar

  class Storefront {
    const products: seq<Product>
    var filters: Filters
    var sidebarOpen: bool

    /** The selection never lists a category twice, and only the slider's upper end moves. */
    ghost predicate Valid()
      reads this
    {
      NoDuplicates(filters.selectedCategories)
      && filters.lo == Sidebar.SliderMin
      && Sidebar.SliderMin <= filters.hi <= Sidebar.SliderMax
    }

    constructor(catalog: seq<Product>)
      ensures Valid()
      ensures products == catalog && filters == InitialFilters && !sidebarOpen
    {
      products := catalog;
      filters := InitialFilters;
      sidebarOpen := false;
    }

    /** The header's search box. */
    method OnSearchChange(term: string)
      requires Valid()
      modifies this
      ensures Valid()
      ensures filters == old(filters).(searchTerm := term) && sidebarOpen == old(sidebarOpen)
    {
      filters := filters.(searchTerm := term);
    }

    /** `handleCategoryChange`: toggles one category in the selection. */
    method OnCategoryChange(category: string)
      requires Valid()
      modifies this
      ensures Valid()
      ensures filters == old(filters).(selectedCategories := ToggleCategory(old(filters.selectedCategories), category))
      ensures sidebarOpen == old(sidebarOpen)
    {
      ToggleNoDuplicates(filters.selectedCategories, category);
      filters := filters.(selectedCategories := ToggleCategory(filters.selectedCategories, category));
    }

    /** The price slider, moved to `position`, reports its value as text. */
    method OnSliderMove(position: int)
      requires Valid() && Sidebar.SliderMin <= position <= Sidebar.SliderMax
      modifies this
      ensures Valid()
      ensures filters == old(filters).(hi := position) && sidebarOpen == old(sidebarOpen)
    {
      Sidebar.SliderSetsUpperBound((filters.lo, filters.hi), position);
      var range := Sidebar.OnSliderChange((filters.lo, filters.hi), IntToString(position));
      filters := filters.(lo := range.0, hi := range.1);
    }

    /** The sort selector. */
    method OnSortByChange(key: string)
      requires Valid()
      modifies this
      ensures Valid()
      ensures filters == old(filters).(sortBy := key) && sidebarOpen == old(sidebarOpen)
    {
      filters := filters.(sortBy := key);
    }

    /** The filter button shown on small screens. */
    method ToggleSidebar()
      requires Valid()
      modifies this
      ensures Valid()
      ensures sidebarOpen == !old(sidebarOpen) && filters == old(filters)
    {
      sidebarOpen := !sidebarOpen;
    }
  }
}
