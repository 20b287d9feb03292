/**
 * The filter sidebar (Sidebar.tsx): one checkbox per category, the price
 * slider that moves the upper bound, and the sort selector.
 */
module Sidebar {
  import opened Types
  import opened Text
  import opened Catalog

  /** The slider's `min` and `max` attributes, in whole currency units. */
  const SliderMin := 0
  const SliderMax := 2000

  /**
   * Moving the slider: the new range keeps the lower bound and takes the
   * slider's reported position, read with `parseInt`, as the upper bound.
   * A range input always reports a number, which the precondition states.
   */
  function OnSliderChange(range: (int, int), value: string): (r: (int, int))
    requires ParseInteger(value).Some?
    ensures r.0 == range.0
  {
    (range.0, ParseInteger(value).value)
  }

  /** The position the browser reports is read back exactly: the upper bound becomes that position. */
  lemma SliderSetsUpperBound(range: (int, int), position: int)
    requires SliderMin <= position <= SliderMax
    ensures ParseInteger(IntToString(position)).Some?
    ensures OnSliderChange(range, IntToString(position)) == (range.0, position)
  {
    ParseIntegerOfIntToString(position, "");
    assert IntToString(position) + "" == IntToString(position);
  }

  /** A category's checkbox is ticked when its name is among the selected categories. */
  predicate IsChecked(selected: seq<string>, category: Category)
  {
    category.name in selected
  }

  /** Clicking a category's checkbox flips that checkbox and no checkbox of another name. */
  function CheckboxClick(selected: seq<string>, category: Category): (r: seq<string>)
    ensures IsChecked(r, category) == !IsChecked(selected, category)
    ensures forall other: Category :: other.name != category.name ==> IsChecked(r, other) == IsChecked(selected, other)
  {
    ToggleCategory(selected, category.name)
  }

  /** The values of the sort selector's options, in display order. */
  const SortOptions: seq<string> := ["relevance", "price-asc", "price-desc", "rating-desc"]

  /** The option that selects a given order. */
  function OptionFor(order: SortOrder): (key: string)
    ensures key in SortOptions && SortOrderOf(key) == order
  {
    match order
    case Relevance => SortOptions[0]
    case PriceAsc => SortOptions[1]
    case PriceDesc => SortOptions[2]
    case RatingDesc => SortOptions[3]
  }

  /** Every option selects a different order, so the selector offers each order exactly once. */
  lemma SortOptionsDistinct()
    ensures forall i, j :: 0 <= i < j < |SortOptions| ==> SortOrderOf(SortOptions[i]) != SortOrderOf(SortOptions[j])
    ensures forall key :: key in SortOptions ==> OptionFor(SortOrderOf(key)) == key
  {
  }
}
