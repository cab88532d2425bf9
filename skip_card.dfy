/** What one skip's card derives from the skip for display. */
module SkipCard {

  import opened Schema
  import opened FilterSidebar
  import opened SkipSelection

  /** The sizes the dimensions table knows. */
  const TabulatedSizes: set<int> := {4, 6, 8, 10, 12, 14, 16, 20}

  const VariousSizes: string := "Various sizes"

  /** `isPopular`: the four-yard skip is the demo's popular one. */
  predicate IsPopular(s: Skip)
  {
    s.size == 4
  }

  /** `requiresPermit`. */
  predicate RequiresPermit(s: Skip)
  {
    !s.allowedOnRoad
  }

  /** `getDimensions`: a fixed approximate footprint per tabulated size. */
  function Dimensions(size: int): (d: string)
    ensures d == VariousSizes <==> size !in TabulatedSizes
  {
    if size == 4 then "6ft x 4ft x 3ft"
    else if size == 6 then "7ft x 4ft x 3ft"
    else if size == 8 then "8ft x 5ft x 4ft"
    else if size == 10 then "10ft x 6ft x 4ft"
    else if size == 12 then "12ft x 6ft x 5ft"
    else if size == 14 then "12ft x 7ft x 5ft"
    else if size == 16 then "14ft x 7ft x 5ft"
    else if size == 20 then "16ft x 8ft x 6ft"
    else VariousSizes
  }

  /** The description line under the title, on the thresholds 6 and 12. */
  function Description(size: int): string
  {
    if size <= 6 then "Perfect for household clearouts"
    else if size <= 12 then "Ideal for small renovations"
    else "Great for large projects"
  }

  /** The description the sidebar's size category would give. */
  function CategoryDescription(c: SizeCategory): string
  {
    match c
    case Small => "Perfect for household clearouts"
    case Medium => "Ideal for small renovations"
    case Large => "Great for large projects"
  }

  /** The road badge: exactly one of the two is shown. */
  datatype RoadBadge = RoadAllowedBadge | PermitRequiredBadge

  datatype CardView = CardView(
    sizeBadge: int,
    popularBadge: bool,
    notOnRoadWarning: bool,
    description: string,
    price: int,
    hireDays: int,
    dimensions: string,
    roadBadge: RoadBadge,
    heavyWasteBadge: bool,
    buttonLabel: string)

  const SelectedLabel: string := "✓ Selected"
  const SelectLabel: string := "Select This Skip →"

  /** The card for `s`; `isSelected` defaults to false at the call site. */
  function Render(s: Skip, isSelected: bool): CardView
  {
    CardView(
      s.size,
      IsPopular(s),
      RequiresPermit(s),
      Description(s.size),
      s.priceBeforeVat,
      s.hirePeriodDays,
      Dimensions(s.size),
      if s.allowedOnRoad then RoadAllowedBadge else PermitRequiredBadge,
      s.allowsHeavyWaste,
      if isSelected then SelectedLabel else SelectLabel)
  }

  /** The popular badge marks exactly the skips the "popular" sort puts first. */
  lemma PopularBadgeMatchesPopularSort(s: Skip, isSelected: bool)
    ensures Render(s, isSelected).popularBadge <==> SortKey(Popular, s) == 0
  {
  }

  /**
   * "Permit Required" shows exactly when "Road Allowed" does not, and
   * together with the "Not Allowed On The Road" warning.
   */
  lemma PermitBadges(s: Skip, isSelected: bool)
    ensures var v := Render(s, isSelected);
      && (v.roadBadge == PermitRequiredBadge <==> !s.allowedOnRoad)
      && (v.roadBadge == RoadAllowedBadge <==> s.allowedOnRoad)
      && (v.notOnRoadWarning <==> v.roadBadge == PermitRequiredBadge)
  {
  }

  /** The price shown is the price before VAT; nothing is added. */
  lemma DisplayedPriceIsPriceBeforeVat(s: Skip, isSelected: bool)
    ensures Render(s, isSelected).price == s.priceBeforeVat
  {
  }

  /** The heavy-waste badge and the button label. */
  lemma BadgeAndLabel(s: Skip, isSelected: bool)
    ensures Render(s, isSelected).heavyWasteBadge <==> s.allowsHeavyWaste
    ensures Render(s, isSelected).buttonLabel == SelectedLabel <==> isSelected
  {
  }

  /** The description thresholds coincide with the filter's size categories. */
  lemma DescriptionMatchesCategory(size: int)
    ensures Description(size) == CategoryDescription(SizeCategoryOf(size))
  {
  }
}
