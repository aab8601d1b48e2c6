/** Marker styling by category: each known category has its own pin colour
    and Font Awesome icon class; everything else gets the default pin. */
module Icons {
  import opened Locations
  import TextSearch

  /** The two things the category decides about a marker's icon. */
  datatype Icon = Icon(color: string, iconClass: string)

  const DefaultIcon := Icon("#3498db", "fa-map-marker-alt")

  /** Reference table of the recognised categories and their icons. */
  const Palette: map<string, Icon> := map[
    "wisata" := Icon("#e74c3c", "fa-umbrella-beach"),
    "kuliner" := Icon("#f39c12", "fa-utensils"),
    "kantor" := Icon("#8e44ad", "fa-building"),
    "pendidikan" := Icon("#27ae60", "fa-graduation-cap")]

  /** A category the palette recognises: a string equal (strictly, case
      included) to one of its keys. */
  predicate Known(category: Option<string>)
  {
    category.Some? && category.value in Palette
  }

  /** The icon for a category, chosen by a chain of strict comparisons.
      Total: an absent category or any unrecognised string gets the default. */
  function GetIcon(category: Option<string>): (icon: Icon)
    ensures Known(category) ==> icon == Palette[category.value]
    ensures !Known(category) ==> icon == DefaultIcon
  {
    if category == Some("wisata") then Icon("#e74c3c", "fa-umbrella-beach")
    else if category == Some("kuliner") then Icon("#f39c12", "fa-utensils")
    else if category == Some("kantor") then Icon("#8e44ad", "fa-building")
    else if category == Some("pendidikan") then Icon("#27ae60", "fa-graduation-cap")
    else DefaultIcon
  }

  /** Reads the category back off an icon: the inverse of GetIcon on the
      recognised categories. */
  function CategoryOf(icon: Icon): Option<string>
  {
    if icon.color == "#e74c3c" then Some("wisata")
    else if icon.color == "#f39c12" then Some("kuliner")
    else if icon.color == "#8e44ad" then Some("kantor")
    else if icon.color == "#27ae60" then Some("pendidikan")
    else None
  }

  /** Distinct recognised categories get distinct icons, and none of them
      gets the default: an icon tells which known category, if any, it is for. */
  lemma IconDeterminesCategory(category: Option<string>)
    ensures CategoryOf(GetIcon(category)) == if Known(category) then category else None
  {
  }

  /** The comparison is case-sensitive: a category spelt with any capital
      letter ("Wisata", "KULINER") gets the default icon. */
  lemma CapitalisedCategoryGetsDefault(category: string)
    requires TextSearch.Lower(category) != category
    ensures GetIcon(Some(category)) == DefaultIcon
  {
  }
}
