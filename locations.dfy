/** The values the page works with: a location as the remote store returns
    it, and the add/edit form as the page holds it. */
module Locations {

  datatype Option<T> = None | Some(value: T)

  /** A location row. Its category may be absent (undefined in the store's
      JSON); coordinates are kept as opaque numbers. */
  datatype Location = Location(
    id: string,
    name: string,
    category: Option<string>,
    desc: string,
    lat: real,
    lng: real)

  /** The value of a coordinate input: empty, or holding a number. */
  datatype CoordInput = Empty | Value(v: real)

  /** The fields of the location form (locId, locName, locCategory, locDesc,
      locLat, locLng). An empty id means "not yet saved". */
  datatype Form = Form(
    id: string,
    name: string,
    category: string,
    desc: string,
    lat: CoordInput,
    lng: CoordInput)

  /** The form after `reset()`: every field back to its (empty) default. */
  const BlankForm := Form("", "", "", "", Empty, Empty)

  /** The category text a marker popup or list entry shows: the category
      itself when it is a non-empty string, the fallback otherwise (the
      source's `category || fallback`). */
  function CategoryLabel(category: Option<string>, fallback: string): (shown: string)
    ensures category.Some? && category.value != "" ==> shown == category.value
    ensures category == None || category == Some("") ==> shown == fallback
    ensures shown == fallback || category == Some(shown)
    ensures fallback != "" ==> shown != ""
  {
    if category.Some? && category.value != "" then category.value else fallback
  }
}
