/** The page's mutable state as one object: the script's globals `markers`,
    `tempMarker` and `isAddingMode`, plus the map's layers, the instruction
    hint, the modal, the form and the sidebar list. Each handler changes the
    fields in place, and its contract ties the new state to the step
    function of PageModel that it implements. */
module Sync {
  import opened Locations
  import opened TextSearch
  import opened Api
  import opened PageModel

  class LocationSync {
    var layers: set<LayerId>
    var markers: seq<Marker>
    var tempMarker: Option<Draft>
    var isAddingMode: bool
    var hintShown: bool
    var modalOpen: bool
    var modalTitle: string
    var form: Form
    var list: seq<ListEntry>
    var nextLayer: LayerId

    /** The abstract value of the object. */
    function State(): Page
      reads this
    {
      Page(layers, markers, tempMarker, isAddingMode, hintShown, modalOpen, modalTitle, form, list, nextLayer)
    }

    ghost predicate Valid()
      reads this
    {
      Consistent(State())
    }

    /** The page as its script starts: nothing on the map, add mode off,
        modal closed, empty list. The script then issues LoadRequest(). */
    constructor ()
      ensures State() == Initial()
      ensures Valid()
    {
      layers := {};
      markers := [];
      tempMarker := None;
      isAddingMode := false;
      hintShown := false;
      modalOpen := false;
      modalTitle := "";
      form := BlankForm;
      list := [];
      nextLayer := 0;
    }

    method StartAddMode()
      requires Valid()
      modifies this
      ensures Valid()
      ensures State() == StartAdd(old(State()))
    {
      isAddingMode := true;
      hintShown := true;
    }

    method CancelAddMode()
      requires Valid()
      modifies this
      ensures Valid()
      ensures State() == CancelAdd(old(State()))
      ensures !isAddingMode && tempMarker == None
    {
      ghost var before := State();
      isAddingMode := false;
      hintShown := false;
      if tempMarker.Some? {
        layers := layers - {tempMarker.value.layer};
        tempMarker := None;
      }
      CancelAddKeeps(before);
    }

    /** Replaces the draft marker: the old one (if any) leaves the map, a new
        one on a fresh layer stands at the point, and the form's coordinate
        fields take the point. */
    method CreateTempMarker(lat: real, lng: real)
      requires WellFormed(State())
      modifies this
      ensures WellFormed(State())
      ensures State() == PlaceDraft(old(State()), lat, lng)
    {
      ghost var before := State();
      if tempMarker.Some? {
        layers := layers - {tempMarker.value.layer};
      }
      var layer := nextLayer;
      nextLayer := nextLayer + 1;
      layers := layers + {layer};
      tempMarker := Some(Draft(layer, lat, lng));
      form := form.(lat := Value(lat), lng := Value(lng));
      PlaceDraftKeeps(before, lat, lng);
    }

    /** openModal; with an Edit mode this is also the popup's edit button. */
    method OpenModal(mode: Mode)
      requires WellFormed(State())
      modifies this
      ensures Valid()
      ensures State() == Open(old(State()), mode)
    {
      ghost var before := State();
      modalOpen := true;
      match mode {
        case Add =>
          modalTitle := AddTitle;
          form := BlankForm;
          form := form.(id := "");
          if tempMarker.Some? {
            form := form.(lat := Value(tempMarker.value.lat), lng := Value(tempMarker.value.lng));
          }
        case Edit(id, name, desc, category) =>
          modalTitle := EditTitle;
          form := form.(id := id);
          form := form.(name := name);
          form := form.(desc := desc);
          form := form.(category := category);
      }
      OpenKeeps(before, mode);
    }

    method CloseModal()
      requires Valid()
      modifies this
      ensures Valid()
      ensures State() == Close(old(State()))
    {
      ghost var before := State();
      modalOpen := false;
      if tempMarker.Some? {
        layers := layers - {tempMarker.value.layer};
        tempMarker := None;
      }
      CloseKeeps(before);
    }

    /** The map's click handler. */
    method OnMapClick(lat: real, lng: real)
      requires Valid()
      modifies this
      ensures Valid()
      ensures State() == Click(old(State()), lat, lng)
    {
      ghost var before := State();
      if isAddingMode {
        CreateTempMarker(lat, lng);
        OpenModal(Add);
        hintShown := false;
        isAddingMode := false;
      }
      ClickKeeps(before, lat, lng);
    }

    /** The dragend handler of the draft marker. */
    method OnDraftDragEnd(lat: real, lng: real)
      requires Valid()
      modifies this
      ensures Valid()
      ensures State() == DragDraft(old(State()), lat, lng)
    {
      ghost var before := State();
      if tempMarker.Some? {
        tempMarker := Some(tempMarker.value.(lat := lat, lng := lng));
        form := form.(lat := Value(lat), lng := Value(lng));
      }
      DragDraftKeeps(before, lat, lng);
    }

    /** The completion of saveLocation's request. Returns whether the page
        now issues LoadRequest(). */
    method OnSaveResponse(r: Response) returns (reload: bool)
      requires Valid()
      modifies this
      ensures Valid()
      ensures State() == AfterSave(old(State()), r)
      ensures reload == SaveReloads(r)
    {
      ghost var before := State();
      reload := false;
      if r == Ok {
        CloseModal();
        reload := true;
      }
      AfterSaveKeeps(before, r);
    }

    /** Takes every location marker off the map and empties the marker set
        and the list (the first half of a load's completion). */
    method RemoveAllMarkers()
      requires Valid()
      modifies this
      ensures Valid()
      ensures State() == ClearView(old(State()))
    {
      ghost var before := State();
      var i := 0;
      while i < |markers|
        invariant 0 <= i <= |before.markers| && markers == before.markers
        invariant layers == before.layers - MarkerLayers(before.markers[..i])
        invariant State() == before.(layers := layers)
      {
        MarkerLayersOneMore(markers, i);
        layers := layers - {markers[i].layer};
        i := i + 1;
      }
      assert markers[..i] == markers;
      markers := [];
      list := [];
      ClearViewKeeps(before);
    }

    /** addMarkerToMap: a new marker for the location on a fresh layer. */
    method AddMarkerToMap(loc: Location)
      modifies this
      ensures State() == old(State()).(
        layers := old(layers) + {old(nextLayer)},
        markers := old(markers) + [MarkerFor(loc, old(nextLayer))],
        nextLayer := old(nextLayer) + 1)
    {
      var marker := MarkerFor(loc, nextLayer);
      nextLayer := nextLayer + 1;
      layers := layers + {marker.layer};
      markers := markers + [marker];
    }

    /** addToList: a new, visible entry for the location at the end of the list. */
    method AddToList(loc: Location)
      modifies this
      ensures State() == old(State()).(list := old(list) + [EntryFor(loc)])
    {
      list := list + [EntryFor(loc)];
    }

    /** A load whose body is an array of rows. */
    method OnLoaded(data: seq<Location>)
      requires Valid()
      modifies this
      ensures Valid()
      ensures State() == Loaded(old(State()), data)
    {
      ghost var before := State();
      RemoveAllMarkers();
      LoadedNothing(before);
      assert data[..0] == [];
      var i := 0;
      while i < |data|
        invariant 0 <= i <= |data|
        invariant nextLayer == before.nextLayer + i
        invariant State() == Loaded(before, data[..i])
      {
        LoadedOneMore(before, data, i);
        AddMarkerToMap(data[i]);
        AddToList(data[i]);
        i := i + 1;
      }
      assert data[..i] == data;
      LoadedKeeps(before, data);
    }

    /** A load whose body parsed but is not an array: the markers and the
        list are already cleared when iterating over the body throws. */
    method OnLoadedNotArray()
      requires Valid()
      modifies this
      ensures Valid()
      ensures State() == ClearView(old(State()))
    {
      RemoveAllMarkers();
    }

    /** A load whose fetch or JSON parse failed: the error is logged and
        nothing else happens. */
    method OnLoadFailed()
      requires Valid()
      ensures Valid()
      ensures State() == old(State())
    {
    }

    /** filterLocations: each entry's visibility becomes whether its lowered
        text contains the lowered query. */
    method FilterLocations(query: string)
      requires Valid()
      modifies this
      ensures Valid()
      ensures State() == Filter(old(State()), query)
    {
      ghost var before := State();
      var input := Lower(query);
      var i := 0;
      while i < |list|
        invariant 0 <= i <= |list| == |before.list|
        invariant State() == before.(list := list)
        invariant forall k :: 0 <= k < i ==> list[k] == Filtered(before.list, query)[k]
        invariant forall k :: i <= k < |list| ==> list[k] == before.list[k]
      {
        var text := Lower(EntryText(list[i]));
        assert Filtered(before.list, query)[i] == list[i].(visible := Includes(text, input));
        list := list[i := list[i].(visible := Includes(text, input))];
        i := i + 1;
      }
      assert list == Filtered(before.list, query);
      FilterKeeps(before, query);
    }
  }
}
