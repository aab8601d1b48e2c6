/** The page's client-side state as one value, with one step function per
    event handler. The map surface is the set of layer ids currently on it;
    adding a marker takes a fresh id. The sidebar list, the modal and the
    form are plain fields. */
module PageModel {
  import opened Locations
  import opened TextSearch
  import opened Icons
  import opened Api

  type LayerId = nat

  /** A location's marker: its map layer, the icon its category selects,
      the category badge of its popup, and the location it shows. */
  datatype Marker = Marker(layer: LayerId, icon: Icon, badge: string, loc: Location)

  /** The draggable marker of a location being placed. */
  datatype Draft = Draft(layer: LayerId, lat: real, lng: real)

  /** One sidebar entry: the name and category tag it shows, the point it
      flies to when clicked, and whether the filter currently shows it. */
  datatype ListEntry = ListEntry(name: string, tag: string, lat: real, lng: real, visible: bool)

  /** The two ways the modal is opened: for a new location, or to edit an
      existing one with the values its popup button carries. */
  datatype Mode = Add | Edit(id: string, name: string, desc: string, category: string)

  const AddTitle := "Simpan Lokasi Ini?"
  const EditTitle := "Edit Lokasi"

  /** Everything the handlers read or change. `hint` is the instruction box
      together with the add-mode cursor, which the source always switches
      together. */
  datatype Page = Page(
    layers: set<LayerId>,
    markers: seq<Marker>,
    draft: Option<Draft>,
    adding: bool,
    hint: bool,
    modalOpen: bool,
    title: string,
    form: Form,
    list: seq<ListEntry>,
    nextLayer: LayerId)

  /** The state right after the page's script has run its declarations. */
  function Initial(): Page
  {
    Page({}, [], None, false, false, false, "", BlankForm, [], 0)
  }

  // ---------------------------------------------------------------------
  // What a marker and a list entry for a location look like

  function MarkerFor(loc: Location, layer: LayerId): Marker
  {
    Marker(layer, GetIcon(loc.category), CategoryLabel(loc.category, "Umum"), loc)
  }

  function EntryFor(loc: Location): ListEntry
  {
    ListEntry(loc.name, CategoryLabel(loc.category, "-"), loc.lat, loc.lng, true)
  }

  /** The `innerText` of a list entry. A shown entry is rendered, so its
      `<br>` yields a line break between name and tag; a hidden entry
      (`display: none`) is not rendered, and its `innerText` is its text
      content, name and tag with nothing between them. */
  function EntryText(e: ListEntry): (text: string)
    ensures e.visible ==> text == e.name + "\n" + e.tag
    ensures !e.visible ==> text == e.name + e.tag
    ensures |text| == |e.name| + |e.tag| + (if e.visible then 1 else 0)
    ensures text[..|e.name|] == e.name && text[|text| - |e.tag|..] == e.tag
  {
    if e.visible then e.name + "\n" + e.tag else e.name + e.tag
  }

  /** `e` is the entry of `loc`, whatever the filter has done to its visibility. */
  predicate Describes(e: ListEntry, loc: Location)
  {
    e.(visible := true) == EntryFor(loc)
  }

  function MarkerLayers(ms: seq<Marker>): set<LayerId>
  {
    set m | m in ms :: m.layer
  }

  function DraftLayer(d: Option<Draft>): set<LayerId>
  {
    if d.Some? then {d.value.layer} else {}
  }

  ghost predicate DistinctLayers(ms: seq<Marker>)
  {
    forall i, j :: 0 <= i < j < |ms| ==> ms[i].layer != ms[j].layer
  }

  /** The page's structural invariant: the map holds exactly the location
      markers and the draft, each on its own layer; every layer id was handed
      out; and the list holds one entry per marker, for the same location,
      in the same order. */
  ghost predicate WellFormed(p: Page)
  {
    && p.layers == MarkerLayers(p.markers) + DraftLayer(p.draft)
    && DistinctLayers(p.markers)
    && DraftLayer(p.draft) !! MarkerLayers(p.markers)
    && (forall l :: l in p.layers ==> l < p.nextLayer)
    && |p.list| == |p.markers|
    && (forall i :: 0 <= i < |p.markers| ==> p.markers[i] == MarkerFor(p.markers[i].loc, p.markers[i].layer))
    && (forall i :: 0 <= i < |p.list| ==> Describes(p.list[i], p.markers[i].loc))
  }

  /** The invariant every handler keeps: well-formed, and a draft marker
      only while the modal is open. */
  ghost predicate Consistent(p: Page)
  {
    WellFormed(p) && (p.draft.Some? ==> p.modalOpen)
  }

  // ---------------------------------------------------------------------
  // One step function per handler

  /** startAddMode: arm add mode and show the hint. */
  function StartAdd(p: Page): Page
  {
    p.(adding := true, hint := true)
  }

  /** cancelAddMode: disarm, hide the hint, take the draft off the map. */
  function CancelAdd(p: Page): Page
  {
    p.(adding := false, hint := false, layers := p.layers - DraftLayer(p.draft), draft := None)
  }

  /** createTempMarker: replace any draft by a new one at the point and copy
      the point into the form's coordinate fields. */
  function PlaceDraft(p: Page, lat: real, lng: real): Page
  {
    p.(layers := p.layers - DraftLayer(p.draft) + {p.nextLayer},
       nextLayer := p.nextLayer + 1,
       draft := Some(Draft(p.nextLayer, lat, lng)),
       form := p.form.(lat := Value(lat), lng := Value(lng)))
  }

  /** openModal: show the modal. Adding resets the form, clears the id and
      copies the draft's position (if any) into the coordinates; editing sets
      id, name, desc and category and leaves the coordinate fields as they were. */
  function Open(p: Page, mode: Mode): Page
  {
    match mode
    case Add =>
      var f := if p.draft.Some? then BlankForm.(lat := Value(p.draft.value.lat), lng := Value(p.draft.value.lng))
               else BlankForm;
      p.(modalOpen := true, title := AddTitle, form := f)
    case Edit(id, name, desc, category) =>
      p.(modalOpen := true, title := EditTitle,
         form := p.form.(id := id, name := name, desc := desc, category := category))
  }

  /** closeModal: hide the modal and take the draft off the map. */
  function Close(p: Page): Page
  {
    p.(modalOpen := false, layers := p.layers - DraftLayer(p.draft), draft := None)
  }

  /** The map's click handler: while armed, place a draft at the point, open
      the modal for adding, and disarm; otherwise nothing. */
  function Click(p: Page, lat: real, lng: real): Page
  {
    if p.adding then Open(PlaceDraft(p, lat, lng), Add).(hint := false, adding := false)
    else p
  }

  /** The draft's dragend handler: the draft moves and the form's coordinate
      fields follow it. With no draft on the map there is nothing to drag. */
  function DragDraft(p: Page, lat: real, lng: real): Page
  {
    if p.draft.Some? then
      p.(draft := Some(p.draft.value.(lat := lat, lng := lng)),
         form := p.form.(lat := Value(lat), lng := Value(lng)))
    else p
  }

  /** The completion of saveLocation's request: only an ok response closes
      the modal (and so removes the draft). */
  function AfterSave(p: Page, r: Response): Page
  {
    if r == Ok then Close(p) else p
  }

  /** The first half of a load's completion: every marker off the map, the
      marker set and the list emptied. */
  function ClearView(p: Page): Page
  {
    p.(layers := p.layers - MarkerLayers(p.markers), markers := [], list := [])
  }

  /** The markers a load creates, one per row, on consecutive fresh layers. */
  function MarkersFrom(data: seq<Location>, base: LayerId): seq<Marker>
  {
    seq(|data|, i requires 0 <= i < |data| => MarkerFor(data[i], base + i))
  }

  function EntriesFrom(data: seq<Location>): seq<ListEntry>
  {
    seq(|data|, i requires 0 <= i < |data| => EntryFor(data[i]))
  }

  /** A load whose body is an array of rows: clear, then add a marker and a
      list entry for each row in order. */
  function Loaded(p: Page, data: seq<Location>): Page
  {
    var c := ClearView(p);
    var ms := MarkersFrom(data, p.nextLayer);
    c.(layers := c.layers + MarkerLayers(ms), markers := ms, list := EntriesFrom(data),
       nextLayer := p.nextLayer + |data|)
  }

  /** Whether the filter shows an entry: its lowered text contains the
      lowered query. */
  function Shown(e: ListEntry, query: string): bool
  {
    Includes(Lower(EntryText(e)), Lower(query))
  }

  function Filtered(list: seq<ListEntry>, query: string): seq<ListEntry>
  {
    seq(|list|, i requires 0 <= i < |list| => list[i].(visible := Shown(list[i], query)))
  }

  /** filterLocations: set every entry's visibility; nothing else changes. */
  function Filter(p: Page, query: string): Page
  {
    p.(list := Filtered(p.list, query))
  }

  // ---------------------------------------------------------------------
  // Counting layers

  lemma {:induction false} DistinctLayerCount(ms: seq<Marker>)
    requires DistinctLayers(ms)
    ensures |MarkerLayers(ms)| == |ms|
  {
    if ms != [] {
      var init := ms[..|ms| - 1];
      assert MarkerLayers(ms) == MarkerLayers(init) + {ms[|ms| - 1].layer} by {
        assert forall m :: m in ms <==> m in init || m == ms[|ms| - 1];
      }
      assert ms[|ms| - 1].layer !in MarkerLayers(init) by {
        forall m | m in init ensures m.layer != ms[|ms| - 1].layer {
          var k :| 0 <= k < |init| && init[k] == m;
        }
      }
      DistinctLayerCount(init);
    }
  }

  lemma MarkersFromFacts(data: seq<Location>, base: LayerId)
    ensures |MarkersFrom(data, base)| == |data|
    ensures DistinctLayers(MarkersFrom(data, base))
    ensures forall l :: l in MarkerLayers(MarkersFrom(data, base)) <==> base <= l < base + |data|
  {
    var ms := MarkersFrom(data, base);
    forall l | base <= l < base + |data| ensures l in MarkerLayers(ms) {
      assert ms[l - base] in ms;
    }
  }

  /** The layers of a prefix grow by one marker's layer at a time. */
  lemma MarkerLayersOneMore(ms: seq<Marker>, i: nat)
    requires i < |ms|
    ensures MarkerLayers(ms[..i + 1]) == MarkerLayers(ms[..i]) + {ms[i].layer}
  {
    assert ms[..i + 1] == ms[..i] + [ms[i]];
    assert forall x :: x in ms[..i + 1] <==> x in ms[..i] || x == ms[i];
  }

  /** A load over no rows is just the clearing. */
  lemma LoadedNothing(p: Page)
    ensures Loaded(p, []) == ClearView(p)
  {
    assert MarkersFrom([], p.nextLayer) == [];
    assert MarkerLayers([]) == {};
  }

  /** A load over one more row adds that row's marker, on the next fresh
      layer, and its list entry at the end. */
  lemma LoadedOneMore(p: Page, data: seq<Location>, i: nat)
    requires i < |data|
    ensures var q := Loaded(p, data[..i]);
      Loaded(p, data[..i + 1]) == q.(
        layers := q.layers + {p.nextLayer + i},
        markers := q.markers + [MarkerFor(data[i], p.nextLayer + i)],
        list := q.list + [EntryFor(data[i])],
        nextLayer := p.nextLayer + i + 1)
  {
    var ms := MarkersFrom(data[..i], p.nextLayer);
    var m := MarkerFor(data[i], p.nextLayer + i);
    assert MarkersFrom(data[..i + 1], p.nextLayer) == ms + [m];
    assert EntriesFrom(data[..i + 1]) == EntriesFrom(data[..i]) + [EntryFor(data[i])];
    assert MarkerLayers(ms + [m]) == MarkerLayers(ms) + {m.layer} by {
      assert forall x :: x in ms + [m] <==> x in ms || x == m;
    }
  }

  // ---------------------------------------------------------------------
  // Invariants

  /** At most one draft marker: whatever the map holds besides the location
      markers is the draft's layer alone. */
  lemma AtMostOneDraft(p: Page)
    requires WellFormed(p)
    ensures p.layers - MarkerLayers(p.markers) == DraftLayer(p.draft)
    ensures |p.layers - MarkerLayers(p.markers)| <= 1
  {
  }

  /** One map layer per marker and one list entry per marker. */
  lemma OneLayerPerMarker(p: Page)
    requires WellFormed(p)
    ensures |MarkerLayers(p.markers)| == |p.markers| == |p.list|
  {
    DistinctLayerCount(p.markers);
  }

  lemma InitialConsistent()
    ensures Consistent(Initial())
  {
  }

  lemma StartAddKeeps(p: Page)
    requires Consistent(p)
    ensures Consistent(StartAdd(p))
  {
  }

  lemma CancelAddKeeps(p: Page)
    requires Consistent(p)
    ensures Consistent(CancelAdd(p))
  {
  }

  lemma PlaceDraftKeeps(p: Page, lat: real, lng: real)
    requires WellFormed(p)
    ensures WellFormed(PlaceDraft(p, lat, lng))
  {
  }

  lemma OpenKeeps(p: Page, mode: Mode)
    requires WellFormed(p)
    ensures Consistent(Open(p, mode))
  {
  }

  lemma CloseKeeps(p: Page)
    requires Consistent(p)
    ensures Consistent(Close(p))
  {
  }

  lemma ClickKeeps(p: Page, lat: real, lng: real)
    requires Consistent(p)
    ensures Consistent(Click(p, lat, lng))
  {
    if p.adding {
      PlaceDraftKeeps(p, lat, lng);
      OpenKeeps(PlaceDraft(p, lat, lng), Add);
    }
  }

  lemma DragDraftKeeps(p: Page, lat: real, lng: real)
    requires Consistent(p)
    ensures Consistent(DragDraft(p, lat, lng))
  {
  }

  lemma AfterSaveKeeps(p: Page, r: Response)
    requires Consistent(p)
    ensures Consistent(AfterSave(p, r))
  {
    if r == Ok { CloseKeeps(p); }
  }

  lemma ClearViewKeeps(p: Page)
    requires Consistent(p)
    ensures Consistent(ClearView(p))
  {
  }

  lemma LoadedKeeps(p: Page, data: seq<Location>)
    requires Consistent(p)
    ensures Consistent(Loaded(p, data))
  {
    MarkersFromFacts(data, p.nextLayer);
    var q := Loaded(p, data);
    assert q.layers == MarkerLayers(q.markers) + DraftLayer(q.draft);
  }

  lemma FilterKeeps(p: Page, query: string)
    requires Consistent(p)
    ensures Consistent(Filter(p, query))
  {
  }

  // ---------------------------------------------------------------------
  // Properties of the handlers

  /** Disarming leaves add mode off and no draft on the map, and a second
      call changes nothing. */
  lemma CancelAddModeIdempotent(p: Page)
    requires WellFormed(p)
    ensures !CancelAdd(p).adding && !CancelAdd(p).hint && CancelAdd(p).draft == None
    ensures CancelAdd(p).layers == MarkerLayers(p.markers)
    ensures CancelAdd(CancelAdd(p)) == CancelAdd(p)
  {
  }

  /** Closing the modal hides it and leaves no draft on the map; closing it
      again changes nothing. */
  lemma CloseModalIdempotent(p: Page)
    requires WellFormed(p)
    ensures !Close(p).modalOpen && Close(p).draft == None
    ensures Close(p).layers == MarkerLayers(p.markers)
    ensures Close(Close(p)) == Close(p)
  {
  }

  /** A click while add mode is not armed changes nothing at all. */
  lemma ClickUnarmedIsNoop(p: Page, lat: real, lng: real)
    requires !p.adding
    ensures Click(p, lat, lng) == p
  {
  }

  /** A click while armed: the old draft (if any) leaves the map, exactly one
      new draft stands at the clicked point on a fresh layer, the form holds
      that point and an empty id, the modal is open for adding, add mode is
      off, and the location markers and list are untouched. */
  lemma ClickArmedPlacesDraft(p: Page, lat: real, lng: real)
    requires WellFormed(p) && p.adding
    ensures var q := Click(p, lat, lng);
      && p.nextLayer !in p.layers
      && q.draft == Some(Draft(p.nextLayer, lat, lng))
      && q.layers == p.layers - DraftLayer(p.draft) + {p.nextLayer}
      && q.form.lat == Value(lat) && q.form.lng == Value(lng) && q.form.id == ""
      && q.modalOpen && q.title == AddTitle
      && !q.adding && !q.hint
      && q.markers == p.markers && q.list == p.list
  {
  }

  /** Editing sets id, name, desc and category and keeps whatever the
      coordinate fields held before, as the source does. */
  lemma EditKeepsCoordinates(p: Page, id: string, name: string, desc: string, category: string)
    ensures var q := Open(p, Edit(id, name, desc, category));
      && q.form == Form(id, name, category, desc, p.form.lat, p.form.lng)
      && q.modalOpen && q.title == EditTitle
      && q.draft == p.draft && q.layers == p.layers
  {
  }

  /** A save completion: an ok response closes the modal and removes the
      draft; any other outcome leaves the page exactly as it was. */
  lemma SaveOutcome(p: Page, r: Response)
    requires WellFormed(p)
    ensures r == Ok ==> !AfterSave(p, r).modalOpen && AfterSave(p, r).draft == None
                        && AfterSave(p, r).layers == MarkerLayers(p.markers)
    ensures r != Ok ==> AfterSave(p, r) == p
  {
  }

  /** A successful load holds exactly one marker and one visible list entry
      per returned location, in the returned order, each marker with the
      icon of its location's category. */
  lemma LoadedOnePerLocation(p: Page, data: seq<Location>)
    ensures var q := Loaded(p, data);
      && |q.markers| == |data| && |q.list| == |data|
      && (forall i :: 0 <= i < |data| ==> q.markers[i].loc == data[i] && q.markers[i].icon == GetIcon(data[i].category))
      && (forall i :: 0 <= i < |data| ==> q.list[i] == EntryFor(data[i]) && q.list[i].visible)
  {
  }

  /** A successful load replaces the markers on the map: none of the
      previous markers remains, the map holds exactly one layer per returned
      location besides the draft, and the draft is untouched. */
  lemma LoadedReplacesMarkers(p: Page, data: seq<Location>)
    requires WellFormed(p)
    ensures var q := Loaded(p, data);
      && MarkerLayers(p.markers) !! q.layers
      && |q.layers - DraftLayer(q.draft)| == |data|
      && q.draft == p.draft && DraftLayer(p.draft) <= q.layers
  {
    MarkersFromFacts(data, p.nextLayer);
    var q := Loaded(p, data);
    assert q.layers - DraftLayer(q.draft) == MarkerLayers(q.markers);
    DistinctLayerCount(q.markers);
  }

  /** The filter shows an entry exactly when its lowered text contains the
      lowered query, and changes nothing but visibility. */
  lemma FilterShowsMatches(list: seq<ListEntry>, query: string)
    ensures |Filtered(list, query)| == |list|
    ensures forall i :: 0 <= i < |list| ==>
      (Filtered(list, query)[i].visible <==> Contains(Lower(EntryText(list[i])), Lower(query)))
    ensures forall i :: 0 <= i < |list| ==>
      Filtered(list, query)[i].(visible := list[i].visible) == list[i]
  {
  }

  /** The empty query shows every entry. */
  lemma EmptyQueryShowsAll(list: seq<ListEntry>)
    ensures forall i :: 0 <= i < |list| ==> Filtered(list, "")[i].visible
  {
    forall i | 0 <= i < |list| ensures Filtered(list, "")[i].visible {
      IncludesEmpty(Lower(EntryText(list[i])));
    }
  }

  /** The filter is case-insensitive: queries that lower to the same string
      show the same entries. */
  lemma FilterIgnoresCase(list: seq<ListEntry>, q1: string, q2: string)
    requires Lower(q1) == Lower(q2)
    ensures Filtered(list, q1) == Filtered(list, q2)
  {
  }

  /** The filter touches neither the map nor the markers. */
  lemma FilterOnlyTouchesList(p: Page, query: string)
    ensures Filter(p, query).(list := p.list) == p
  {
  }

  /** Loading the single row "Monas" (category wisata) yields one red
      umbrella marker at its point and one list entry "Monas" / "wisata". */
  lemma MonasScenario(p: Page)
    ensures var monas := Location("1", "Monas", Some("wisata"), "Landmark", -6.17, 106.82);
      var q := Loaded(p, [monas]);
      && |q.markers| == 1 && q.markers[0].loc == monas
      && q.markers[0].icon == Icon("#e74c3c", "fa-umbrella-beach")
      && q.markers[0].badge == "wisata"
      && q.list == [ListEntry("Monas", "wisata", -6.17, 106.82, true)]
      && EntryText(q.list[0]) == "Monas\nwisata"
  {
  }

  /** A click while armed followed by a save creates a location (POST to the
      collection) at the clicked point: the form holds the point's
      coordinates, and nothing else the user has not typed. */
  lemma ClickThenSave(p: Page, lat: real, lng: real)
    requires p.adding
    ensures var r := SaveRequest(Click(p, lat, lng).form);
      && r.verb == POST && r.url == ApiUrl
      && r.body == Some(Payload("", "", "", Num(lat), Num(lng)))
  {
  }

  /** Editing a location and saving updates that location (PUT to its URL)
      with the coordinates the form already held. */
  lemma EditThenSave(p: Page, id: string, name: string, desc: string, category: string)
    requires id != ""
    ensures var r := SaveRequest(Open(p, Edit(id, name, desc, category)).form);
      && r.verb == PUT && TargetOf(r.url) == Some(id)
      && r.body == Some(Payload(name, category, desc, ParseCoord(p.form.lat), ParseCoord(p.form.lng)))
  {
    ResourceUrlRoundTrip(id);
  }

  /** The filter matches the entry's combined text: a query found in the
      name, or found in the tag, always shows the entry, whether it was
      shown or hidden before. Only a query that spans the boundary between
      name and tag depends on the entry's current visibility. */
  lemma FilterFindsNameOrTag(list: seq<ListEntry>, query: string, i: int)
    requires 0 <= i < |list|
    requires Contains(Lower(list[i].name), Lower(query)) || Contains(Lower(list[i].tag), Lower(query))
    ensures Filtered(list, query)[i].visible
  {
    ShownFindsNameOrTag(list[i], query);
  }

  /** One entry: a query in its name or its tag is in its lowered text. */
  lemma ShownFindsNameOrTag(e: ListEntry, query: string)
    requires Contains(Lower(e.name), Lower(query)) || Contains(Lower(e.tag), Lower(query))
    ensures Shown(e, query)
  {
    var sep := if e.visible then "\n" else "";
    var q, n, t := Lower(query), Lower(e.name), Lower(e.tag);
    assert EntryText(e) == (e.name + sep) + e.tag;
    LowerAppend(e.name + sep, e.tag);
    LowerAppend(e.name, sep);
    var front := n + Lower(sep);
    assert Lower(EntryText(e)) == front + t;
    if Contains(n, q) {
      ContainsInPrefix(n, Lower(sep), q);
      ContainsInPrefix(front, t, q);
    } else {
      ContainsInSuffix(front, t, q);
    }
  }

  /** The filter reads each entry's text as rendered at that moment, and a
      hidden entry renders without the line break: filtering twice with the
      same query need not give the same result. "sw" hides the entry
      Monas / wisata, and the second run then finds "monaswisata" and shows it. */
  lemma FilterIsNotIdempotent()
    ensures var e := ListEntry("Monas", "wisata", -6.17, 106.82, true);
      && !Filtered([e], "sw")[0].visible
      && Filtered(Filtered([e], "sw"), "sw")[0].visible
  {
    var e := ListEntry("Monas", "wisata", -6.17, 106.82, true);
    MonasShownMisses();
    assert !Shown(e, "sw");
    var e2 := Filtered([e], "sw")[0];
    assert e2 == e.(visible := false);
    MonasHiddenMatches();
    assert Shown(e2, "sw");
  }

  /** The shown Monas entry's lowered text, "monas\nwisata", lacks "sw". */
  lemma MonasShownMisses()
    ensures !Shown(ListEntry("Monas", "wisata", -6.17, 106.82, true), "sw")
  {
    var e := ListEntry("Monas", "wisata", -6.17, 106.82, true);
    assert EntryText(e) == "Monas\nwisata";
    var text := Lower("Monas\nwisata");
    assert Lower("sw") == "sw";
    assert text == "monas\nwisata";
    forall k | 0 <= k && k + 2 <= |text| ensures !OccursAt(text, "sw", k) {
      if text[k] == 's' {
        assert k == 4 || k == 8;
        assert text[k + 1] != 'w';
      }
      assert text[k..k + 2] == [text[k], text[k + 1]];
    }
    assert !Contains(text, "sw");
  }

  /** The hidden Monas entry's lowered text, "monaswisata", has "sw" at 4. */
  lemma MonasHiddenMatches()
    ensures Shown(ListEntry("Monas", "wisata", -6.17, 106.82, false), "sw")
  {
    var e := ListEntry("Monas", "wisata", -6.17, 106.82, false);
    assert EntryText(e) == "Monaswisata";
    var text := Lower("Monaswisata");
    assert Lower("sw") == "sw";
    assert text[4..6] == "sw";
    assert OccursAt(text, "sw", 4);
    assert Includes(text, "sw");
  }
}
