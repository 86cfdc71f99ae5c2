/** The selection rules of the map view: toggling a parameter in the list
    of selected parameters, toggling the active station, grouping the
    parameter catalogue by category for the sidebar, and choosing the rows of
    the active station's popup. */
module MapView {
  import opened Common
  import opened MockData

  // ---------------------------------------------------------------------
  // handleParamToggle
  // ---------------------------------------------------------------------

  /** `selected.filter(x => x !== id)`. */
  function RemoveAll(selected: seq<string>, id: string): (r: seq<string>)
    ensures |r| <= |selected|
    ensures forall x :: x in r <==> x in selected && x != id
  {
    if selected == [] then []
    else
      var init, last := selected[..|selected| - 1], selected[|selected| - 1];
      assert selected == init + [last];
      if last == id then RemoveAll(init, id) else RemoveAll(init, id) + [last]
  }

  /** `handleParamToggle(id)`: a selected id is removed everywhere it occurs,
      an unselected one is appended. */
  function Toggle(selected: seq<string>, id: string): (r: seq<string>)
    ensures id in selected ==> r == RemoveAll(selected, id)
    ensures id !in selected ==> r == selected + [id]
  {
    if id in selected then RemoveAll(selected, id) else selected + [id]
  }

  /** Removing an id that is not there changes nothing. */
  lemma {:induction false} RemoveAllAbsent(selected: seq<string>, id: string)
    requires id !in selected
    ensures RemoveAll(selected, id) == selected
  {
    if selected != [] {
      var init := selected[..|selected| - 1];
      assert selected == init + [selected[|selected| - 1]];
      RemoveAllAbsent(init, id);
    }
  }

  /** Removal keeps the others in their order and without new duplicates. */
  lemma {:induction false} RemoveAllNoDup(selected: seq<string>, id: string)
    requires NoDup(selected)
    ensures NoDup(RemoveAll(selected, id))
  {
    if selected != [] {
      var init, last := selected[..|selected| - 1], selected[|selected| - 1];
      assert selected == init + [last];
      assert NoDup(init);
      RemoveAllNoDup(init, id);
      assert last !in init;
    }
  }

  /** After a toggle the id's membership is flipped and every other id's is
      unchanged. */
  lemma ToggleFlips(selected: seq<string>, id: string, other: string)
    requires other != id
    ensures id in Toggle(selected, id) <==> id !in selected
    ensures other in Toggle(selected, id) <==> other in selected
  {
  }

  /** A toggle keeps a duplicate-free list duplicate-free. */
  lemma ToggleNoDup(selected: seq<string>, id: string)
    requires NoDup(selected)
    ensures NoDup(Toggle(selected, id))
  {
    if id in selected {
      RemoveAllNoDup(selected, id);
    }
  }

  /** Toggling an absent id twice restores the list exactly; toggling a
      present id twice keeps the members but moves the id to the end, once. */
  lemma ToggleTwice(selected: seq<string>, id: string)
    ensures id !in selected ==> Toggle(Toggle(selected, id), id) == selected
    ensures id in selected ==> Toggle(Toggle(selected, id), id) == RemoveAll(selected, id) + [id]
  {
    if id !in selected {
      var once := selected + [id];
      assert once[..|once| - 1] == selected;
      RemoveAllAbsent(selected, id);
    }
  }

  // ---------------------------------------------------------------------
  // handleStationClick
  // ---------------------------------------------------------------------

  /** `handleStationClick(stationId)`: clicking the active station clears the
      selection, clicking any other selects it. */
  function ClickStation(active: Option<int>, stationId: int): (r: Option<int>)
    ensures r == None <==> active == Some(stationId)
    ensures r != None ==> r == Some(stationId)
  {
    if active == Some(stationId) then None else Some(stationId)
  }

  /** Two clicks on the same station: from that station active, it ends
      active again; from any other state, nothing is active. */
  lemma ClickTwice(active: Option<int>, stationId: int)
    ensures ClickStation(ClickStation(active, stationId), stationId) ==
      if active == Some(stationId) then active else None
  {
  }

  // ---------------------------------------------------------------------
  // parametersByCategory
  // ---------------------------------------------------------------------

  /** The categories of the catalogue, entry by entry. */
  function Categories(params: seq<Parameter>): (cs: seq<string>)
    ensures |cs| == |params|
    ensures forall i :: 0 <= i < |params| ==> cs[i] == params[i].category
  {
    seq(|params|, i requires 0 <= i < |params| => params[i].category)
  }

  /** The entries of one category, in catalogue order. */
  function InCategory(params: seq<Parameter>, category: string): (r: seq<Parameter>)
    ensures |r| <= |params|
    ensures forall p :: p in r <==> p in params && p.category == category
  {
    if params == [] then []
    else
      var init, last := params[..|params| - 1], params[|params| - 1];
      assert params == init + [last];
      if last.category == category then InCategory(init, category) + [last] else InCategory(init, category)
  }

  /** `environmentalParameters.reduce(...)`: the object from category to its
      entries, whose keys come in order of first appearance (`Object.entries`
      order of the sidebar). */
  method GroupByCategory(params: seq<Parameter>) returns (acc: map<string, seq<Parameter>>, order: seq<string>)
    ensures order == Distinct(Categories(params))
    ensures forall c :: c in acc <==> c in order
    ensures forall c :: c in acc ==> acc[c] == InCategory(params, c)
  {
    acc, order := map[], [];
    for i := 0 to |params|
      invariant order == Distinct(Categories(params[..i]))
      invariant forall c :: c in acc <==> c in order
      invariant forall c :: c in acc ==> acc[c] == InCategory(params[..i], c)
    {
      var param := params[i];
      GroupedStep(params, i, acc, order);
      if param.category !in acc {
        order := order + [param.category];
      }
      acc := Push(acc, param);
    }
    assert params[..|params|] == params;
  }

  /** One step of the reduce, `(acc[cat] ||= []).push(p)`: the entry joins
      its category's list, which starts empty when the category is new. */
  function Push(acc: map<string, seq<Parameter>>, p: Parameter): map<string, seq<Parameter>>
  {
    acc[p.category := (if p.category in acc then acc[p.category] else []) + [p]]
  }

  /** One step of the reduce keeps the three facts of the loop: the key
      order, the keys, and each key's list. */
  lemma GroupedStep(params: seq<Parameter>, i: nat, acc: map<string, seq<Parameter>>, order: seq<string>)
    requires i < |params|
    requires order == Distinct(Categories(params[..i]))
    requires forall c :: c in acc <==> c in order
    requires forall c :: c in acc ==> acc[c] == InCategory(params[..i], c)
    ensures var p := params[i];
      (if p.category in acc then order else order + [p.category]) == Distinct(Categories(params[..i + 1]))
    ensures var p := params[i];
      forall c :: c in Push(acc, p) <==> c in (if p.category in acc then order else order + [p.category])
    ensures forall c :: c in Push(acc, params[i]) ==> Push(acc, params[i])[c] == InCategory(params[..i + 1], c)
  {
    var p := params[i];
    GroupStep(params, i);
    PushKeys(acc, order, p);
    if p.category !in acc {
      assert p.category !in Distinct(Categories(params[..i]));
    }
    PushLists(params, i, acc);
  }

  /** The keys after a step are the key order after that step. */
  lemma PushKeys(acc: map<string, seq<Parameter>>, order: seq<string>, p: Parameter)
    requires forall c :: c in acc <==> c in order
    ensures var order' := if p.category in acc then order else order + [p.category];
      forall c :: c in Push(acc, p) <==> c in order'
  {
  }

  /** The lists after a step are the lists of the longer prefix. */
  lemma PushLists(params: seq<Parameter>, i: nat, acc: map<string, seq<Parameter>>)
    requires i < |params|
    requires forall c :: c in acc ==> acc[c] == InCategory(params[..i], c)
    requires params[i].category !in acc ==> params[i].category !in Categories(params[..i])
    ensures forall c :: c in Push(acc, params[i]) ==> Push(acc, params[i])[c] == InCategory(params[..i + 1], c)
  {
    var p := params[i];
    forall c | c in Push(acc, p) ensures Push(acc, p)[c] == InCategory(params[..i + 1], c) {
      InCategoryStep(params, i, c);
      if c == p.category && c !in acc {
        CategoryAbsent(params[..i], c);
      }
    }
  }

  /** One more entry of the catalogue: it joins its own category's list,
      and its category joins the key order if it is new. */
  lemma GroupStep(params: seq<Parameter>, i: nat)
    requires i < |params|
    ensures var p := params[i];
      Distinct(Categories(params[..i + 1])) ==
        if p.category in Distinct(Categories(params[..i])) then Distinct(Categories(params[..i]))
        else Distinct(Categories(params[..i])) + [p.category]
  {
    var next := params[..i + 1];
    assert next[..i] == params[..i] && next[i] == params[i];
    var cs := Categories(next);
    assert cs[..i] == Categories(params[..i]) && cs[i] == params[i].category;
  }

  lemma InCategoryStep(params: seq<Parameter>, i: nat, c: string)
    requires i < |params|
    ensures InCategory(params[..i + 1], c) ==
      if params[i].category == c then InCategory(params[..i], c) + [params[i]] else InCategory(params[..i], c)
  {
    assert params[..i + 1][..i] == params[..i];
  }

  /** A category that no entry has has an empty list. */
  lemma CategoryAbsent(params: seq<Parameter>, category: string)
    requires category !in Categories(params)
    ensures InCategory(params, category) == []
  {
    forall p | p in params ensures p.category != category {
      var k :| 0 <= k < |params| && params[k] == p;
      assert Categories(params)[k] == p.category;
    }
  }

  /** Summed list lengths over some categories. */
  function GroupedCount(params: seq<Parameter>, categories: seq<string>): nat
  {
    if categories == [] then 0
    else GroupedCount(params, categories[..|categories| - 1]) + |InCategory(params, categories[|categories| - 1])|
  }

  /** One more entry adds one to the count of each listed category that it
      belongs to. */
  lemma {:induction false} GroupedCountStep(params: seq<Parameter>, p: Parameter, categories: seq<string>)
    ensures GroupedCount(params + [p], categories) == GroupedCount(params, categories) + Count(categories, p.category)
  {
    var next := params + [p];
    assert next[..|next| - 1] == params;
    if categories != [] {
      var init, last := categories[..|categories| - 1], categories[|categories| - 1];
      assert categories == init + [last];
      GroupedCountStep(params, p, init);
    }
  }

  /** Over a duplicate-free list of categories covering the catalogue, the
      group sizes add up to the catalogue's size. */
  lemma {:induction false} GroupedCountTotal(params: seq<Parameter>, categories: seq<string>)
    requires NoDup(categories)
    requires forall p :: p in params ==> p.category in categories
    ensures GroupedCount(params, categories) == |params|
  {
    if params == [] {
      GroupedCountEmpty(categories);
    } else {
      var init, last := params[..|params| - 1], params[|params| - 1];
      assert params == init + [last];
      GroupedCountTotal(init, categories);
      GroupedCountStep(init, last, categories);
      CountNoDup(categories, last.category);
    }
  }

  lemma {:induction false} GroupedCountEmpty(categories: seq<string>)
    ensures GroupedCount([], categories) == 0
  {
    if categories != [] {
      GroupedCountEmpty(categories[..|categories| - 1]);
    }
  }

  /** The grouping keeps every entry exactly once, under its own category,
      in catalogue order within each group. */
  lemma GroupingIsPartition(params: seq<Parameter>)
    ensures var order := Distinct(Categories(params));
      && GroupedCount(params, order) == |params|
      && (forall p :: p in params ==> p.category in order && p in InCategory(params, p.category))
      && (forall c, p :: c in order && p in InCategory(params, c) ==> p in params && p.category == c)
  {
    var order := Distinct(Categories(params));
    forall p | p in params ensures p.category in order {
      var i :| 0 <= i < |params| && params[i] == p;
      assert Categories(params)[i] == p.category;
    }
    GroupedCountTotal(params, order);
  }

  // ---------------------------------------------------------------------
  // The popup of the active station
  // ---------------------------------------------------------------------

  /** Station ids that have map coordinates, and therefore a marker. */
  const COORDINATE_IDS: set<int> := {1, 2, 3, 4, 5, 6, 7, 8}

  /** `catalogue.find(p => p.id === id)`. */
  function FindParam(catalogue: seq<Parameter>, id: string): (r: Option<Parameter>)
    ensures r.Some? ==> r.value in catalogue && r.value.id == id
    ensures r.None? <==> forall p :: p in catalogue ==> p.id != id
  {
    if catalogue == [] then None
    else if catalogue[0].id == id then Some(catalogue[0])
    else
      var r := FindParam(catalogue[1..], id);
      assert catalogue == [catalogue[0]] + catalogue[1..];
      r
  }

  /** An entry listed before any other with its id is the one found. */
  lemma {:induction false} ParamFound(catalogue: seq<Parameter>, k: nat)
    requires k < |catalogue|
    requires forall j :: 0 <= j < k ==> catalogue[j].id != catalogue[k].id
    ensures FindParam(catalogue, catalogue[k].id) == Some(catalogue[k])
  {
    if k > 0 {
      assert catalogue[1..][k - 1] == catalogue[k];
      ParamFound(catalogue[1..], k - 1);
    }
  }

  /** `sensorStations.find(s => s.id === id)`. */
  function FindStation(stations: seq<SensorStation>, id: int): (r: Option<SensorStation>)
    ensures r.Some? ==> r.value in stations && r.value.id == id
    ensures r.None? <==> forall s :: s in stations ==> s.id != id
  {
    if stations == [] then None
    else if stations[0].id == id then Some(stations[0])
    else
      var r := FindStation(stations[1..], id);
      assert stations == [stations[0]] + stations[1..];
      r
  }

  /** One row of the popup: the parameter's name with a colon, the station's
      reading for it (`undefined` when it has none) and the unit. */
  datatype Row = Row(caption: string, reading: Option<real>, unit: string)

  /** The body of the popup. */
  datatype PopupBody = NoParamsHint | Rows(rows: seq<Row>)

  /** The open popup: its title and body. */
  datatype Popup = Popup(title: string, body: PopupBody)

  function RowFor(param: Parameter, station: SensorStation): Row
  {
    Row(param.name + ":", if param.id in station.data then Some(station.data[param.id]) else None, param.unit)
  }

  /** The rows of the selected ids found in the catalogue, in selection
      order. */
  function KnownRows(selected: seq<string>, catalogue: seq<Parameter>, station: SensorStation): seq<Row>
  {
    if selected == [] then []
    else
      var init := KnownRows(selected[..|selected| - 1], catalogue, station);
      match FindParam(catalogue, selected[|selected| - 1])
      case Some(param) => init + [RowFor(param, station)]
      case None => init
  }

  /** The selected ids that the catalogue knows, in selection order. */
  function KnownIds(selected: seq<string>, catalogue: seq<Parameter>): (ids: seq<string>)
    ensures |ids| <= |selected|
  {
    if selected == [] then []
    else
      var init := KnownIds(selected[..|selected| - 1], catalogue);
      if FindParam(catalogue, selected[|selected| - 1]).Some? then init + [selected[|selected| - 1]] else init
  }

  /** An id is known exactly when it is selected and the catalogue has an
      entry for it. */
  lemma {:induction false} KnownIdsMembers(selected: seq<string>, catalogue: seq<Parameter>)
    ensures forall x :: x in KnownIds(selected, catalogue) <==> x in selected && FindParam(catalogue, x).Some?
  {
    if selected != [] {
      var init := selected[..|selected| - 1];
      assert selected == init + [selected[|selected| - 1]];
      KnownIdsMembers(init, catalogue);
    }
  }

  /** Known ids keep selection order: those of a concatenation are those of
      its first part followed by those of its second. */
  lemma {:induction false} KnownIdsAppend(a: seq<string>, b: seq<string>, catalogue: seq<Parameter>)
    ensures KnownIds(a + b, catalogue) == KnownIds(a, catalogue) + KnownIds(b, catalogue)
  {
    if b == [] {
      assert a + b == a;
    } else {
      var ab := a + b;
      assert ab[..|ab| - 1] == a + b[..|b| - 1];
      KnownIdsAppend(a, b[..|b| - 1], catalogue);
    }
  }

  /** There is one row per known selected id, in the same order, built from
      that id's catalogue entry; an id with no entry is skipped. */
  lemma {:induction false} KnownRowsMatchIds(selected: seq<string>, catalogue: seq<Parameter>, station: SensorStation)
    ensures var rows, ids := KnownRows(selected, catalogue, station), KnownIds(selected, catalogue);
      && |rows| == |ids|
      && forall k :: 0 <= k < |ids| ==>
           FindParam(catalogue, ids[k]).Some? && rows[k] == RowFor(FindParam(catalogue, ids[k]).value, station)
  {
    if selected != [] {
      KnownRowsMatchIds(selected[..|selected| - 1], catalogue, station);
    }
  }

  /** When every selected id is in the catalogue, no row is skipped. */
  lemma {:induction false} AllKnownIds(selected: seq<string>, catalogue: seq<Parameter>)
    requires forall id :: id in selected ==> exists p :: p in catalogue && p.id == id
    ensures KnownIds(selected, catalogue) == selected
  {
    if selected != [] {
      var init := selected[..|selected| - 1];
      assert selected == init + [selected[|selected| - 1]];
      assert forall id :: id in init ==> id in selected;
      assert selected[|selected| - 1] in selected;
      AllKnownIds(init, catalogue);
    }
  }

  /** The `forEach` over the selected ids that fills the popup body. */
  method PopupBodyFor(selected: seq<string>, catalogue: seq<Parameter>, station: SensorStation) returns (body: PopupBody)
    ensures body == NoParamsHint <==> |selected| == 0
    ensures body.Rows? ==> body.rows == KnownRows(selected, catalogue, station)
  {
    if |selected| == 0 {
      return NoParamsHint;
    }
    var rows: seq<Row> := [];
    for i := 0 to |selected|
      invariant rows == KnownRows(selected[..i], catalogue, station)
    {
      assert selected[..i + 1][..i] == selected[..i];
      var param := FindParam(catalogue, selected[i]);
      if param.None? {
        continue;
      }
      rows := rows + [RowFor(param.value, station)];
    }
    assert selected[..|selected|] == selected;
    body := Rows(rows);
  }

  /** The popup the effect opens: only for an active station that has a
      marker and is found in the station list. */
  function OpenPopup(active: Option<int>, stations: seq<SensorStation>, selected: seq<string>, catalogue: seq<Parameter>): (r: Option<Popup>)
    ensures r.Some? <==>
      (active.Some? && active.value in COORDINATE_IDS && exists s :: s in stations && s.id == active.value)
  {
    match active
    case None => None
    case Some(id) =>
      if id !in COORDINATE_IDS then None
      else match FindStation(stations, id)
        case None => None
        case Some(station) =>
          Some(Popup("Estación " + station.name,
            if |selected| == 0 then NoParamsHint else Rows(KnownRows(selected, catalogue, station))))
  }

  /** With the fixtures every station has a marker, so exactly the active
      station's popup opens, titled with its name. */
  lemma FixturePopups(id: int, selected: seq<string>)
    ensures OpenPopup(Some(id), SENSOR_STATIONS, selected, ENVIRONMENTAL_PARAMETERS).Some? <==> 1 <= id <= 8
    ensures 1 <= id <= 8 ==>
      OpenPopup(Some(id), SENSOR_STATIONS, selected, ENVIRONMENTAL_PARAMETERS).value.title ==
        "Estación " + SENSOR_STATIONS[id - 1].name
  {
    if 1 <= id <= 8 {
      FixtureStationIds();
      StationFound(SENSOR_STATIONS, id - 1);
      var station := SENSOR_STATIONS[id - 1];
      assert OpenPopup(Some(id), SENSOR_STATIONS, selected, ENVIRONMENTAL_PARAMETERS) ==
        Some(Popup("Estación " + station.name,
          if |selected| == 0 then NoParamsHint else Rows(KnownRows(selected, ENVIRONMENTAL_PARAMETERS, station))));
    } else {
      assert id !in COORDINATE_IDS;
    }
  }

  /** The fixture stations are numbered 1 to 8 in list order. */
  lemma FixtureStationIds()
    ensures |SENSOR_STATIONS| == 8
    ensures forall k :: 0 <= k < 8 ==> SENSOR_STATIONS[k].id == k + 1
  {
  }

  /** A station listed before any other with its id is the one found. */
  lemma StationFound(stations: seq<SensorStation>, k: nat)
    requires k < |stations|
    requires forall j :: 0 <= j < k ==> stations[j].id != stations[k].id
    ensures FindStation(stations, stations[k].id) == Some(stations[k])
  {
    if k > 0 {
      assert stations[1..][k - 1] == stations[k];
      StationFound(stations[1..], k - 1);
    }
  }
}
