/** The forecast view: the series of the active parameter, the chart data
    that joins its measured and forecast points, the unit suffix and colour
    lookups, and the two summary cards. */
module ForecastDashboard {
  import opened Common
  import opened MockData

  /** The parameter shown when the view opens. */
  const INITIAL_PARAMETER := "Temperatura"

  /** The position of the first series of a parameter at or after `from`,
      or the length of the list when there is none. */
  function FirstMatch(data: seq<ForecastData>, active: string, from: nat): (i: nat)
    requires from <= |data|
    ensures from <= i <= |data|
    ensures i < |data| ==> data[i].parameter == active
    ensures forall j :: from <= j < i ==> data[j].parameter != active
    decreases |data| - from
  {
    if from == |data| then from
    else if data[from].parameter == active then from
    else FirstMatch(data, active, from + 1)
  }

  /** `forecastData.find(data => data.parameter === activeParameter)`. */
  function SelectedForecast(data: seq<ForecastData>, active: string): (r: Option<ForecastData>)
    ensures r.None? <==> forall d :: d in data ==> d.parameter != active
    ensures r.Some? ==> r.value in data && r.value.parameter == active
  {
    var i := FirstMatch(data, active, 0);
    if i < |data| then Some(data[i]) else None
  }

  // ---------------------------------------------------------------------
  // combinedData
  // ---------------------------------------------------------------------

  /** A point of the chart: the original date and value, its series tag,
      and the series key whose value is the point's value. */
  datatype ChartPoint = ChartPoint(date: string, value: real, tipo: string, seriesKey: string, seriesValue: real)

  const ACTUAL_TAG := "actual"
  const FORECAST_TAG := "forecast"

  /** The key of the measured line of a parameter. */
  function ActualKey(parameter: string): string
  {
    parameter + " (Actual)"
  }

  /** The key of the forecast line of a parameter. */
  function ForecastKey(parameter: string): string
  {
    parameter + " (Previsto)"
  }

  /** `{...item, tipo, [key]: item.value}`. */
  function Tagged(item: Point, tipo: string, key: string): ChartPoint
  {
    ChartPoint(item.date, item.value, tipo, key, item.value)
  }

  /** `items.map(item => ({...item, tipo, [key]: item.value}))`. */
  function TaggedSeries(items: seq<Point>, tipo: string, key: string): (r: seq<ChartPoint>)
    ensures |r| == |items|
    ensures forall i :: 0 <= i < |items| ==> r[i] == Tagged(items[i], tipo, key)
  {
    seq(|items|, i requires 0 <= i < |items| => Tagged(items[i], tipo, key))
  }

  /** The layout of the chart data of a series: its measured points, then
      its forecast points, each tagged and keyed by its line. */
  ghost predicate ChartLayout(r: seq<ChartPoint>, f: ForecastData, active: string)
  {
    var n := |f.actualData|;
    && |r| == n + |f.forecastData|
    && (forall i :: 0 <= i < n ==>
          r[i] == ChartPoint(f.actualData[i].date, f.actualData[i].value, ACTUAL_TAG, ActualKey(active), f.actualData[i].value))
    && (forall i :: 0 <= i < |f.forecastData| ==>
          r[n + i] == ChartPoint(f.forecastData[i].date, f.forecastData[i].value, FORECAST_TAG, ForecastKey(active), f.forecastData[i].value))
  }

  /** `combinedData`: the measured points then the forecast points of the
      active parameter, each tagged and carrying its line's key; empty when no
      series has that parameter. */
  function CombinedData(data: seq<ForecastData>, active: string): (r: seq<ChartPoint>)
    ensures var sel := SelectedForecast(data, active);
      && (sel.None? ==> r == [])
      && (sel.Some? ==> ChartLayout(r, sel.value, active))
  {
    match SelectedForecast(data, active)
    case None => []
    case Some(f) =>
      ChartLayoutOfSeries(f, active);
      TaggedSeries(f.actualData, ACTUAL_TAG, ActualKey(active)) + TaggedSeries(f.forecastData, FORECAST_TAG, ForecastKey(active))
  }

  /** The measured run followed by the forecast run has the chart layout. */
  lemma ChartLayoutOfSeries(f: ForecastData, active: string)
    ensures ChartLayout(TaggedSeries(f.actualData, ACTUAL_TAG, ActualKey(active))
                        + TaggedSeries(f.forecastData, FORECAST_TAG, ForecastKey(active)), f, active)
  {
    var a := TaggedSeries(f.actualData, ACTUAL_TAG, ActualKey(active));
    var b := TaggedSeries(f.forecastData, FORECAST_TAG, ForecastKey(active));
    var n := |f.actualData|;
    forall i | 0 <= i < |f.forecastData| ensures (a + b)[n + i] == b[i] { }
  }

  /** The points of one line, read back from the chart data. */
  function Line(points: seq<ChartPoint>, tipo: string): seq<Point>
  {
    if points == [] then []
    else
      var init := Line(points[..|points| - 1], tipo);
      var last := points[|points| - 1];
      if last.tipo == tipo then init + [Point(last.date, last.value)] else init
  }

  /** Reading a run of points with one tag back keeps all of them, and
      reading another tag keeps none. */
  lemma {:induction false} LineOfTagged(items: seq<Point>, tipo: string, key: string, other: string)
    requires other != tipo
    ensures Line(TaggedSeries(items, tipo, key), tipo) == items && Line(TaggedSeries(items, tipo, key), other) == []
  {
    var pts := TaggedSeries(items, tipo, key);
    if items != [] {
      var init := items[..|items| - 1];
      LineOfTagged(init, tipo, key, other);
      assert pts[..|pts| - 1] == TaggedSeries(init, tipo, key);
      assert items == init + [items[|items| - 1]];
    }
  }

  /** The line of a concatenation is the concatenation of the lines. */
  lemma {:induction false} LineAppend(a: seq<ChartPoint>, b: seq<ChartPoint>, tipo: string)
    ensures Line(a + b, tipo) == Line(a, tipo) + Line(b, tipo)
  {
    if b == [] {
      assert a + b == a;
    } else {
      var ab := a + b;
      assert ab[..|ab| - 1] == a + b[..|b| - 1];
      LineAppend(a, b[..|b| - 1], tipo);
    }
  }

  /** The chart data splits back into the two series: its `actual` points
      are the measured series and its `forecast` points the forecast one. */
  lemma CombinedDataSplits(data: seq<ForecastData>, active: string)
    requires SelectedForecast(data, active).Some?
    ensures Line(CombinedData(data, active), ACTUAL_TAG) == SelectedForecast(data, active).value.actualData
    ensures Line(CombinedData(data, active), FORECAST_TAG) == SelectedForecast(data, active).value.forecastData
  {
    var f := SelectedForecast(data, active).value;
    var a := TaggedSeries(f.actualData, ACTUAL_TAG, ActualKey(active));
    var b := TaggedSeries(f.forecastData, FORECAST_TAG, ForecastKey(active));
    assert CombinedData(data, active) == a + b;
    LineOfTagged(f.actualData, ACTUAL_TAG, ActualKey(active), FORECAST_TAG);
    LineOfTagged(f.forecastData, FORECAST_TAG, ForecastKey(active), ACTUAL_TAG);
    LineAppend(a, b, ACTUAL_TAG);
    LineAppend(a, b, FORECAST_TAG);
  }

  // ---------------------------------------------------------------------
  // Cards, unit suffix and colours
  // ---------------------------------------------------------------------

  /** The unit shown after a card's value. */
  function UnitSuffix(parameter: string): (suffix: string)
    ensures parameter == "Temperatura" ==> suffix == " °C"
    ensures parameter == "Nivel de Agua" ==> suffix == " cm"
    ensures parameter == "Salinidad" ==> suffix == " PSU"
    ensures parameter !in {"Temperatura", "Nivel de Agua", "Salinidad"} ==> suffix == " µg/L"
  {
    if parameter == "Temperatura" then " °C"
    else if parameter == "Nivel de Agua" then " cm"
    else if parameter == "Salinidad" then " PSU"
    else " µg/L"
  }

  /** The card suffix of every forecast series is the unit that the
      parameter catalogue gives the parameter of that name. */
  lemma UnitSuffixMatchesCatalogue()
    ensures forall k :: 0 <= k < |FORECAST_DATA| ==>
      exists p :: p in ENVIRONMENTAL_PARAMETERS && p.name == FORECAST_DATA[k].parameter &&
                  UnitSuffix(FORECAST_DATA[k].parameter) == " " + p.unit
  {
    // the catalogue position of each series' parameter
    var at := [0, 2, 3, 7];
    forall k | 0 <= k < |FORECAST_DATA|
      ensures exists p :: p in ENVIRONMENTAL_PARAMETERS && p.name == FORECAST_DATA[k].parameter &&
                          UnitSuffix(FORECAST_DATA[k].parameter) == " " + p.unit
    {
      var p := ENVIRONMENTAL_PARAMETERS[at[k]];
      assert p.name == FORECAST_DATA[k].parameter;
    }
  }

  /** The colours of the two lines of a parameter. */
  datatype Colors = Colors(actual: string, forecast: string)

  const COLOR_MAP: map<string, Colors> := map[
    "Temperatura" := Colors("#E74C3C", "#F5B7B1"),
    "Nivel de Agua" := Colors("#2ECC71", "#A9DFBF"),
    "Salinidad" := Colors("#3498DB", "#7FB3D5"),
    "Concentración de Algas" := Colors("#F1C40F", "#F9E79F")
  ]

  const DEFAULT_ACTUAL_COLOR := "#E74C3C"
  const DEFAULT_FORECAST_COLOR := "#F5B7B1"

  /** `colorMap[parameter]?.actual || "#E74C3C"`. */
  function ActualColor(parameter: string): (c: string)
    ensures parameter in COLOR_MAP && COLOR_MAP[parameter].actual != "" ==> c == COLOR_MAP[parameter].actual
    ensures parameter !in COLOR_MAP ==> c == DEFAULT_ACTUAL_COLOR
    ensures c != ""
  {
    if parameter in COLOR_MAP && COLOR_MAP[parameter].actual != "" then COLOR_MAP[parameter].actual
    else DEFAULT_ACTUAL_COLOR
  }

  /** `colorMap[parameter]?.forecast || "#F5B7B1"`. */
  function ForecastColor(parameter: string): (c: string)
    ensures parameter in COLOR_MAP && COLOR_MAP[parameter].forecast != "" ==> c == COLOR_MAP[parameter].forecast
    ensures parameter !in COLOR_MAP ==> c == DEFAULT_FORECAST_COLOR
    ensures c != ""
  {
    if parameter in COLOR_MAP && COLOR_MAP[parameter].forecast != "" then COLOR_MAP[parameter].forecast
    else DEFAULT_FORECAST_COLOR
  }

  /** Every forecast series has its own entry in the colour map, so no line
      falls back; the fallbacks are the colours of the temperature lines. */
  lemma ColorsOfFixture()
    ensures forall f :: f in FORECAST_DATA ==>
      (f.parameter in COLOR_MAP &&
       ActualColor(f.parameter) == COLOR_MAP[f.parameter].actual &&
       ForecastColor(f.parameter) == COLOR_MAP[f.parameter].forecast)
    ensures ActualColor("Temperatura") == DEFAULT_ACTUAL_COLOR && ForecastColor("Temperatura") == DEFAULT_FORECAST_COLOR
  {
  }

  /** The two summary cards: the latest measured point and the next forecast
      one, each with the parameter's unit suffix. */
  datatype Cards = Cards(current: Point, next: Point, suffix: string)

  /** The cards of a series; the view indexes both arrays, so both must be
      non-empty. */
  function CardValues(f: ForecastData): (cards: Cards)
    requires |f.actualData| > 0 && |f.forecastData| > 0
    ensures cards.current in f.actualData && cards.next in f.forecastData
  {
    Cards(f.actualData[|f.actualData| - 1], f.forecastData[0], UnitSuffix(f.parameter))
  }

  /** The cards show the two chart points on either side of the seam between
      the measured and the forecast line. */
  lemma CardsAtSeam(data: seq<ForecastData>, active: string)
    requires SelectedForecast(data, active).Some?
    requires var f := SelectedForecast(data, active).value; |f.actualData| > 0 && |f.forecastData| > 0
    ensures var f := SelectedForecast(data, active).value;
      var r, n, cards := CombinedData(data, active), |f.actualData|, CardValues(f);
      && r[n - 1].tipo == ACTUAL_TAG && Point(r[n - 1].date, r[n - 1].value) == cards.current
      && r[n].tipo == FORECAST_TAG && Point(r[n].date, r[n].value) == cards.next
  {
    var f := SelectedForecast(data, active).value;
    var n := |f.actualData|;
    assert CombinedData(data, active)[n + 0] == Tagged(f.forecastData[0], FORECAST_TAG, ForecastKey(active));
  }

  /** Every series of the fixture can be shown: both of its arrays are
      non-empty, and each tab finds its own series. */
  lemma FixtureCardsDefined()
    ensures forall f :: f in FORECAST_DATA ==> |f.actualData| > 0 && |f.forecastData| > 0
    ensures forall k :: 0 <= k < |FORECAST_DATA| ==>
      SelectedForecast(FORECAST_DATA, FORECAST_DATA[k].parameter) == Some(FORECAST_DATA[k])
    ensures SelectedForecast(FORECAST_DATA, INITIAL_PARAMETER) == Some(FORECAST_DATA[0])
  {
    forall k | 0 <= k < |FORECAST_DATA|
      ensures SelectedForecast(FORECAST_DATA, FORECAST_DATA[k].parameter) == Some(FORECAST_DATA[k])
    {
      FirstMatchFound(FORECAST_DATA, k);
    }
  }

  /** A series listed before any other of its parameter is the one found. */
  lemma FirstMatchFound(data: seq<ForecastData>, k: nat)
    requires k < |data|
    requires forall j :: 0 <= j < k ==> data[j].parameter != data[k].parameter
    ensures SelectedForecast(data, data[k].parameter) == Some(data[k])
  {
    FirstMatchAt(data, data[k].parameter, 0, k);
  }

  lemma {:induction false} FirstMatchAt(data: seq<ForecastData>, active: string, from: nat, k: nat)
    requires from <= k < |data| && data[k].parameter == active
    requires forall j :: from <= j < k ==> data[j].parameter != active
    ensures FirstMatch(data, active, from) == k
    decreases k - from
  {
    if from < k {
      FirstMatchAt(data, active, from + 1, k);
    }
  }
}
