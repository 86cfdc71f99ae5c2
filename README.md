# Weather-station dashboard: a Dafny model of its data logic

This project models the data logic of a web dashboard for a network of weather stations around the Torrevieja lagoon. It also models the Python script that builds the dashboard's JSON snapshot. Both are modelled in Dafny, with their properties proved.

The snapshot holds one record per station. Each record has a name, coordinates, a timestamp and five blocks of text fields: `actuales`, `diarios`, `mensuales`, `anuales` and `astronomia`.

The model has five modules:

- `Common` (`common.dfy`) holds the shared pieces:
  - optional values, and blocks as maps from field name to nullable text;
  - JavaScript truthiness of a field;
  - first-occurrence order, which is the key order of a JavaScript object or Python dict filled by insertion;
  - sums, minima and maxima, with their bounds.
- `DataDashboard` (`data_dashboard.dfy`) is the station metrics layer. It covers:
  - the station selector (`"todas"`, a position written in decimal, or a name);
  - `getAggregates`, with its loop as a method;
  - the most frequent wind direction (a method that counts into a record, then takes the head of a stable descending sort);
  - the trend icon;
  - the monthly/yearly extremes table;
  - the daily evolution pair and the daily pressure pair;
  - the wind-rose vector;
  - the selected station.
- `GenerarDatos` (`generar_datos.dfy`) is the snapshot generator. It covers:
  - the freshness test;
  - namespace stripping;
  - `extraer_bloque_completo`, as a method filling a dict in a loop;
  - `corregir_hora_a_dia`, as a method of a `Dict` class that assigns and deletes keys in place;
  - the main loop, which appends the complete and fresh stations and writes the station count.
- `MapView` (`map_view.dfy`) covers the map view's rules:
  - toggling the parameter list;
  - toggling the active station;
  - grouping the catalogue by category, as a method;
  - the rows of the active station's popup, as a method.
- `ForecastDashboard` (`forecast_dashboard.dfy`) covers:
  - the selected forecast series;
  - the merged chart data;
  - the unit suffix and the colour fallbacks;
  - the summary cards.
- `MockData` (`mock_data.dfy`) holds the static fixtures that the map and forecast views read: the eight sensor stations, the parameter catalogue and the forecast series.

Numbers are `real`. Text-to-number parsing is a parameter `parse: string -> Option<real>`, where `None` stands for NaN. This covers `parseFloat` after replacing the first comma. The generator's `strptime` with Europe/Madrid localisation is also a parameter, `stampOf`. It maps the text `"<fecha> <hora>"` to an instant in integer microseconds, or to `None` when the text does not parse. `Math.random() * 0.5` becomes a parameter `draw`, where `draw(i)` is the amount drawn for the i-th station in scope. Network fetches and XML parsing become one `FetchOutcome` per station.

Two behaviours of the code are worth stating plainly:

- The selector keeps every station whose position or name equals it, not just the first (`Scope`, `ScopeIsOrderedSelection`).
- The wind rose is the current direction followed by the 8 compass points (`GetWindRoseData`).

## Model

| member | source | states |
|---|---|---|
| DataDashboard.NatToString | src/components/DataDashboard.tsx:134 | `idx.toString()` is non-empty decimal text without a leading zero |
| DataDashboard.ParseIntOfNatToString | src/components/DataDashboard.tsx:275-276 | `parseInt` recovers a position from its decimal text (round trip) |
| DataDashboard.NatToStringInjective | src/components/DataDashboard.tsx:134 | two positions never share a decimal text, so a selector names at most one position |
| DataDashboard.Mask | src/components/DataDashboard.tsx:133-135 | one keep flag per station: set exactly when the filter callback selects it |
| DataDashboard.PositionsFlagged | src/components/DataDashboard.tsx:133-135 | every kept position is in range and flagged |
| DataDashboard.PositionsIncrease | src/components/DataDashboard.tsx:133-135 | kept positions come in strictly increasing order |
| DataDashboard.PositionsComplete | src/components/DataDashboard.tsx:133-135 | every flagged position is kept |
| DataDashboard.FilterFromSelects | src/components/DataDashboard.tsx:133-135 | the filter's output is, item by item, the station at the corresponding kept position |
| DataDashboard.FilterFromSingleMatch | src/components/DataDashboard.tsx:133-135 | when one station alone matches, the filter keeps just that station |
| DataDashboard.ScopeIsOrderedSelection | src/components/DataDashboard.tsx:132-135 | outside `"todas"` the scope is the order-preserving subsequence of every station whose position or name equals the selector, not just the first match |
| DataDashboard.ScopeOfIndexSelector | src/components/DataDashboard.tsx:132-135 | a position selector that no station uses as its name selects exactly that station |
| DataDashboard.SelectedStation | src/components/DataDashboard.tsx:275-276 | no selected station in the global view; otherwise it is a station of the snapshot |
| DataDashboard.HexSelector | src/components/DataDashboard.tsx:275-276 | `parseInt` reads a `0x` selector in base 16: `"0x"` plus the hexadecimal text of any position selects that station, and a bare `"0x"` selects none |
| DataDashboard.DigitsValueOfNatToHex | src/components/DataDashboard.tsx:275-276 | the hexadecimal text of a position reads back as that position |
| DataDashboard.SelectedStationByIndex | src/components/DataDashboard.tsx:275-276 | selecting by position finds that station as the selected station |
| DataDashboard.NameSelectorHasNoSelectedStation | src/components/DataDashboard.tsx:275-276 | a name selector puts the station in scope, yet yields no selected station |
| DataDashboard.ParsedValues | src/components/DataDashboard.tsx:136-138 | each value is the parse of a station in scope, at most one per station; the list is empty exactly when no value parses, so unparsable values are skipped, not counted as zero |
| DataDashboard.ParsedValuesComplete | src/components/DataDashboard.tsx:136-138 | no parsable value is dropped: every station in scope whose value parses contributes that value |
| DataDashboard.ParsedValuesAppend | src/components/DataDashboard.tsx:136-138 | the values keep scope order: those of a concatenation are those of each part, in turn |
| DataDashboard.CollectValues | src/components/DataDashboard.tsx:136-142 | the loop pushes exactly the parsed values, and beside them each value minus its random draw |
| DataDashboard.GetAggregates | src/components/DataDashboard.tsx:128-151 | `{0,0,0,0}` without data or when nothing parses; otherwise min and max are parsed values bounding them all, avg is their mean with min ≤ avg ≤ max, and the trend is the mean draw, in [0, 0.5) |
| DataDashboard.AggregateFacts | src/components/DataDashboard.tsx:143-149 | the mean lies between `Math.min` and `Math.max`; `avg - prevAvg` is the mean of the draws, in [0, 0.5) |
| DataDashboard.MeanOfDifference | src/components/DataDashboard.tsx:143-149 | the mean of the current values minus the mean of the previous ones is the mean of the subtracted draws |
| DataDashboard.SumMinus | src/components/DataDashboard.tsx:140-149 | summing pairwise differences is the difference of the sums |
| DataDashboard.DrawsInRange | src/components/DataDashboard.tsx:140 | each draw kept for a parsed value lies in [0, 0.5) |
| DataDashboard.SimulatedTrendBounds | src/components/DataDashboard.tsx:140-149 | the simulated trend is never below 0, so the falling-trend icon never shows |
| DataDashboard.TrendIcon | src/components/DataDashboard.tsx:193-197 | up exactly above 0.1, down exactly below -0.1, flat exactly in between: exhaustive and exclusive |
| DataDashboard.Directions | src/components/DataDashboard.tsx:160 | no listed direction is empty, since falsy ones are filtered out |
| DataDashboard.DirectionsComplete | src/components/DataDashboard.tsx:160 | no direction is dropped: every station in scope with a truthy `direccionviento` contributes it |
| DataDashboard.DirectionsAppend | src/components/DataDashboard.tsx:160 | the directions keep scope order: those of a concatenation are those of each part, in turn |
| DataDashboard.CountFrequencies | src/components/DataDashboard.tsx:162-163 | the loop builds the record `Tally` specifies: it counts each direction's occurrences, and its keys are the directions in first-occurrence order |
| DataDashboard.TallyKeys | src/components/DataDashboard.tsx:162-163 | the record has a key exactly for each direction that occurs |
| DataDashboard.TallyCounts | src/components/DataDashboard.tsx:162-163 | each key of the record holds the number of occurrences of its direction |
| DataDashboard.TallyStep | src/components/DataDashboard.tsx:163 | one more direction bumps its own entry by one, from zero when it is new |
| DataDashboard.DistinctStep | src/components/DataDashboard.tsx:163 | one more direction joins the record's keys exactly when it has no entry yet |
| DataDashboard.HeadOfSortedEntries | src/components/DataDashboard.tsx:164 | the head of a stable descending sort is a maximal entry, and every earlier key has a strictly smaller count |
| DataDashboard.GetMostFrequentDirection | src/components/DataDashboard.tsx:154-165 | `'-'` without data or directions; otherwise a direction of maximal count, and every direction first seen earlier has a strictly smaller count (ties go to the first seen) |
| DataDashboard.MostFrequentIsFirstMaximal | src/components/DataDashboard.tsx:162-164 | the first maximal key of the insertion-ordered record is the earliest-seen direction of maximal count |
| DataDashboard.MaximalKeyCount | src/components/DataDashboard.tsx:162-164 | a key of maximal entry has a maximal count among all directions |
| DataDashboard.EarlierKeysFewer | src/components/DataDashboard.tsx:162-164 | when every earlier key has a smaller entry, every direction first seen earlier has a smaller count |
| DataDashboard.NumberAt | src/components/DataDashboard.tsx:204 | a numeric field is present exactly when the block exists and the key is truthy, and it is then the parse of the text |
| DataDashboard.TextAt | src/components/DataDashboard.tsx:205 | a text field is present exactly when the block exists and the key is truthy, and it is then that non-empty text |
| DataDashboard.GetExtremosMensualesAnuales | src/components/DataDashboard.tsx:200-213 | no rows without data; otherwise one row per station, in snapshot order, named after the station |
| DataDashboard.ExtremosNullFields | src/components/DataDashboard.tsx:204-211 | each of the eight fields is null exactly when its period block is absent or its generated key is missing, null or empty; otherwise a number field is the parse of that entry's text and a day field is that entry |
| DataDashboard.GetEvolucionTemporal | src/components/DataDashboard.tsx:216-232 | empty exactly when there is no data, no station in scope, or the first has no `diarios`; otherwise minimum then maximum, each valued exactly when its `minima`/`maxima` key is truthy, and then with the parse of that key's text, with its hour field |
| DataDashboard.GetEvolucionPresionDiaria | src/components/DataDashboard.tsx:258-268 | empty in the global view |
| DataDashboard.PresionDiariaIsEvolucionTemporal | src/components/DataDashboard.tsx:258-268 | outside the global view the pressure pair equals the general daily pair for `presion` |
| DataDashboard.GetWindRoseData | src/components/DataDashboard.tsx:236-256 | empty exactly without data, in the global view, with no station selected, or with no direction; otherwise 9 entries: the direction with 1, then N…NO, each 1 exactly when equal to it |
| DataDashboard.RoseWeight | src/components/DataDashboard.tsx:244-255 | the values sum to 2 when the direction is one of the 8 points and to 1 otherwise |
| DataDashboard.WeightOfPrefix | src/components/DataDashboard.tsx:244-255 | the rose's first entries sum to one plus the compass points among them equal to the direction |
| Common.Distinct | src/components/DataDashboard.tsx:163 | the record's keys: the same members as the input, without duplicates |
| Common.DistinctOrder | src/components/DataDashboard.tsx:163-164 | record keys come in increasing order of first occurrence |
| Common.SeqMin | src/components/DataDashboard.tsx:145 | `Math.min` is a member bounding all values from below |
| Common.SeqMax | src/components/DataDashboard.tsx:146 | `Math.max` is a member bounding all values from above |
| Common.CountNoDup | src/components/DataDashboard.tsx:163 | in a duplicate-free list each element occurs at most once |
| Common.CountAbsent | src/components/DataDashboard.tsx:163 | an element that does not occur is counted zero times |
| Common.FirstIndex | src/components/DataDashboard.tsx:164 | the first position of an element: it holds the element and no earlier one does |
| Common.SumAtLeast | src/components/DataDashboard.tsx:144 | values all at least `lo` sum to at least `n·lo` |
| Common.SumAtMost | src/components/DataDashboard.tsx:144 | values all at most `hi` sum to at most `n·hi` |
| Common.MeanBounds | src/components/DataDashboard.tsx:144 | the mean of values in [lo, hi] lies in [lo, hi] |
| GenerarDatos.PyStr | scripts/generar_datos.py:18 | an f-string renders a missing element text as `None` |
| GenerarDatos.FreshnessRule | scripts/generar_datos.py:15-28 | fresh exactly when the text parses to an instant at most ten minutes before now; future instants count as fresh; unparsable text is not fresh |
| GenerarDatos.FreshEarlier | scripts/generar_datos.py:25 | a document fresh now was fresh at every earlier instant |
| GenerarDatos.MissingTextIsStale | scripts/generar_datos.py:18-28 | a missing `fecha` or `hora` text is rendered `None`, whose letter `N` the date format never matches, so the document is not fresh |
| GenerarDatos.Qualified | scripts/generar_datos.py:31 | `ns:name` is `{uri}name`: a brace, the URI, a closing brace, then the name |
| GenerarDatos.Find | scripts/generar_datos.py:31 | `find` returns a direct child with that tag, and finds one exactly when one exists |
| GenerarDatos.ElementFound | scripts/generar_datos.py:31 | `find` returns the first child with the tag: a child listed before any other with its tag is the one found |
| GenerarDatos.IndexOf | scripts/generar_datos.py:35 | the first position of a character, or the length when it is absent |
| GenerarDatos.StripNamespace | scripts/generar_datos.py:35 | the text after the first `}`, or the whole tag when there is none |
| GenerarDatos.StripQualified | scripts/generar_datos.py:35 | stripping undoes `{uri}` qualification for a brace-free URI (round trip) |
| GenerarDatos.StripQualifiedName | scripts/generar_datos.py:35 | the documents' own namespaced tags lose exactly their namespace |
| GenerarDatos.Defaults | scripts/generar_datos.py:32 | exactly the expected fields, each `None` |
| GenerarDatos.OverlayAt | scripts/generar_datos.py:34-39 | after the child loop a key holds the text of the last child with that stripped tag, and otherwise its prior entry |
| GenerarDatos.LastTextSome | scripts/generar_datos.py:34-39 | some child has the stripped tag exactly when a last such child is found |
| GenerarDatos.BloqueAbsent | scripts/generar_datos.py:31-33 | without the block element: every expected field and nothing else, all `None` |
| GenerarDatos.BloquePresent | scripts/generar_datos.py:32-39 | with it: keys are the expected fields plus every child's stripped tag; the last duplicate wins; expected fields without a child stay `None` |
| GenerarDatos.ExtraerBloqueCompleto | scripts/generar_datos.py:30-40 | the loop builds exactly the dict described by `BloqueAbsent`/`BloquePresent` |
| GenerarDatos.HoraKeys | scripts/generar_datos.py:118-125 | a key is a source of the table exactly when some pair starts with it |
| GenerarDatos.DiaSource | scripts/generar_datos.py:118-125 | a found source is paired with the given target in the table |
| GenerarDatos.ConversionWellFormed | scripts/generar_datos.py:118-125 | the six sources are distinct, the six targets are distinct, and no key is both |
| GenerarDatos.LastPairApart | scripts/generar_datos.py:118-125 | the table's last pair shares no key with the earlier pairs |
| GenerarDatos.DiaSourceOf | scripts/generar_datos.py:118-125 | each `…dia` key's source is the `…hora` key it is paired with |
| GenerarDatos.Get | scripts/generar_datos.py:127 | a dict lookup that tells absence apart from a `None` value |
| GenerarDatos.ConvertPairsAt | scripts/generar_datos.py:126-130 | key by key, the loop gives: sources gone; a target takes its source's value when non-empty and not `None`, else keeps its own entry; other keys as before |
| GenerarDatos.NoHoraKeyRemains | scripts/generar_datos.py:126-130 | after the correction none of the six `…hora` keys remains |
| GenerarDatos.DiaKeyRule | scripts/generar_datos.py:126-128 | each `…dia` key takes the `…hora` value when truthy, and otherwise keeps its prior entry (or absence) |
| GenerarDatos.OtherKeysUnchanged | scripts/generar_datos.py:126-130 | keys outside the table are untouched |
| GenerarDatos.HoraADiaIdempotent | scripts/generar_datos.py:126-130 | a second correction changes nothing |
| GenerarDatos.ConvertPairsWithoutSources | scripts/generar_datos.py:126-130 | a dict without the table's sources is left as it is |
| GenerarDatos.Dict.CorregirHoraADia | scripts/generar_datos.py:117-130 | the in-place assign-and-delete loop leaves the dict equal to the specified correction of its old contents |
| GenerarDatos.ProcessedRecord | scripts/generar_datos.py:135-148 | a station contributes only from a fetched document; its record is fresh and holds no `…hora` key in the monthly and yearly blocks |
| GenerarDatos.CorregirEnSitio | scripts/generar_datos.py:132-133 | correcting an extracted block in place leaves exactly the specified `…hora`→`…dia` correction of it |
| GenerarDatos.ProcessDocument | scripts/generar_datos.py:107-152 | a parsed document yields the specified record when `fecha` and `hora` exist and are fresh, and nothing otherwise |
| GenerarDatos.ProcessStation | scripts/generar_datos.py:101-152 | the loop body returns the specified record, and nothing for a failed request or malformed XML |
| GenerarDatos.Accepted | scripts/generar_datos.py:100-157 | never more records than stations |
| GenerarDatos.AcceptedFrom | scripts/generar_datos.py:100-148 | every record is the contribution of some listed station |
| GenerarDatos.AcceptedIsSomes | scripts/generar_datos.py:100-148 | the list the loop builds is exactly the present per-station results, in station order |
| GenerarDatos.AcceptedComplete | scripts/generar_datos.py:135-148 | no station is dropped: whenever a station's document yields a record, that record is in the output list |
| GenerarDatos.AcceptedAppend | scripts/generar_datos.py:100-148 | records keep station order: the stations of two consecutive runs produce the first run's records followed by the second's |
| GenerarDatos.AcceptedRecords | scripts/generar_datos.py:135-148 | every appended station was fetched, is fresh, and has monthly and yearly blocks without `…hora` keys |
| GenerarDatos.AcceptedHaveTimestamps | scripts/generar_datos.py:135-136 | since the date format never matches the letter `N`, every record carries both its `fecha` and its `hora` text |
| GenerarDatos.GenerarDatos | scripts/generar_datos.py:100-167 | the output lists the accepted records in station order; `numero_estaciones` is their count, with source `Proyecto Mastral` |
| GenerarDatos.AtMostTwentyStations | scripts/generar_datos.py:43-64 | the file never lists more than the twenty configured stations |
| MapView.RemoveAll | src/components/MapView.tsx:57 | `filter` keeps exactly the other ids |
| MapView.Toggle | src/components/MapView.tsx:55-61 | a present id is removed everywhere; an absent id is appended at the end |
| MapView.RemoveAllAbsent | src/components/MapView.tsx:57 | filtering out an absent id changes nothing |
| MapView.RemoveAllNoDup | src/components/MapView.tsx:57 | filtering keeps a duplicate-free list duplicate-free |
| MapView.ToggleFlips | src/components/MapView.tsx:55-61 | the toggled id's membership flips; every other id's is unchanged |
| MapView.ToggleNoDup | src/components/MapView.tsx:56-60 | a toggle preserves "no duplicates" |
| MapView.ToggleTwice | src/components/MapView.tsx:56-60 | toggling an absent id twice restores the list; toggling a present id twice moves it to the end |
| MapView.ClickStation | src/components/MapView.tsx:63-65 | clicking the active station clears the selection; clicking another selects it |
| MapView.ClickTwice | src/components/MapView.tsx:63-65 | two clicks on the active station leave it active; from any other state they leave none active |
| MapView.Categories | src/components/MapView.tsx:68 | the category of each catalogue entry, position by position |
| MapView.InCategory | src/components/MapView.tsx:71 | a category's list holds exactly the entries of that category |
| MapView.GroupByCategory | src/components/MapView.tsx:67-73 | the reduce yields one key per category, in first-appearance order, each holding its entries in catalogue order |
| MapView.GroupedStep | src/components/MapView.tsx:68-72 | one more entry keeps the loop's state equal to the grouping of the longer prefix: key order, key set and each list |
| MapView.GroupStep | src/components/MapView.tsx:68-72 | one more entry joins its own category's list, and its category joins the key order when new |
| MapView.InCategoryStep | src/components/MapView.tsx:71 | a category's list grows by the new entry exactly when the entry is of that category |
| MapView.GroupedCountStep | src/components/MapView.tsx:67-73 | one more entry adds one to the count of each listed occurrence of its category |
| MapView.GroupedCountTotal | src/components/MapView.tsx:67-73 | over duplicate-free covering categories the list sizes add up to the catalogue size |
| MapView.GroupingIsPartition | src/components/MapView.tsx:67-73 | every entry is in its own category's list and in no other; the total count is preserved |
| MapView.FindParam | src/components/MapView.tsx:166 | `find` returns an entry with that id, and none exactly when no entry has it |
| MapView.ParamFound | src/components/MapView.tsx:166 | `find` returns the first entry with the id: an entry listed before any other with its id is the one found |
| MapView.FindStation | src/components/MapView.tsx:146 | `find` returns a station with that id, and none exactly when no station has it |
| MapView.KnownIds | src/components/MapView.tsx:165-167 | no more known ids than selected ids |
| MapView.KnownIdsMembers | src/components/MapView.tsx:165-167 | an id is listed exactly when it is selected and the catalogue has an entry for it |
| MapView.KnownIdsAppend | src/components/MapView.tsx:165-167 | known ids keep selection order: those of a concatenation are those of each part, in turn |
| MapView.KnownRowsMatchIds | src/components/MapView.tsx:165-183 | one row per selected id found in the catalogue, in selection order, built from its entry; unknown ids are skipped |
| MapView.AllKnownIds | src/components/MapView.tsx:165-167 | when every selected id is catalogued, no row is skipped |
| MapView.PopupBodyFor | src/components/MapView.tsx:159-184 | the hint exactly when nothing is selected; otherwise the rows of the known selected ids |
| MapView.OpenPopup | src/components/MapView.tsx:145-147 | a popup opens exactly for an active id that has map coordinates and a listed station |
| MapView.FixturePopups | src/components/MapView.tsx:34-45 | with the fixture stations, a popup opens exactly for ids 1 to 8, titled with that station's name |
| MapView.FixtureStationIds | src/utils/mockData.ts:45-199 | the fixture stations are numbered 1 to 8 in list order |
| MapView.StationFound | src/components/MapView.tsx:146 | a station listed before any other with its id is the one found |
| ForecastDashboard.FirstMatch | src/components/ForecastDashboard.tsx:12 | the search stops at a series of the active parameter, or at the end, and passes only series of other parameters |
| ForecastDashboard.SelectedForecast | src/components/ForecastDashboard.tsx:12 | none exactly when no series has the active parameter; otherwise a listed series of that parameter |
| ForecastDashboard.FirstMatchAt | src/components/ForecastDashboard.tsx:12 | the search returns the first position holding the active parameter |
| ForecastDashboard.FirstMatchFound | src/components/ForecastDashboard.tsx:12 | a series listed before any other of its parameter is the one found |
| ForecastDashboard.TaggedSeries | src/components/ForecastDashboard.tsx:17-26 | one tagged point per item, in order, each keeping its date and value |
| ForecastDashboard.CombinedData | src/components/ForecastDashboard.tsx:15-28 | empty without a match; otherwise `|actual| + |forecast|` points: the actual ones first, tagged `actual` with key `p (Actual)`; then the forecast ones, tagged `forecast` with key `p (Previsto)`; each key's value is the point's value |
| ForecastDashboard.ChartLayoutOfSeries | src/components/ForecastDashboard.tsx:15-28 | the tagged measured run followed by the tagged forecast run has the chart layout |
| ForecastDashboard.LineOfTagged | src/components/ForecastDashboard.tsx:17-26 | reading a tagged run back by its own tag gives its points; by another tag, none |
| ForecastDashboard.LineAppend | src/components/ForecastDashboard.tsx:15-28 | reading by tag distributes over concatenation |
| ForecastDashboard.CombinedDataSplits | src/components/ForecastDashboard.tsx:15-28 | reading the chart data back by tag gives the two original series (round trip) |
| ForecastDashboard.UnitSuffix | src/components/ForecastDashboard.tsx:73-75 | total lookup: ` °C`, ` cm`, ` PSU`, else ` µg/L` |
| ForecastDashboard.UnitSuffixMatchesCatalogue | src/components/ForecastDashboard.tsx:73-75 | each series' suffix is the catalogue unit of the parameter of that name |
| ForecastDashboard.ActualColor | src/components/ForecastDashboard.tsx:123 | the map's actual colour when known, `#E74C3C` for an unknown parameter; never empty |
| ForecastDashboard.ForecastColor | src/components/ForecastDashboard.tsx:132 | the map's forecast colour when known, `#F5B7B1` for an unknown parameter; never empty |
| ForecastDashboard.ColorsOfFixture | src/components/ForecastDashboard.tsx:31-38 | every series has its own colours, so no line falls back; the fallbacks equal the temperature colours |
| ForecastDashboard.CardValues | src/components/ForecastDashboard.tsx:72-96 | the cards read a measured point and a forecast point; both arrays must be non-empty |
| ForecastDashboard.CardsAtSeam | src/components/ForecastDashboard.tsx:72-96 | the cards show the chart points on either side of the seam between the two lines |
| ForecastDashboard.FixtureCardsDefined | src/components/ForecastDashboard.tsx:72-90 | every fixture series has non-empty arrays; each tab finds its own series; the initial `Temperatura` finds the first |

## Left out

- Fetching and loading state (`fetch`, `useEffect`, the loading and error screens) and all rendering: charts, JSX, and Leaflet map, tile and marker setup. These are asynchronous I/O and UI.
- `parseFloat`, the first-comma replacement and `toFixed` are abstracted by the parameter `parse`. IEEE arithmetic (rounding, infinities) is not modelled: sums and means are exact reals.
- `Math.random` is the parameter `draw`, one amount per station in scope. Its range [0, 0.5) is a precondition of `GetAggregates`.
- Python's `requests.get`, `ET.fromstring`, `json.dump`, the printed warnings and `datetime.now` are inputs or are left out. Exceptions other than request and XML-parse errors, which would stop the script, are not modelled.
- `strptime` and the pytz localisation are the parameter `stampOf`. Daylight-saving ambiguity is therefore not modelled.
- GenerarDatos.MissingTextIsStale: rests on one fact about `strptime` with `%d/%m/%Y %H:%M`: no text it accepts contains the letter `N`. Its pattern matches only decimal digits, `/`, `:` and whitespace. The fact is a precondition, not proved of `strptime`; `AcceptedHaveTimestamps` rests on it too.
- Key order of the written JSON, and of a Python dict when printed, is not modelled: blocks are maps.
- DataDashboard.ParseInt: `parseInt` skips leading whitespace and accepts a sign. The model reads a `0x`/`0X` prefix followed by hexadecimal digits, and otherwise a leading run of ASCII decimal digits. A selector such as `" 2"` or `"-0"` is therefore treated as not a position.
- MapView.GroupByCategory: `Object.entries` lists integer-like keys (such as `"7"`) before the others, in numeric order. The model keeps pure first-appearance order, which is exact for the catalogue's named categories.
- DataDashboard.CountFrequencies: `Object.entries` lists integer-like keys (such as `"270"`) before the others, in numeric order. The model keeps pure insertion order, which is exact for compass-name directions.
- DataDashboard.GetMostFrequentDirection: the sort is modelled by its head only, as the first key of maximal count. That is what a stable descending sort puts first; the rest of the sorted order is not built.
- DataDashboard.GetEvolucionTemporal: an hour field that is `undefined` and one that is `null` are both `None`.
- DataDashboard.GetEvolucionPresionDiaria: its own contract states only the global-view case. Its full behaviour is stated through `PresionDiariaIsEvolucionTemporal`.
- `getTimeSeries` and `getStationComparison` (per-station parsed values in snapshot order) are left out. They are a plain `map` with no property beyond their length.
- MapView.PopupBodyFor: a row's value text (the number and the unit joined into one string) is kept as the reading and the unit, not formatted. The DOM element construction and the CSS classes are left out.
- MapView.OpenPopup: closing the other popups and rebinding the marker are UI effects and are left out. Only which popup opens and what it holds are modelled.
- The map view's `STATION_COORDINATES` values (latitude and longitude) are left out; only their ids matter to the rules.
- The `"todas"` view's station selector component and the tab layout are not part of this model.
