/** The station metrics layer of the data dashboard: the station selector,
    aggregates over the current readings, the most frequent wind direction,
    the trend indicator, the monthly/yearly extremes table, the daily
    evolution pair and the wind-rose indicator vector.

    Numbers are reals; `parseFloat(text.replace(",", "."))` is the parameter
    `parse`, whose `None` stands for NaN. */
module DataDashboard {
  import opened Common

  /** One station of the snapshot (`EstacionData`). */
  datatype Station = Station(
    estacion: string,
    latitud: string,
    longitud: string,
    fecha: string,
    hora: string,
    actuales: Block,
    diarios: Option<Block>,
    mensuales: Option<Block>,
    anuales: Option<Block>,
    astronomia: Option<Block>)

  datatype Metadata = Metadata(fuente: string, fechaGeneracion: string, numeroEstaciones: int)

  /** The loaded JSON document (`DatosJSON`). */
  datatype Snapshot = Snapshot(metadata: Metadata, datos: seq<Station>)

  /** The selector value that stands for every station. */
  const ALL_STATIONS := "todas"

  // ---------------------------------------------------------------------
  // Decimal text of a station index: `idx.toString()` and `parseInt`
  // ---------------------------------------------------------------------

  predicate IsDigit(c: char)
  {
    '0' <= c <= '9'
  }

  /** A digit of `parseInt` in base `radix` (10, or 16 after a `0x`
      prefix): a decimal digit below the radix, or in base 16 a letter
      `a`-`f` or `A`-`F`. */
  predicate IsDigitIn(c: char, radix: nat)
  {
    (IsDigit(c) && c as int - '0' as int < radix)
    || (radix == 16 && ('a' <= c <= 'f' || 'A' <= c <= 'F'))
  }

  predicate AllDigits(s: string, radix: nat)
  {
    forall i :: 0 <= i < |s| ==> IsDigitIn(s[i], radix)
  }

  function DigitChar(d: nat): (c: char)
    requires d < 10
    ensures IsDigit(c) && c as int - '0' as int == d
  {
    ('0' as int + d) as char
  }

  function DigitValue(c: char, radix: nat): (v: nat)
    requires IsDigitIn(c, radix)
    ensures v < radix
  {
    if IsDigit(c) then c as int - '0' as int
    else if 'a' <= c <= 'f' then c as int - 'a' as int + 10
    else c as int - 'A' as int + 10
  }

  /** `idx.toString()` for a non-negative index: decimal, no leading zero. */
  function NatToString(n: nat): (s: string)
    ensures |s| > 0 && AllDigits(s, 10)
    ensures |s| > 1 ==> s[0] != '0'
  {
    if n < 10 then [DigitChar(n)]
    else NatToString(n / 10) + [DigitChar(n % 10)]
  }

  /** The number written by a string of digits in base `radix`. */
  function DigitsValue(s: string, radix: nat): nat
    requires AllDigits(s, radix)
  {
    if s == [] then 0
    else DigitsValue(s[..|s| - 1], radix) * radix + DigitValue(s[|s| - 1], radix)
  }

  /** Length of the longest prefix of `s` made of digits in base `radix`. */
  function LeadingDigits(s: string, radix: nat): (k: nat)
    ensures k <= |s| && AllDigits(s[..k], radix)
    ensures k < |s| ==> !IsDigitIn(s[k], radix)
  {
    if s == [] || !IsDigitIn(s[0], radix) then 0
    else
      var k := LeadingDigits(s[1..], radix) + 1;
      assert s[..k] == [s[0]] + s[1..][..k - 1];
      k
  }

  /** The value of the leading run of digits in base `radix`, or NaN (None)
      when the run is empty. */
  function ParseRun(s: string, radix: nat): Option<nat>
  {
    var k := LeadingDigits(s, radix);
    if k == 0 then None else Some(DigitsValue(s[..k], radix))
  }

  /** `parseInt(s)` without a radix: after a `0x` or `0X` prefix the digits
      are hexadecimal, otherwise decimal. */
  function ParseInt(s: string): Option<nat>
  {
    if |s| >= 2 && s[0] == '0' && (s[1] == 'x' || s[1] == 'X') then ParseRun(s[2..], 16)
    else ParseRun(s, 10)
  }

  lemma {:induction false} DigitsValueOfNatToString(n: nat)
    ensures DigitsValue(NatToString(n), 10) == n
  {
    if n >= 10 {
      var s := NatToString(n);
      DigitsValueOfNatToString(n / 10);
      assert s[..|s| - 1] == NatToString(n / 10);
    }
  }

  lemma {:induction false} LeadingDigitsOfAllDigits(s: string, radix: nat)
    requires AllDigits(s, radix)
    ensures LeadingDigits(s, radix) == |s|
  {
    if s != [] {
      LeadingDigitsOfAllDigits(s[1..], radix);
    }
  }

  /** `parseInt(idx.toString()) === idx`: the index a selector names is
      recovered from its decimal text. */
  lemma ParseIntOfNatToString(n: nat)
    ensures ParseInt(NatToString(n)) == Some(n)
  {
    var s := NatToString(n);
    LeadingDigitsOfAllDigits(s, 10);
    assert s[..|s|] == s;
    DigitsValueOfNatToString(n);
  }

  /** Two indices never share a decimal text. */
  lemma NatToStringInjective(i: nat, j: nat)
    requires NatToString(i) == NatToString(j)
    ensures i == j
  {
    ParseIntOfNatToString(i);
    ParseIntOfNatToString(j);
  }

  // ---------------------------------------------------------------------
  // The station selector
  // ---------------------------------------------------------------------

  /** The filter callback: station `i` is selected by its position written
      in decimal or by its name. */
  predicate Matches(stations: seq<Station>, i: nat, sel: string)
    requires i < |stations|
  {
    NatToString(i) == sel || stations[i].estacion == sel
  }

  /** `stations.filter((e, idx) => ...)` from position `k` on. */
  function FilterFrom(stations: seq<Station>, sel: string, k: nat): seq<Station>
    requires k <= |stations|
    decreases |stations| - k
  {
    if k == |stations| then []
    else (if Matches(stations, k, sel) then [stations[k]] else []) + FilterFrom(stations, sel, k + 1)
  }

  /** The stations in scope for a selector. */
  function Scope(stations: seq<Station>, sel: string): seq<Station>
  {
    if sel == ALL_STATIONS then stations else FilterFrom(stations, sel, 0)
  }

  /** Whether the filter keeps each station. */
  function Mask(stations: seq<Station>, sel: string): (keep: seq<bool>)
    ensures |keep| == |stations|
    ensures forall i :: 0 <= i < |stations| ==> keep[i] == Matches(stations, i, sel)
  {
    seq(|stations|, i requires 0 <= i < |stations| => Matches(stations, i, sel))
  }

  /** The positions from `k` on whose flag is set, in order. */
  ghost function Positions(keep: seq<bool>, k: nat): seq<nat>
    requires k <= |keep|
    decreases |keep| - k
  {
    if k == |keep| then [] else (if keep[k] then [k] else []) + Positions(keep, k + 1)
  }

  /** The positions the filter keeps. */
  ghost function MatchingIndices(stations: seq<Station>, sel: string): seq<nat>
  {
    Positions(Mask(stations, sel), 0)
  }

  /** The positions from `k` on are in range and flagged. */
  lemma {:induction false} PositionsFlagged(keep: seq<bool>, k: nat)
    requires k <= |keep|
    ensures forall j :: 0 <= j < |Positions(keep, k)| ==>
      k <= Positions(keep, k)[j] < |keep| && keep[Positions(keep, k)[j]]
    decreases |keep| - k
  {
    if k < |keep| {
      PositionsFlagged(keep, k + 1);
      var rix := Positions(keep, k + 1);
      var hix: seq<nat> := if keep[k] then [k] else [];
      var ix := Positions(keep, k);
      assert ix == hix + rix;
      forall j | 0 <= j < |ix| ensures k <= ix[j] < |keep| && keep[ix[j]] {
        if j >= |hix| {
          assert ix[j] == rix[j - |hix|];
        }
      }
    }
  }

  /** The positions increase strictly: each is below the next. */
  lemma {:induction false} PositionsIncrease(keep: seq<bool>, k: nat)
    requires k <= |keep|
    ensures forall j :: 0 <= j < |Positions(keep, k)| - 1 ==> Positions(keep, k)[j] < Positions(keep, k)[j + 1]
    decreases |keep| - k
  {
    if k < |keep| {
      PositionsIncrease(keep, k + 1);
      var rix := Positions(keep, k + 1);
      var hix: seq<nat> := if keep[k] then [k] else [];
      var ix := Positions(keep, k);
      assert ix == hix + rix;
      if hix != [] && rix != [] {
        PositionsFlagged(keep, k + 1);
        assert ix[0] == k && ix[1] == rix[0];
      }
      forall j | 0 <= j < |ix| - 1 ensures ix[j] < ix[j + 1] {
        if j >= |hix| {
          assert ix[j] == rix[j - |hix|] && ix[j + 1] == rix[j + 1 - |hix|];
        }
      }
    }
  }

  /** Every flagged position from `k` on is listed. */
  lemma {:induction false} PositionsComplete(keep: seq<bool>, k: nat)
    requires k <= |keep|
    ensures forall i :: k <= i < |keep| && keep[i] ==> i in Positions(keep, k)
    decreases |keep| - k
  {
    if k < |keep| {
      PositionsComplete(keep, k + 1);
      var hix: seq<nat> := if keep[k] then [k] else [];
      assert Positions(keep, k) == hix + Positions(keep, k + 1);
    }
  }

  /** The filter from `k` is the stations at the kept positions. */
  lemma {:induction false} FilterFromSelects(stations: seq<Station>, sel: string, k: nat)
    requires k <= |stations|
    ensures var ix := Positions(Mask(stations, sel), k);
      |FilterFrom(stations, sel, k)| == |ix| &&
      forall j :: 0 <= j < |ix| ==> ix[j] < |stations| && FilterFrom(stations, sel, k)[j] == stations[ix[j]]
    decreases |stations| - k
  {
    var keep := Mask(stations, sel);
    if k < |stations| {
      FilterFromSelects(stations, sel, k + 1);
      var rest, rix := FilterFrom(stations, sel, k + 1), Positions(keep, k + 1);
      var head := if keep[k] then [stations[k]] else [];
      var hix: seq<nat> := if keep[k] then [k] else [];
      assert FilterFrom(stations, sel, k) == head + rest;
      assert Positions(keep, k) == hix + rix;
    }
  }

  /** A selector other than "todas" keeps, in snapshot order, every station
      whose position or name it equals, and only those; all matches are kept,
      not just the first. */
  lemma ScopeIsOrderedSelection(stations: seq<Station>, sel: string)
    requires sel != ALL_STATIONS
    ensures var ix := MatchingIndices(stations, sel);
      (forall i :: 0 <= i < |stations| ==> (i in ix <==> Matches(stations, i, sel))) &&
      (forall j :: 0 <= j < |ix| - 1 ==> ix[j] < ix[j + 1]) &&
      |Scope(stations, sel)| == |ix| &&
      (forall j :: 0 <= j < |ix| ==> ix[j] < |stations| && Scope(stations, sel)[j] == stations[ix[j]])
  {
    var keep := Mask(stations, sel);
    PositionsFlagged(keep, 0);
    PositionsIncrease(keep, 0);
    PositionsComplete(keep, 0);
    FilterFromSelects(stations, sel, 0);
  }

  /** When station `i` is the only match, the filter from `k` keeps it
      alone if `k` has not passed it. */
  lemma {:induction false} FilterFromSingleMatch(stations: seq<Station>, sel: string, i: nat, k: nat)
    requires i < |stations| && k <= |stations| && Matches(stations, i, sel)
    requires forall i' :: 0 <= i' < |stations| && Matches(stations, i', sel) ==> i' == i
    ensures FilterFrom(stations, sel, k) == if k <= i then [stations[i]] else []
    decreases |stations| - k
  {
    if k < |stations| {
      FilterFromSingleMatch(stations, sel, i, k + 1);
    }
  }

  /** A selector written as a position that no station uses as its name
      selects exactly that station. */
  lemma ScopeOfIndexSelector(stations: seq<Station>, i: nat)
    requires i < |stations|
    requires forall st :: st in stations ==> st.estacion != NatToString(i)
    ensures Scope(stations, NatToString(i)) == [stations[i]]
  {
    var sel := NatToString(i);
    assert sel != ALL_STATIONS by { assert IsDigit(sel[0]) && !IsDigit(ALL_STATIONS[0]); }
    forall i' | 0 <= i' < |stations| && Matches(stations, i', sel)
      ensures i' == i
    {
      assert stations[i'] in stations;
      NatToStringInjective(i', i);
    }
    FilterFromSingleMatch(stations, sel, i, 0);
  }

  /** `selectedStation`: `data.datos[parseInt(currentStationId)]` outside
      the global view; undefined (None) for NaN or an index out of range. */
  function SelectedStation(data: Snapshot, sel: string): (st: Option<Station>)
    ensures sel == ALL_STATIONS ==> st == None
    ensures st.Some? ==> st.value in data.datos
  {
    if sel == ALL_STATIONS then None
    else match ParseInt(sel)
      case Some(k) => if k < |data.datos| then Some(data.datos[k]) else None
      case None => None
  }

  /** Selecting a station by its position finds it as the selected station. */
  lemma SelectedStationByIndex(data: Snapshot, i: nat)
    requires i < |data.datos|
    ensures SelectedStation(data, NatToString(i)) == Some(data.datos[i])
  {
    var sel := NatToString(i);
    assert sel != ALL_STATIONS by { assert IsDigit(sel[0]) && !IsDigit(ALL_STATIONS[0]); }
    ParseIntOfNatToString(i);
  }

  /** A hexadecimal digit in upper case. */
  function HexChar(d: nat): (c: char)
    requires d < 16
    ensures IsDigitIn(c, 16) && DigitValue(c, 16) == d
  {
    if d < 10 then DigitChar(d) else ('A' as int + d - 10) as char
  }

  /** A position written in upper-case hexadecimal, without a leading zero. */
  function NatToHex(n: nat): (s: string)
    ensures |s| > 0 && AllDigits(s, 16)
  {
    if n < 16 then [HexChar(n)]
    else NatToHex(n / 16) + [HexChar(n % 16)]
  }

  lemma {:induction false} DigitsValueOfNatToHex(n: nat)
    ensures DigitsValue(NatToHex(n), 16) == n
  {
    if n >= 16 {
      var s := NatToHex(n);
      DigitsValueOfNatToHex(n / 16);
      assert s[..|s| - 1] == NatToHex(n / 16);
    }
  }

  /** A selector with a `0x` prefix is read in base 16: `"0x"` followed by
      the hexadecimal text of a position selects that station, while a bare
      `"0x"` is NaN and selects none. */
  lemma HexSelector(data: Snapshot, n: nat)
    requires n < |data.datos|
    ensures SelectedStation(data, "0x" + NatToHex(n)) == Some(data.datos[n])
    ensures SelectedStation(data, "0x") == None
  {
    var h := NatToHex(n);
    var sel := "0x" + h;
    assert sel[2..] == h && sel[0] == '0' && sel[1] == 'x';
    assert sel != ALL_STATIONS by { assert sel[0] != ALL_STATIONS[0]; }
    LeadingDigitsOfAllDigits(h, 16);
    assert h[..|h|] == h;
    DigitsValueOfNatToHex(n);
    assert "0x"[2..] == [];
  }

  /** A selector that is a station's name (and does not start with a digit)
      puts that station in scope for the aggregates, yet yields no selected
      station: the selected station is found by position only. */
  lemma NameSelectorHasNoSelectedStation(data: Snapshot, i: nat)
    requires i < |data.datos|
    requires var name := data.datos[i].estacion; name != ALL_STATIONS && (name == [] || !IsDigit(name[0]))
    ensures data.datos[i] in Scope(data.datos, data.datos[i].estacion)
    ensures SelectedStation(data, data.datos[i].estacion) == None
  {
    var sel := data.datos[i].estacion;
    ScopeIsOrderedSelection(data.datos, sel);
    var ix := MatchingIndices(data.datos, sel);
    assert Matches(data.datos, i, sel);
    var j :| 0 <= j < |ix| && ix[j] == i;
    assert Scope(data.datos, sel)[j] == data.datos[i];
  }

  // ---------------------------------------------------------------------
  // getAggregates
  // ---------------------------------------------------------------------

  datatype Aggregates = Aggregates(avg: real, min: real, max: real, trend: real)

  /** The degenerate result when nothing parses. */
  const NO_AGGREGATES := Aggregates(0.0, 0.0, 0.0, 0.0)

  /** `parseFloat(est.actuales[paramId]?.replace(",", "."))`: None is NaN
      (key missing, null, or text that does not parse). */
  function CurrentValue(st: Station, paramId: string, parse: string -> Option<real>): Option<real>
  {
    if paramId in st.actuales && st.actuales[paramId].Some? then parse(st.actuales[paramId].value)
    else None
  }

  /** The values that parse, in scope order: one per station whose value
      parses, so none exactly when no station's value parses (an unparsable
      value is skipped, not counted as zero). */
  function ParsedValues(scope: seq<Station>, paramId: string, parse: string -> Option<real>): (vs: seq<real>)
    ensures |vs| <= |scope|
    ensures vs == [] <==> forall st :: st in scope ==> CurrentValue(st, paramId, parse).None?
    ensures forall v :: v in vs ==> exists st :: st in scope && CurrentValue(st, paramId, parse) == Some(v)
  {
    if scope == [] then []
    else
      assert scope == scope[..|scope| - 1] + [scope[|scope| - 1]];
      var init := ParsedValues(scope[..|scope| - 1], paramId, parse);
      match CurrentValue(scope[|scope| - 1], paramId, parse)
      case Some(v) => init + [v]
      case None => init
  }

  /** No parsable value is dropped: every station in scope whose value
      parses contributes that value. */
  lemma {:induction false} ParsedValuesComplete(scope: seq<Station>, paramId: string, parse: string -> Option<real>)
    ensures forall st :: st in scope && CurrentValue(st, paramId, parse).Some? ==>
      CurrentValue(st, paramId, parse).value in ParsedValues(scope, paramId, parse)
  {
    if scope != [] {
      var init := scope[..|scope| - 1];
      assert scope == init + [scope[|scope| - 1]];
      ParsedValuesComplete(init, paramId, parse);
    }
  }

  /** The value a station contributes: its parse, or nothing. */
  function Contribution(st: Station, paramId: string, parse: string -> Option<real>): seq<real>
  {
    match CurrentValue(st, paramId, parse)
    case Some(v) => [v]
    case None => []
  }

  lemma ParsedValuesLast(scope: seq<Station>, paramId: string, parse: string -> Option<real>)
    requires scope != []
    ensures ParsedValues(scope, paramId, parse)
      == ParsedValues(scope[..|scope| - 1], paramId, parse) + Contribution(scope[|scope| - 1], paramId, parse)
  {
  }

  /** The values keep scope order: those of a concatenation are those of
      its first part followed by those of its second. */
  lemma {:induction false} ParsedValuesAppend(a: seq<Station>, b: seq<Station>, paramId: string, parse: string -> Option<real>)
    ensures ParsedValues(a + b, paramId, parse) == ParsedValues(a, paramId, parse) + ParsedValues(b, paramId, parse)
  {
    if b == [] {
      assert a + b == a;
    } else {
      var ab, init := a + b, b[..|b| - 1];
      assert ab[..|ab| - 1] == a + init && ab[|ab| - 1] == b[|b| - 1];
      ParsedValuesLast(ab, paramId, parse);
      ParsedValuesLast(b, paramId, parse);
      ParsedValuesAppend(a, init, paramId, parse);
    }
  }

  /** The random amounts subtracted to simulate the previous reading of the
      stations whose value parses (`draw(i)` is the i-th `Math.random() * 0.5`). */
  function TrendDraws(scope: seq<Station>, paramId: string, parse: string -> Option<real>, draw: nat -> real): (ds: seq<real>)
    ensures |ds| == |ParsedValues(scope, paramId, parse)|
  {
    if scope == [] then []
    else
      var init := TrendDraws(scope[..|scope| - 1], paramId, parse, draw);
      match CurrentValue(scope[|scope| - 1], paramId, parse)
      case Some(_) => init + [draw(|scope| - 1)]
      case None => init
  }

  /** One more station in the prefix adds its value and its draw when the
      value parses, and nothing otherwise. */
  lemma ParsedStep(scope: seq<Station>, i: nat, paramId: string, parse: string -> Option<real>, draw: nat -> real)
    requires i < |scope|
    ensures var v := CurrentValue(scope[i], paramId, parse);
      && ParsedValues(scope[..i + 1], paramId, parse) ==
           (if v.Some? then ParsedValues(scope[..i], paramId, parse) + [v.value] else ParsedValues(scope[..i], paramId, parse))
      && TrendDraws(scope[..i + 1], paramId, parse, draw) ==
           (if v.Some? then TrendDraws(scope[..i], paramId, parse, draw) + [draw(i)] else TrendDraws(scope[..i], paramId, parse, draw))
  {
    assert scope[..i + 1][..i] == scope[..i];
  }

  /** Pairwise difference of two sequences of the same length. */
  function Minus(a: seq<real>, b: seq<real>): (c: seq<real>)
    requires |a| == |b|
    ensures |c| == |a|
  {
    if a == [] then [] else Minus(a[..|a| - 1], b[..|b| - 1]) + [a[|a| - 1] - b[|b| - 1]]
  }

  lemma MinusAppend(a: seq<real>, b: seq<real>, x: real, y: real)
    requires |a| == |b|
    ensures Minus(a + [x], b + [y]) == Minus(a, b) + [x - y]
  {
    assert (a + [x])[..|a|] == a && (b + [y])[..|b|] == b;
  }

  lemma {:induction false} SumMinus(a: seq<real>, b: seq<real>)
    requires |a| == |b|
    ensures Sum(Minus(a, b)) == Sum(a) - Sum(b)
  {
    if a != [] {
      SumMinus(a[..|a| - 1], b[..|b| - 1]);
      var c := Minus(a, b);
      assert c[..|c| - 1] == Minus(a[..|a| - 1], b[..|b| - 1]);
    }
  }

  /** The simulated trend is the mean of the random amounts, so it lies in
      [0, 0.5): the dashboard can never show a falling trend. */
  lemma SimulatedTrendBounds(ds: seq<real>)
    requires |ds| > 0
    requires forall d :: d in ds ==> 0.0 <= d < 0.5
    ensures 0.0 <= Sum(ds) / |ds| as real < 0.5
    ensures TrendIcon(Sum(ds) / |ds| as real) != ArrowDown
  {
    MeanBounds(ds, 0.0, 0.5);
    SumBelow(ds, 0.5);
    var n := |ds| as real;
    var mean := Sum(ds) / n;
    assert mean * n == Sum(ds);
    assert (0.5 - mean) * n > 0.0;
  }

  /** The loop of `getAggregates`: the values of the stations in scope that
      parse, and the simulated previous values beside them. */
  method CollectValues(estaciones: seq<Station>, paramId: string, parse: string -> Option<real>, draw: nat -> real)
    returns (values: seq<real>, prevValues: seq<real>)
    ensures values == ParsedValues(estaciones, paramId, parse)
    ensures prevValues == Minus(values, TrendDraws(estaciones, paramId, parse, draw))
  {
    values, prevValues := [], [];
    ghost var ds: seq<real> := [];
    for i := 0 to |estaciones|
      invariant values == ParsedValues(estaciones[..i], paramId, parse)
      invariant ds == TrendDraws(estaciones[..i], paramId, parse, draw)
      invariant prevValues == Minus(values, ds)
    {
      ParsedStep(estaciones, i, paramId, parse, draw);
      var val := CurrentValue(estaciones[i], paramId, parse);
      // NaN minus a random amount stays NaN, so a previous value exists
      // exactly when the current one parses
      if val.Some? {
        MinusAppend(values, ds, val.value, draw(i));
        values := values + [val.value];
        prevValues := prevValues + [val.value - draw(i)];
        ds := ds + [draw(i)];
      }
    }
    assert estaciones[..|estaciones|] == estaciones;
  }

  /** `getAggregates(paramId)`: average, minimum and maximum of the values
      that parse among the stations in scope, and the simulated trend. */
  method GetAggregates(data: Option<Snapshot>, sel: string, paramId: string,
                       parse: string -> Option<real>, draw: nat -> real)
    returns (agg: Aggregates)
    requires forall i :: 0.0 <= draw(i) < 0.5
    ensures data.None? ==> agg == NO_AGGREGATES
    ensures data.Some? ==>
      var scope := Scope(data.value.datos, sel);
      var vals := ParsedValues(scope, paramId, parse);
      var ds := TrendDraws(scope, paramId, parse, draw);
      && (vals == [] ==> agg == NO_AGGREGATES)
      && (vals != [] ==>
            && agg.min in vals && agg.max in vals
            && (forall v :: v in vals ==> agg.min <= v <= agg.max)
            && agg.avg == Sum(vals) / |vals| as real
            && agg.min <= agg.avg <= agg.max
            && agg.trend == Sum(ds) / |ds| as real
            && 0.0 <= agg.trend < 0.5)
  {
    if data.None? {
      return NO_AGGREGATES;
    }
    var estaciones := data.value.datos;
    if sel != ALL_STATIONS {
      estaciones := FilterFrom(estaciones, sel, 0);
    }
    var values, prevValues := CollectValues(estaciones, paramId, parse, draw);
    ghost var ds := TrendDraws(estaciones, paramId, parse, draw);
    if |values| == 0 {
      return NO_AGGREGATES;
    }
    var avg := Sum(values) / |values| as real;
    var min := SeqMin(values);
    var max := SeqMax(values);
    var prevAvg := if |prevValues| > 0 then Sum(prevValues) / |prevValues| as real else avg;
    agg := Aggregates(avg, min, max, avg - prevAvg);
    DrawsInRange(estaciones, paramId, parse, draw);
    SumMinus(values, ds);
    AggregateFacts(values, ds, prevValues);
  }

  lemma DivideDifference(a: real, c: real, b: real, n: nat, m: nat, k: nat)
    requires n > 0 && m == n && k == n && c == a - b
    ensures a / n as real - c / m as real == b / k as real
  {
    var x, y := a / n as real, c / n as real;
    assert x * n as real == a && y * n as real == c;
    assert (x - y) * n as real == b;
  }

  /** What the final arithmetic of `getAggregates` yields from the values and
      the simulated previous values, which sum to the values' sum minus the
      random draws. */
  lemma AggregateFacts(values: seq<real>, ds: seq<real>, prevValues: seq<real>)
    requires |values| > 0 && |ds| == |values| && |prevValues| == |values|
    requires Sum(prevValues) == Sum(values) - Sum(ds)
    requires forall d :: d in ds ==> 0.0 <= d < 0.5
    ensures var n := |values| as real;
      var avg := Sum(values) / n;
      var prevAvg := Sum(prevValues) / |prevValues| as real;
      && SeqMin(values) <= avg <= SeqMax(values)
      && avg - prevAvg == Sum(ds) / |ds| as real
      && 0.0 <= avg - prevAvg < 0.5
  {
    MeanBounds(values, SeqMin(values), SeqMax(values));
    MeanOfDifference(values, prevValues, ds);
    SimulatedTrendBounds(ds);
  }

  /** Subtracting amounts whose sum is known lowers the mean by their mean. */
  lemma MeanOfDifference(a: seq<real>, c: seq<real>, b: seq<real>)
    requires |a| > 0 && |c| == |a| && |b| == |a| && Sum(c) == Sum(a) - Sum(b)
    ensures Sum(a) / |a| as real - Sum(c) / |c| as real == Sum(b) / |b| as real
  {
    DivideDifference(Sum(a), Sum(c), Sum(b), |a|, |c|, |b|);
  }

  lemma {:induction false} DrawsInRange(scope: seq<Station>, paramId: string, parse: string -> Option<real>, draw: nat -> real)
    requires forall i :: 0.0 <= draw(i) < 0.5
    ensures forall d :: d in TrendDraws(scope, paramId, parse, draw) ==> 0.0 <= d < 0.5
  {
    if scope != [] {
      DrawsInRange(scope[..|scope| - 1], paramId, parse, draw);
    }
  }

  // ---------------------------------------------------------------------
  // getTrendIcon
  // ---------------------------------------------------------------------

  datatype Icon = ArrowUp | ArrowDown | Flat

  /** `getTrendIcon(trend)`: exhaustive and exclusive thresholds at ±0.1. */
  function TrendIcon(trend: real): (icon: Icon)
    ensures icon == ArrowUp <==> trend > 0.1
    ensures icon == ArrowDown <==> trend < -0.1
    ensures icon == Flat <==> -0.1 <= trend <= 0.1
  {
    if trend > 0.1 then ArrowUp
    else if trend < -0.1 then ArrowDown
    else Flat
  }

  // ---------------------------------------------------------------------
  // getMostFrequentDirection
  // ---------------------------------------------------------------------

  /** `estaciones.map(est => est.actuales.direccionviento).filter(Boolean)`. */
  function Directions(scope: seq<Station>): (dirs: seq<string>)
    ensures forall d :: d in dirs ==> d != ""
  {
    if scope == [] then []
    else
      var init := Directions(scope[..|scope| - 1]);
      var last := scope[|scope| - 1];
      if Truthy(last.actuales, "direccionviento") then init + [last.actuales["direccionviento"].value]
      else init
  }

  /** No direction is dropped: every station in scope whose
      `direccionviento` is truthy contributes it. */
  lemma {:induction false} DirectionsComplete(scope: seq<Station>)
    ensures forall st :: st in scope && Truthy(st.actuales, "direccionviento") ==>
      st.actuales["direccionviento"].value in Directions(scope)
  {
    if scope != [] {
      var init := scope[..|scope| - 1];
      assert scope == init + [scope[|scope| - 1]];
      DirectionsComplete(init);
    }
  }

  /** The directions keep scope order: those of a concatenation are those
      of its first part followed by those of its second. */
  lemma {:induction false} DirectionsAppend(a: seq<Station>, b: seq<Station>)
    ensures Directions(a + b) == Directions(a) + Directions(b)
  {
    if b == [] {
      assert a + b == a;
    } else {
      var ab := a + b;
      assert ab[..|ab| - 1] == a + b[..|b| - 1];
      DirectionsAppend(a, b[..|b| - 1]);
    }
  }

  /** The `forEach` that fills the `freq` record: the count of every
      direction, and the record's keys in insertion order. */
  method CountFrequencies(directions: seq<string>) returns (freq: map<string, nat>, keys: seq<string>)
    ensures freq == Tally(directions) && keys == Distinct(directions)
    ensures forall d :: d in freq <==> d in directions
    ensures forall d :: d in freq ==> freq[d] == Count(directions, d)
  {
    freq, keys := map[], [];
    var i := 0;
    while i < |directions|
      invariant 0 <= i <= |directions|
      invariant freq == Tally(directions[..i])
      invariant keys == Distinct(directions[..i])
    {
      var dir := directions[i];
      TallyStep(directions, i);
      DistinctStep(directions, i);
      keys, freq := if dir in freq then keys else keys + [dir],
        freq[dir := (if dir in freq then freq[dir] else 0) + 1];
      i := i + 1;
    }
    assert directions[..i] == directions;
    TallyKeys(directions);
    TallyCounts(directions);
  }

  /** The `freq` record after counting `s` in order: each direction bumped by
      one, starting from zero. */
  function Tally(s: seq<string>): map<string, nat>
  {
    if s == [] then map[]
    else
      var t, d := Tally(s[..|s| - 1]), s[|s| - 1];
      t[d := (if d in t then t[d] else 0) + 1]
  }

  /** Counting one more direction bumps its entry. */
  lemma TallyStep(s: seq<string>, i: nat)
    requires i < |s|
    ensures Tally(s[..i + 1]) == Tally(s[..i])[s[i] := (if s[i] in Tally(s[..i]) then Tally(s[..i])[s[i]] else 0) + 1]
  {
    assert s[..i + 1][..i] == s[..i];
  }

  /** One more direction joins the keys exactly when it has no entry yet. */
  lemma DistinctStep(s: seq<string>, i: nat)
    requires i < |s|
    ensures Distinct(s[..i + 1]) == if s[i] in Tally(s[..i]) then Distinct(s[..i]) else Distinct(s[..i]) + [s[i]]
  {
    assert s[..i + 1][..i] == s[..i];
    TallyKeys(s[..i]);
  }

  /** The record has a key exactly for the directions that occur. */
  lemma {:induction false} TallyKeys(s: seq<string>)
    ensures forall d :: d in Tally(s) <==> d in s
  {
    if s != [] {
      var init := s[..|s| - 1];
      assert s == init + [s[|s| - 1]];
      TallyKeys(init);
    }
  }

  /** Each key holds the number of occurrences of its direction. */
  lemma {:induction false} TallyCounts(s: seq<string>)
    ensures forall d :: d in Tally(s) ==> Tally(s)[d] == Count(s, d)
  {
    if s != [] {
      var init := s[..|s| - 1];
      TallyKeys(init);
      TallyCounts(init);
      if s[|s| - 1] !in init {
        CountAbsent(init, s[|s| - 1]);
      }
    }
  }

  /** `Object.entries(freq).sort((a, b) => b[1] - a[1])[0]`: the sort is
      stable, so its head is the first key, in insertion order, whose count
      is maximal. */
  method HeadOfSortedEntries(freq: map<string, nat>, keys: seq<string>) returns (best: nat)
    requires |keys| > 0
    requires forall k :: k in keys ==> k in freq
    ensures best < |keys|
    ensures forall t :: 0 <= t < |keys| ==> freq[keys[t]] <= freq[keys[best]]
    ensures forall t :: 0 <= t < best ==> freq[keys[t]] < freq[keys[best]]
  {
    best := 0;
    var j := 1;
    while j < |keys|
      invariant 0 <= best < |keys| && best < j <= |keys|
      invariant forall t :: 0 <= t < j ==> freq[keys[t]] <= freq[keys[best]]
      invariant forall t :: 0 <= t < best ==> freq[keys[t]] < freq[keys[best]]
    {
      if freq[keys[j]] > freq[keys[best]] {
        best := j;
      }
      j := j + 1;
    }
  }

  /** `getMostFrequentDirection()`: "-" when no station in scope has a
      direction; otherwise a direction of maximal count, and among those the
      one seen first. */
  method GetMostFrequentDirection(data: Option<Snapshot>, sel: string) returns (r: string)
    ensures data.None? ==> r == "-"
    ensures data.Some? ==>
      var dirs := Directions(Scope(data.value.datos, sel));
      && (dirs == [] ==> r == "-")
      && (dirs != [] ==>
            && r in dirs
            && (forall d :: d in dirs ==> Count(dirs, d) <= Count(dirs, r))
            && (forall d :: d in dirs && FirstIndex(dirs, d) < FirstIndex(dirs, r) ==> Count(dirs, d) < Count(dirs, r)))
  {
    if data.None? {
      return "-";
    }
    var estaciones := data.value.datos;
    if sel != ALL_STATIONS {
      estaciones := FilterFrom(estaciones, sel, 0);
    }
    var directions := Directions(estaciones);
    if |directions| == 0 {
      return "-";
    }
    var freq, keys := CountFrequencies(directions);
    var best := HeadOfSortedEntries(freq, keys);
    r := keys[best];
    MostFrequentIsFirstMaximal(directions, freq, keys, best);
  }

  /** The first maximal key of the record is, among the most frequent
      directions, the one that occurs first. */
  lemma MostFrequentIsFirstMaximal(dirs: seq<string>, freq: map<string, nat>, keys: seq<string>, best: nat)
    requires keys == Distinct(dirs) && best < |keys|
    requires forall d :: d in freq <==> d in dirs
    requires forall d :: d in freq ==> freq[d] == Count(dirs, d)
    requires forall t :: 0 <= t < |keys| ==> freq[keys[t]] <= freq[keys[best]]
    requires forall t :: 0 <= t < best ==> freq[keys[t]] < freq[keys[best]]
    ensures keys[best] in dirs
    ensures forall d :: d in dirs ==> Count(dirs, d) <= Count(dirs, keys[best])
    ensures forall d :: d in dirs && FirstIndex(dirs, d) < FirstIndex(dirs, keys[best]) ==> Count(dirs, d) < Count(dirs, keys[best])
  {
    assert keys[best] in keys;
    MaximalKeyCount(dirs, freq, keys, best);
    EarlierKeysFewer(dirs, freq, keys, best);
  }

  /** A key whose entry bounds every entry has the largest count. */
  lemma MaximalKeyCount(dirs: seq<string>, freq: map<string, nat>, keys: seq<string>, best: nat)
    requires keys == Distinct(dirs) && best < |keys|
    requires forall d :: d in freq <==> d in dirs
    requires forall d :: d in freq ==> freq[d] == Count(dirs, d)
    requires forall t :: 0 <= t < |keys| ==> freq[keys[t]] <= freq[keys[best]]
    ensures forall d :: d in dirs ==> Count(dirs, d) <= Count(dirs, keys[best])
  {
    var r := keys[best];
    assert r in keys;
    forall d | d in dirs
      ensures Count(dirs, d) <= Count(dirs, r)
    {
      assert d in keys;
      var t :| 0 <= t < |keys| && keys[t] == d;
      assert freq[keys[t]] <= freq[r];
    }
  }

  /** A key with a strictly larger entry than every earlier key has more
      occurrences than every direction first seen before it. */
  lemma EarlierKeysFewer(dirs: seq<string>, freq: map<string, nat>, keys: seq<string>, best: nat)
    requires keys == Distinct(dirs) && best < |keys|
    requires forall d :: d in freq <==> d in dirs
    requires forall d :: d in freq ==> freq[d] == Count(dirs, d)
    requires forall t :: 0 <= t < best ==> freq[keys[t]] < freq[keys[best]]
    requires keys[best] in dirs
    ensures forall d :: d in dirs && FirstIndex(dirs, d) < FirstIndex(dirs, keys[best]) ==> Count(dirs, d) < Count(dirs, keys[best])
  {
    var r := keys[best];
    forall d | d in dirs && FirstIndex(dirs, d) < FirstIndex(dirs, r)
      ensures Count(dirs, d) < Count(dirs, r)
    {
      assert d in keys;
      var t :| 0 <= t < |keys| && keys[t] == d;
      if best < t {
        DistinctOrder(dirs, best, t);
      }
      assert t != best;
      assert freq[keys[t]] < freq[r];
    }
  }

  // ---------------------------------------------------------------------
  // getExtremosMensualesAnuales, getEvolucionTemporal
  // ---------------------------------------------------------------------

  /** `block && block[key] ? parseFloat(block[key]...) : null`: None is null,
      Some(None) is NaN. */
  function NumberAt(b: Option<Block>, key: string, parse: string -> Option<real>): (x: Option<Option<real>>)
    ensures x.Some? <==> b.Some? && Truthy(b.value, key)
    ensures x.Some? ==> x.value == parse(b.value[key].value)
  {
    if b.Some? && Truthy(b.value, key) then Some(parse(b.value[key].value)) else None
  }

  /** `block && block[key] ? block[key] : null`. */
  function TextAt(b: Option<Block>, key: string): (t: Option<string>)
    ensures t.Some? <==> b.Some? && Truthy(b.value, key)
    ensures t.Some? ==> t.value != "" && b.value[key] == Some(t.value)
  {
    if b.Some? && Truthy(b.value, key) then Some(b.value[key].value) else None
  }

  /** `block[key]` as stored: undefined and null are both None. */
  function RawAt(b: Block, key: string): (t: Option<string>)
    ensures key in b ==> t == b[key]
    ensures key !in b ==> t == None
  {
    if key in b then b[key] else None
  }

  datatype ExtremosRow = ExtremosRow(
    name: string,
    maxMensual: Option<Option<real>>, maxMensualDia: Option<string>,
    minMensual: Option<Option<real>>, minMensualDia: Option<string>,
    maxAnual: Option<Option<real>>, maxAnualDia: Option<string>,
    minAnual: Option<Option<real>>, minAnualDia: Option<string>)

  /** The row of one station in the monthly/yearly extremes chart. */
  function ExtremosRowOf(st: Station, variable: string, parse: string -> Option<real>): ExtremosRow
  {
    ExtremosRow(
      st.estacion,
      NumberAt(st.mensuales, variable + "maxima", parse), TextAt(st.mensuales, variable + "maximadia"),
      NumberAt(st.mensuales, variable + "minima", parse), TextAt(st.mensuales, variable + "minimadia"),
      NumberAt(st.anuales, variable + "maxima", parse), TextAt(st.anuales, variable + "maximadia"),
      NumberAt(st.anuales, variable + "minima", parse), TextAt(st.anuales, variable + "minimadia"))
  }

  /** `getExtremosMensualesAnuales(variable)`: one row per station, in
      snapshot order, over every station whatever the selector. */
  function GetExtremosMensualesAnuales(data: Option<Snapshot>, variable: string, parse: string -> Option<real>): (rows: seq<ExtremosRow>)
    ensures data.None? ==> rows == []
    ensures data.Some? ==> |rows| == |data.value.datos|
    ensures data.Some? ==> forall i :: 0 <= i < |rows| ==> rows[i].name == data.value.datos[i].estacion
  {
    if data.None? then []
    else seq(|data.value.datos|, i requires 0 <= i < |data.value.datos| => ExtremosRowOf(data.value.datos[i], variable, parse))
  }

  /** A field of the extremes table is null exactly when its period block is
      absent or its `${variable}maxima/minima(dia)` entry is missing, null or
      empty; otherwise a number field is the parse of that entry and a day
      field is the entry itself. A station without a monthly block has all
      monthly fields null. */
  lemma ExtremosNullFields(data: Snapshot, variable: string, parse: string -> Option<real>, i: nat)
    requires i < |data.datos|
    ensures var row := GetExtremosMensualesAnuales(Some(data), variable, parse)[i];
      var st := data.datos[i];
      && (row.maxMensual == None <==> st.mensuales == None || !Truthy(st.mensuales.value, variable + "maxima"))
      && (row.minMensual == None <==> st.mensuales == None || !Truthy(st.mensuales.value, variable + "minima"))
      && (row.maxMensualDia == None <==> st.mensuales == None || !Truthy(st.mensuales.value, variable + "maximadia"))
      && (row.minMensualDia == None <==> st.mensuales == None || !Truthy(st.mensuales.value, variable + "minimadia"))
      && (row.maxAnual == None <==> st.anuales == None || !Truthy(st.anuales.value, variable + "maxima"))
      && (row.minAnual == None <==> st.anuales == None || !Truthy(st.anuales.value, variable + "minima"))
      && (row.maxAnualDia == None <==> st.anuales == None || !Truthy(st.anuales.value, variable + "maximadia"))
      && (row.minAnualDia == None <==> st.anuales == None || !Truthy(st.anuales.value, variable + "minimadia"))
      && (row.maxMensual.Some? ==> row.maxMensual.value == parse(st.mensuales.value[variable + "maxima"].value))
      && (row.minMensual.Some? ==> row.minMensual.value == parse(st.mensuales.value[variable + "minima"].value))
      && (row.maxMensualDia.Some? ==> st.mensuales.value[variable + "maximadia"] == row.maxMensualDia)
      && (row.minMensualDia.Some? ==> st.mensuales.value[variable + "minimadia"] == row.minMensualDia)
      && (row.maxAnual.Some? ==> row.maxAnual.value == parse(st.anuales.value[variable + "maxima"].value))
      && (row.minAnual.Some? ==> row.minAnual.value == parse(st.anuales.value[variable + "minima"].value))
      && (row.maxAnualDia.Some? ==> st.anuales.value[variable + "maximadia"] == row.maxAnualDia)
      && (row.minAnualDia.Some? ==> st.anuales.value[variable + "minimadia"] == row.minAnualDia)
      && (st.mensuales == None ==> row.maxMensual == row.minMensual == None && row.maxMensualDia == row.minMensualDia == None)
      && (st.anuales == None ==> row.maxAnual == row.minAnual == None && row.maxAnualDia == row.minAnualDia == None)
  {
  }

  datatype EvolucionPoint = EvolucionPoint(caption: string, value: Option<Option<real>>, hora: Option<string>)

  /** Minimum then maximum of the daily block of one station. */
  function DailyPair(diarios: Block, variable: string, parse: string -> Option<real>): seq<EvolucionPoint>
  {
    [ EvolucionPoint("Mínima diaria", NumberAt(Some(diarios), variable + "minima", parse), RawAt(diarios, variable + "minimahora")),
      EvolucionPoint("Máxima diaria", NumberAt(Some(diarios), variable + "maxima", parse), RawAt(diarios, variable + "maximahora")) ]
  }

  /** `getEvolucionTemporal(variable)`: the daily minimum and maximum of the
      first station in scope, each the parse of its `minima`/`maxima` entry
      when that entry is truthy; empty when there is no such station or it
      has no daily block. */
  function GetEvolucionTemporal(data: Option<Snapshot>, sel: string, variable: string, parse: string -> Option<real>): (pts: seq<EvolucionPoint>)
    ensures pts == [] <==>
      data.None? || Scope(data.value.datos, sel) == [] || Scope(data.value.datos, sel)[0].diarios.None?
    ensures pts != [] ==>
      var diarios := Scope(data.value.datos, sel)[0].diarios.value;
      && |pts| == 2
      && pts[0].caption == "Mínima diaria" && pts[1].caption == "Máxima diaria"
      && (pts[0].value.Some? <==> Truthy(diarios, variable + "minima"))
      && (pts[1].value.Some? <==> Truthy(diarios, variable + "maxima"))
      && (pts[0].value.Some? ==> pts[0].value.value == parse(diarios[variable + "minima"].value))
      && (pts[1].value.Some? ==> pts[1].value.value == parse(diarios[variable + "maxima"].value))
      && pts[0].hora == RawAt(diarios, variable + "minimahora")
      && pts[1].hora == RawAt(diarios, variable + "maximahora")
  {
    if data.None? then []
    else
      var estaciones := Scope(data.value.datos, sel);
      if estaciones == [] || estaciones[0].diarios.None? then []
      else DailyPair(estaciones[0].diarios.value, variable, parse)
  }

  /** `getEvolucionPresionDiaria()`: the same pair for pressure, but only for
      a single station. */
  function GetEvolucionPresionDiaria(data: Option<Snapshot>, sel: string, parse: string -> Option<real>): (pts: seq<EvolucionPoint>)
    ensures sel == ALL_STATIONS ==> pts == []
  {
    if data.None? || sel == ALL_STATIONS then []
    else
      var estaciones := FilterFrom(data.value.datos, sel, 0);
      if estaciones == [] || estaciones[0].diarios.None? then []
      else
        var d := estaciones[0].diarios.value;
        [ EvolucionPoint("Mínima diaria", NumberAt(Some(d), "presionminima", parse), RawAt(d, "presionminimahora")),
          EvolucionPoint("Máxima diaria", NumberAt(Some(d), "presionmaxima", parse), RawAt(d, "presionmaximahora")) ]
  }

  /** Outside the global view the pressure evolution is the general daily
      evolution for the variable "presion". */
  lemma PresionDiariaIsEvolucionTemporal(data: Option<Snapshot>, sel: string, parse: string -> Option<real>)
    requires sel != ALL_STATIONS
    ensures GetEvolucionPresionDiaria(data, sel, parse) == GetEvolucionTemporal(data, sel, "presion", parse)
  {
    assert "presion" + "minima" == "presionminima";
    assert "presion" + "maxima" == "presionmaxima";
    assert "presion" + "minimahora" == "presionminimahora";
    assert "presion" + "maximahora" == "presionmaximahora";
  }

  // ---------------------------------------------------------------------
  // getWindRoseData
  // ---------------------------------------------------------------------

  /** The eight compass points of the wind rose, in the order drawn. */
  const COMPASS: seq<string> := ["N", "NE", "E", "SE", "S", "SO", "O", "NO"]

  datatype RosePoint = RosePoint(direction: string, value: int)

  /** `getWindRoseData()`: empty in the global view or when the first station
      in scope has no direction; otherwise the current direction with value 1
      followed by the eight compass points, each 1 exactly when it is that
      direction. */
  function GetWindRoseData(data: Option<Snapshot>, sel: string): (pts: seq<RosePoint>)
    ensures pts == [] <==>
      data.None? || sel == ALL_STATIONS || FilterFrom(data.value.datos, sel, 0) == [] ||
      !Truthy(FilterFrom(data.value.datos, sel, 0)[0].actuales, "direccionviento")
    ensures pts != [] ==>
      var dir := FilterFrom(data.value.datos, sel, 0)[0].actuales["direccionviento"].value;
      && |pts| == 9
      && pts[0] == RosePoint(dir, 1)
      && forall k :: 0 <= k < 8 ==> pts[k + 1] == RosePoint(COMPASS[k], if COMPASS[k] == dir then 1 else 0)
  {
    if data.None? || sel == ALL_STATIONS then []
    else
      var estaciones := FilterFrom(data.value.datos, sel, 0);
      if estaciones == [] || !Truthy(estaciones[0].actuales, "direccionviento") then []
      else
        Rose(estaciones[0].actuales["direccionviento"].value)
  }

  /** The nine entries drawn for a station whose direction is `dir`. */
  function Rose(dir: string): seq<RosePoint>
  {
    [RosePoint(dir, 1)] + seq(8, k requires 0 <= k < 8 => RosePoint(COMPASS[k], if COMPASS[k] == dir then 1 else 0))
  }

  /** Sum of the values of a wind rose. */
  function Weight(pts: seq<RosePoint>): int
  {
    if pts == [] then 0 else Weight(pts[..|pts| - 1]) + pts[|pts| - 1].value
  }

  lemma {:induction false} WeightOfPrefix(pts: seq<RosePoint>, dir: string, n: nat)
    requires |pts| == 9 && n <= 8
    requires pts[0].value == 1
    requires forall k :: 0 <= k < 8 ==> pts[k + 1].value == if COMPASS[k] == dir then 1 else 0
    ensures Weight(pts[..n + 1]) == 1 + Count(COMPASS[..n], dir)
  {
    if n > 0 {
      WeightOfPrefix(pts, dir, n - 1);
      assert pts[..n + 1][..n] == pts[..n];
      assert COMPASS[..n] == COMPASS[..n - 1] + [COMPASS[n - 1]];
    }
  }

  lemma CompassNoDup()
    ensures NoDup(COMPASS)
  {
  }

  /** A non-empty wind rose weighs 2 when the direction is one of the eight
      compass points and 1 otherwise. */
  lemma RoseWeight(dir: string)
    ensures Weight(Rose(dir)) == if dir in COMPASS then 2 else 1
  {
    var pts := Rose(dir);
    WeightOfPrefix(pts, dir, 8);
    assert pts[..9] == pts && COMPASS[..8] == COMPASS;
    CompassNoDup();
    CountNoDup(COMPASS, dir);
  }
}
