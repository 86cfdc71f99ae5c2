/** The snapshot generator's dictionary logic: the freshness test of a
    station's timestamp, the extraction of one block of a station's XML
    document into a dict of every expected field, the in-place renaming of
    the monthly/yearly `...hora` keys to `...dia`, and the main loop that
    keeps the stations whose document is complete and fresh.

    The network fetch and the XML parser are an input (`FetchOutcome` per
    station); `strptime` followed by the Europe/Madrid localisation is the
    parameter `stampOf`, from the text `"<fecha> <hora>"` to an instant in
    integer microseconds, `None` where the text does not parse. */
module GenerarDatos {
  import opened Common
  import DataDashboard

  // ---------------------------------------------------------------------
  // Freshness
  // ---------------------------------------------------------------------

  /** Ten minutes, in microseconds (the resolution of Python's `datetime`). */
  const FRESH_WINDOW: int := 600_000_000

  /** Python's `f"{x}"` of an element text that may be `None`. */
  function PyStr(text: Option<string>): (s: string)
    ensures text.Some? ==> s == text.value
    ensures text.None? ==> s == "None"
  {
    match text
    case Some(t) => t
    case None => "None"
  }

  /** The text handed to `strptime`. */
  function StampText(fecha: Option<string>, hora: Option<string>): string
  {
    PyStr(fecha) + " " + PyStr(hora)
  }

  /** `es_dato_actualizado`: the document's instant is at most ten minutes
      before `now`; a text that does not parse is not fresh. */
  predicate EsDatoActualizado(fecha: Option<string>, hora: Option<string>, now: int, stampOf: string -> Option<int>)
  {
    match stampOf(StampText(fecha, hora))
    case None => false
    case Some(t) => now - t <= FRESH_WINDOW
  }

  /** Fresh exactly when the text parses to an instant no more than ten
      minutes in the past; instants in the future count as fresh. */
  lemma FreshnessRule(fecha: Option<string>, hora: Option<string>, now: int, stampOf: string -> Option<int>)
    ensures stampOf(StampText(fecha, hora)).None? ==> !EsDatoActualizado(fecha, hora, now, stampOf)
    ensures stampOf(StampText(fecha, hora)).Some? ==>
      var t := stampOf(StampText(fecha, hora)).value;
      (EsDatoActualizado(fecha, hora, now, stampOf) <==> t >= now - FRESH_WINDOW)
    ensures stampOf(StampText(fecha, hora)).Some? && stampOf(StampText(fecha, hora)).value >= now ==>
      EsDatoActualizado(fecha, hora, now, stampOf)
  {
  }

  /** A document fresh at some instant was fresh at every earlier one. */
  lemma FreshEarlier(fecha: Option<string>, hora: Option<string>, now: int, earlier: int, stampOf: string -> Option<int>)
    requires earlier <= now
    requires EsDatoActualizado(fecha, hora, now, stampOf)
    ensures EsDatoActualizado(fecha, hora, earlier, stampOf)
  {
  }

  /** `strptime` with `"%d/%m/%Y %H:%M"` matches only decimal digits, the
      literal `/` and `:`, and whitespace for the space: no text it accepts
      holds the letter `N`. */
  ghost predicate DateTextParser(stampOf: string -> Option<int>)
  {
    forall s :: stampOf(s).Some? ==> 'N' !in s
  }

  /** A missing element text is rendered as `None`, which never parses as a
      date: such a document is not fresh. */
  lemma MissingTextIsStale(fecha: Option<string>, hora: Option<string>, now: int, stampOf: string -> Option<int>)
    requires DateTextParser(stampOf)
    requires fecha.None? || hora.None?
    ensures !EsDatoActualizado(fecha, hora, now, stampOf)
  {
    var s := StampText(fecha, hora);
    if fecha.None? {
      assert s[0] == 'N' && 'N' in s;
    } else {
      var k := |PyStr(fecha)| + 1;
      assert s[k] == 'N' && 'N' in s;
    }
  }

  // ---------------------------------------------------------------------
  // XML elements and namespaces
  // ---------------------------------------------------------------------

  /** A parsed XML element: its tag (`{uri}local` when namespaced), its text
      (`None` when it has none) and its children in document order. */
  datatype Element = Element(tag: string, text: Option<string>, children: seq<Element>)

  /** The namespace every station document uses. */
  const NAMESPACE_URI := "https://www.w3schools.com"

  /** The tag that `ns:<name>` stands for under the namespace map. */
  function Qualified(name: string): (t: string)
    ensures |t| == |NAMESPACE_URI| + 2 + |name|
    ensures t[0] == '{' && t[|NAMESPACE_URI| + 1] == '}' && t[|NAMESPACE_URI| + 2..] == name
  {
    "{" + NAMESPACE_URI + "}" + name
  }

  /** `root.find(tag)`: the first direct child with that tag. */
  function Find(children: seq<Element>, tag: string): (r: Option<Element>)
    ensures r.Some? ==> r.value in children && r.value.tag == tag
    ensures r.Some? <==> exists c :: c in children && c.tag == tag
  {
    if children == [] then None
    else if children[0].tag == tag then Some(children[0])
    else
      var r := Find(children[1..], tag);
      assert forall c :: c in children && c.tag == tag ==> c in children[1..] by {
        forall c | c in children && c.tag == tag ensures c in children[1..] {
          var i :| 0 <= i < |children| && children[i] == c;
          assert i != 0;
          assert children[1..][i - 1] == c;
        }
      }
      r
  }

  /** A child listed before any other with its tag is the one found. */
  lemma {:induction false} ElementFound(children: seq<Element>, k: nat)
    requires k < |children|
    requires forall j :: 0 <= j < k ==> children[j].tag != children[k].tag
    ensures Find(children, children[k].tag) == Some(children[k])
  {
    if k > 0 {
      assert children[1..][k - 1] == children[k];
      ElementFound(children[1..], k - 1);
    }
  }

  /** Index of the first `ch` in `s`, or `|s|` when there is none. */
  function IndexOf(s: string, ch: char): (i: nat)
    ensures i <= |s|
    ensures ch !in s[..i]
    ensures i < |s| ==> s[i] == ch
  {
    if s == [] then 0
    else if s[0] == ch then 0
    else
      var k := IndexOf(s[1..], ch);
      assert s[..k + 1] == [s[0]] + s[1..][..k];
      k + 1
  }

  /** `tag.split('}', 1)[-1]`: the text after the first `'}'`, or the whole
      tag when it has none. */
  function StripNamespace(tag: string): (local: string)
    ensures '}' !in tag ==> local == tag
    ensures '}' in tag ==> exists i :: 0 <= i < |tag| && tag[i] == '}' && '}' !in tag[..i] && local == tag[i + 1..]
  {
    var i := IndexOf(tag, '}');
    if i == |tag| then
      assert tag[..i] == tag;
      tag
    else tag[i + 1..]
  }

  /** Stripping undoes the qualification of a name by any brace-free URI. */
  lemma StripQualified(uri: string, local: string)
    requires '}' !in uri
    ensures StripNamespace("{" + uri + "}" + local) == local
  {
    var tag := "{" + uri + "}" + local;
    var i := IndexOf(tag, '}');
    var k := |uri| + 1;
    assert tag[k] == '}';
    // no brace before position k, and none before the first one found
    forall j | 0 <= j < k ensures tag[j] != '}' {
      if j > 0 { assert tag[j] == uri[j - 1]; }
    }
    forall j | 0 <= j < i ensures tag[j] != '}' {
      assert tag[..i][j] == tag[j];
    }
    assert i == k;
    assert tag[k + 1..] == local;
  }

  /** The station documents' own tags lose exactly their namespace. */
  lemma StripQualifiedName(name: string)
    ensures StripNamespace(Qualified(name)) == name
  {
    assert '}' !in NAMESPACE_URI;
    StripQualified(NAMESPACE_URI, name);
  }

  // ---------------------------------------------------------------------
  // extraer_bloque_completo
  // ---------------------------------------------------------------------

  /** `{campo: None for campo in campos_esperados}`. */
  function Defaults(campos: seq<string>): (d: Block)
    ensures d.Keys == set c | c in campos
    ensures forall c :: c in d ==> d[c] == None
  {
    map c | c in campos :: None
  }

  /** Writing each child's text under its stripped tag, in document order. */
  function Overlay(base: Block, children: seq<Element>): Block
  {
    if children == [] then base
    else
      var last := children[|children| - 1];
      Overlay(base, children[..|children| - 1])[StripNamespace(last.tag) := last.text]
  }

  /** The text of the last child whose stripped tag is `key`. */
  function LastText(children: seq<Element>, key: string): Option<Option<string>>
  {
    if children == [] then None
    else
      var last := children[|children| - 1];
      if StripNamespace(last.tag) == key then Some(last.text)
      else LastText(children[..|children| - 1], key)
  }

  /** The dict `extraer_bloque_completo` returns for block `bloque`. */
  function BloqueCompleto(root: Element, bloque: string, campos: seq<string>): Block
  {
    match Find(root.children, Qualified(bloque))
    case None => Defaults(campos)
    case Some(elem) => Overlay(Defaults(campos), elem.children)
  }

  /** After the overlay a key holds the text of the last child with that
      stripped tag, and otherwise whatever the base held. */
  lemma {:induction false} OverlayAt(base: Block, children: seq<Element>, key: string)
    ensures LastText(children, key).Some? ==>
      key in Overlay(base, children) && Overlay(base, children)[key] == LastText(children, key).value
    ensures LastText(children, key).None? ==>
      (key in Overlay(base, children) <==> key in base) &&
      (key in base ==> Overlay(base, children)[key] == base[key])
  {
    if children != [] {
      OverlayAt(base, children[..|children| - 1], key);
    }
  }

  /** Some child has stripped tag `key` exactly when `LastText` finds one. */
  lemma {:induction false} LastTextSome(children: seq<Element>, key: string)
    ensures LastText(children, key).Some? <==> exists c :: c in children && StripNamespace(c.tag) == key
  {
    if children != [] {
      var init, last := children[..|children| - 1], children[|children| - 1];
      assert children == init + [last];
      LastTextSome(init, key);
    }
  }

  /** Without the block element, the result maps every expected field, and
      nothing else, to `None`. */
  lemma BloqueAbsent(root: Element, bloque: string, campos: seq<string>)
    requires Find(root.children, Qualified(bloque)).None?
    ensures BloqueCompleto(root, bloque, campos).Keys == set c | c in campos
    ensures forall c :: c in campos ==> BloqueCompleto(root, bloque, campos)[c] == None
  {
  }

  /** With the block element, the keys are the expected fields plus every
      child's stripped tag; a key takes the text of the last child carrying
      it, and an expected field that no child carries stays `None`. */
  lemma BloquePresent(root: Element, bloque: string, campos: seq<string>, elem: Element, key: string)
    requires Find(root.children, Qualified(bloque)) == Some(elem)
    ensures var r := BloqueCompleto(root, bloque, campos);
      && (key in r <==> key in campos || exists c :: c in elem.children && StripNamespace(c.tag) == key)
      && (LastText(elem.children, key).Some? ==> key in r && r[key] == LastText(elem.children, key).value)
      && (key in campos && LastText(elem.children, key).None? ==> key in r && r[key] == None)
  {
    assert BloqueCompleto(root, bloque, campos) == Overlay(Defaults(campos), elem.children);
    OverlayAt(Defaults(campos), elem.children, key);
    LastTextSome(elem.children, key);
  }

  /** `extraer_bloque_completo(root, bloque, campos_esperados, NAMESPACE)`. */
  method ExtraerBloqueCompleto(root: Element, bloque: string, campos: seq<string>) returns (datos: Block)
    ensures datos == BloqueCompleto(root, bloque, campos)
  {
    var bloqueElem := Find(root.children, Qualified(bloque));
    datos := Defaults(campos);
    if bloqueElem.Some? {
      var children := bloqueElem.value.children;
      for i := 0 to |children|
        invariant datos == Overlay(Defaults(campos), children[..i])
      {
        assert children[..i + 1][..i] == children[..i];
        var tag := StripNamespace(children[i].tag);
        assert Overlay(Defaults(campos), children[..i + 1]) ==
          Overlay(Defaults(campos), children[..i])[tag := children[i].text];
        // a known field is overwritten and an extra one added: the same update
        datos := datos[tag := children[i].text];
      }
      assert children[..|children|] == children;
    }
  }

  // ---------------------------------------------------------------------
  // corregir_hora_a_dia
  // ---------------------------------------------------------------------

  /** The conversion table, in its insertion order. */
  const CONVERSION: seq<(string, string)> := [
    ("temperaturamaximahora", "temperaturamaximadia"),
    ("temperaturaminimahora", "temperaturaminimadia"),
    ("humedadmaximahora", "humedadmaximadia"),
    ("humedadminimahora", "humedadminimadia"),
    ("rachavientohora", "rachavientodia"),
    ("intensidadlluviahora", "intensidadlluviadia")
  ]

  /** The source keys of a table. */
  function HoraKeys(pairs: seq<(string, string)>): (ks: set<string>)
    ensures forall h :: h in ks <==> exists j :: 0 <= j < |pairs| && pairs[j].0 == h
  {
    set j | 0 <= j < |pairs| :: pairs[j].0
  }

  /** The source key renamed to `key`, if `key` is a target of the table. */
  function DiaSource(pairs: seq<(string, string)>, key: string): (h: Option<string>)
    ensures h.Some? ==> exists j :: 0 <= j < |pairs| && pairs[j] == (h.value, key)
  {
    if pairs == [] then None
    else if pairs[|pairs| - 1].1 == key then Some(pairs[|pairs| - 1].0)
    else
      var r := DiaSource(pairs[..|pairs| - 1], key);
      if r.Some? then
        var j :| 0 <= j < |pairs| - 1 && pairs[..|pairs| - 1][j] == (r.value, key);
        assert pairs[j] == (r.value, key);
        r
      else r
  }

  /** A renaming table: distinct sources, distinct targets, and no key both a
      source and a target. */
  predicate WellFormed(pairs: seq<(string, string)>)
  {
    && (forall i, j :: 0 <= i < j < |pairs| ==> pairs[i].0 != pairs[j].0 && pairs[i].1 != pairs[j].1)
    && (forall i, j :: 0 <= i < |pairs| && 0 <= j < |pairs| ==> pairs[i].0 != pairs[j].1)
  }

  lemma ConversionWellFormed()
    ensures WellFormed(CONVERSION)
  {
    // every source ends in `hora` and no target does, and keys of one kind
    // differ in length or in their eighth character from the end
    forall i | 0 <= i < |CONVERSION|
      ensures HoraMark(CONVERSION[i].0) && !HoraMark(CONVERSION[i].1)
      ensures |CONVERSION[i].0| >= 8 && |CONVERSION[i].1| >= 8
    {
    }
    forall i, j | 0 <= i < j < |CONVERSION|
      ensures Mark(CONVERSION[i].0) != Mark(CONVERSION[j].0) && Mark(CONVERSION[i].1) != Mark(CONVERSION[j].1)
    {
    }
  }

  predicate HoraMark(k: string)
  {
    |k| >= 4 && k[|k| - 4] == 'h'
  }

  function Mark(k: string): (int, char)
    requires |k| >= 8
  {
    (|k|, k[|k| - 8])
  }

  /** `key`'s entry in a dict: `None` when absent. */
  function Get(b: Block, key: string): (r: Option<Option<string>>)
    ensures r.Some? <==> key in b
    ensures r.Some? ==> r.value == b[key]
  {
    if key in b then Some(b[key]) else None
  }

  /** One iteration: copy a non-empty `...hora` value to its `...dia` key,
      then delete the `...hora` key. */
  function ConvertPair(b: Block, hora: string, dia: string): Block
  {
    var copied := if Truthy(b, hora) then b[dia := b[hora]] else b;
    copied - {hora}
  }

  /** The dict after the loop has handled `pairs` in order. */
  function ConvertPairs(b: Block, pairs: seq<(string, string)>): Block
  {
    if pairs == [] then b
    else
      var last := pairs[|pairs| - 1];
      ConvertPair(ConvertPairs(b, pairs[..|pairs| - 1]), last.0, last.1)
  }

  /** The dict after `corregir_hora_a_dia`. */
  function HoraADia(b: Block): Block
  {
    ConvertPairs(b, CONVERSION)
  }

  /** Reference meaning of the renaming, key by key: a source key is gone; a
      target key holds its source's value when that value is non-empty and
      not `None`, and keeps its own entry otherwise; every other key is as it
      was. */
  function Renamed(b: Block, pairs: seq<(string, string)>, key: string): Option<Option<string>>
  {
    if key in HoraKeys(pairs) then None
    else match DiaSource(pairs, key)
      case Some(hora) => if Truthy(b, hora) then Some(b[hora]) else Get(b, key)
      case None => Get(b, key)
  }

  /** The last pair of a well-formed table shares no key with the others. */
  lemma LastPairApart(pairs: seq<(string, string)>)
    requires WellFormed(pairs) && pairs != []
    ensures var init, last := pairs[..|pairs| - 1], pairs[|pairs| - 1];
      forall j :: 0 <= j < |init| ==>
        init[j].0 != last.0 && init[j].1 != last.0 && init[j].0 != last.1 && init[j].1 != last.1
  {
    var init, last := pairs[..|pairs| - 1], pairs[|pairs| - 1];
    forall j | 0 <= j < |init|
      ensures init[j].0 != last.0 && init[j].1 != last.0 && init[j].0 != last.1 && init[j].1 != last.1
    {
      assert init[j] == pairs[j];
    }
  }

  /** The loop computes the reference renaming on every key. */
  lemma {:induction false} ConvertPairsAt(b: Block, pairs: seq<(string, string)>, key: string)
    requires WellFormed(pairs)
    ensures Get(ConvertPairs(b, pairs), key) == Renamed(b, pairs, key)
  {
    if pairs != [] {
      var init, last := pairs[..|pairs| - 1], pairs[|pairs| - 1];
      var (hora, dia) := last;
      assert WellFormed(init);
      LastPairApart(pairs);
      var m := ConvertPairs(b, init);
      assert ConvertPairs(b, pairs) == ConvertPair(m, hora, dia);
      assert hora !in HoraKeys(init) && DiaSource(init, hora).None?;
      assert dia !in HoraKeys(pairs) && DiaSource(init, dia).None?;
      // the source key of the last pair still holds its original entry
      ConvertPairsAt(b, init, hora);
      assert Get(m, hora) == Get(b, hora);
      ConvertPairsAt(b, init, key);
      if key == hora {
      } else if key == dia {
        assert DiaSource(pairs, key) == Some(hora);
      } else {
        assert key in HoraKeys(pairs) <==> key in HoraKeys(init);
        assert DiaSource(pairs, key) == DiaSource(init, key);
      }
    }
  }

  /** After `corregir_hora_a_dia` no `...hora` key of the table is left. */
  lemma NoHoraKeyRemains(b: Block, j: nat)
    requires j < |CONVERSION|
    ensures CONVERSION[j].0 !in HoraADia(b)
  {
    ConversionWellFormed();
    ConvertPairsAt(b, CONVERSION, CONVERSION[j].0);
  }

  /** Each `...dia` key takes its `...hora` value when that value is
      non-empty and not `None`, and otherwise keeps its prior entry. */
  lemma DiaKeyRule(b: Block, j: nat)
    requires j < |CONVERSION|
    ensures var (hora, dia) := CONVERSION[j];
      if Truthy(b, hora) then dia in HoraADia(b) && HoraADia(b)[dia] == b[hora]
      else Get(HoraADia(b), dia) == Get(b, dia)
  {
    ConversionWellFormed();
    var (hora, dia) := CONVERSION[j];
    ConvertPairsAt(b, CONVERSION, dia);
    assert dia !in HoraKeys(CONVERSION);
    DiaSourceOf(CONVERSION, j);
  }

  /** In a well-formed table a target's source is the one it is paired with. */
  lemma DiaSourceOf(pairs: seq<(string, string)>, j: nat)
    requires WellFormed(pairs) && j < |pairs|
    ensures DiaSource(pairs, pairs[j].1) == Some(pairs[j].0)
  {
    var h := DiaSource(pairs, pairs[j].1);
    if h.None? {
      DiaSourceNone(pairs, j);
    } else {
      var k :| 0 <= k < |pairs| && pairs[k] == (h.value, pairs[j].1);
      assert k == j;
    }
  }

  /** A target of the table always has a source. */
  lemma {:induction false} DiaSourceNone(pairs: seq<(string, string)>, j: nat)
    requires j < |pairs|
    ensures DiaSource(pairs, pairs[j].1).Some?
  {
    if pairs[|pairs| - 1].1 != pairs[j].1 {
      assert j < |pairs| - 1;
      var init := pairs[..|pairs| - 1];
      assert init[j] == pairs[j];
      DiaSourceNone(init, j);
    }
  }

  /** Keys outside the table are not touched. */
  lemma OtherKeysUnchanged(b: Block, key: string)
    requires forall j :: 0 <= j < |CONVERSION| ==> CONVERSION[j].0 != key && CONVERSION[j].1 != key
    ensures Get(HoraADia(b), key) == Get(b, key)
  {
    ConversionWellFormed();
    ConvertPairsAt(b, CONVERSION, key);
  }

  /** `corregir_hora_a_dia` is idempotent. */
  lemma HoraADiaIdempotent(b: Block)
    ensures HoraADia(HoraADia(b)) == HoraADia(b)
  {
    var once := HoraADia(b);
    ConversionWellFormed();
    forall j | 0 <= j < |CONVERSION| ensures CONVERSION[j].0 !in once {
      NoHoraKeyRemains(b, j);
    }
    ConvertPairsWithoutSources(once, CONVERSION);
  }

  /** A dict holding none of the table's sources is left as it is. */
  lemma {:induction false} ConvertPairsWithoutSources(b: Block, pairs: seq<(string, string)>)
    requires forall j :: 0 <= j < |pairs| ==> pairs[j].0 !in b
    ensures ConvertPairs(b, pairs) == b
  {
    if pairs != [] {
      var init, last := pairs[..|pairs| - 1], pairs[|pairs| - 1];
      assert forall j :: 0 <= j < |init| ==> init[j] == pairs[j];
      ConvertPairsWithoutSources(b, init);
      assert last.0 !in b;
      assert b - {last.0} == b;
    }
  }

  /** A dict of the generator, updated in place. */
  class Dict {
    var items: Block

    constructor (items: Block)
      ensures this.items == items
    {
      this.items := items;
    }

    /** `corregir_hora_a_dia(bloque)`. */
    method CorregirHoraADia()
      modifies this
      ensures items == HoraADia(old(items))
    {
      for i := 0 to |CONVERSION|
        invariant items == ConvertPairs(old(items), CONVERSION[..i])
      {
        assert CONVERSION[..i + 1][..i] == CONVERSION[..i];
        var (kHora, kDia) := CONVERSION[i];
        if Truthy(items, kHora) {
          items := items[kDia := items[kHora]];
        }
        if kHora in items {
          items := items - {kHora};
        }
      }
      assert CONVERSION[..|CONVERSION|] == CONVERSION;
    }
  }

  // ---------------------------------------------------------------------
  // The main loop
  // ---------------------------------------------------------------------

  const CAMPOS_ACTUALES: seq<string> := [
    "temperatura", "humedad", "presion", "velocidadviento", "rachaviento",
    "direccionviento", "direccionviento_grados", "lluvia", "intensidadlluvia",
    "lluviaultimahora", "puntoderocio"
  ]

  const CAMPOS_DIARIOS: seq<string> := [
    "temperaturamaxima", "temperaturamaximahora", "temperaturaminima", "temperaturaminimahora",
    "humedadmaxima", "humedadmaximahora", "humedadminima", "humedadminimahora",
    "presionmaxima", "presionminima", "rachaviento", "rachavientohora", "lluvia",
    "intensidadlluvia", "intensidadlluviahora", "puntoderociomaximo", "puntoderociominimo"
  ]

  /** The expected monthly fields; the yearly list is the same. */
  const CAMPOS_MENSUALES: seq<string> := [
    "temperaturamaxima", "temperaturamaximadia", "temperaturaminima", "temperaturaminimadia",
    "humedadmaxima", "humedadmaximadia", "humedadminima", "humedadminimadia",
    "presionmaxima", "presionminima", "rachaviento", "rachavientodia", "lluvia",
    "intensidadlluvia", "intensidadlluviadia", "puntoderociomaximo", "puntoderociominimo"
  ]

  const CAMPOS_ANUALES: seq<string> := CAMPOS_MENSUALES

  const CAMPOS_ASTRONOMIA: seq<string> := [
    "salidasol", "puestasol", "salidaluna", "puestaluna", "faselunar", "porcentajeluna",
    "duraciondia", "edadlunar", "dia_noche", "lloviendo", "radiacionsolarmax"
  ]

  /** A station of the fixed list: name, coordinates and document URL. */
  datatype Source = Source(nombre: string, latitud: string, longitud: string, url: string)

  /** What fetching and parsing one station's document gave: a request error
      (`requests.RequestException`), an XML error (`ET.ParseError`), or the
      document's root element. */
  datatype FetchOutcome = RequestFailed | XmlMalformed | Fetched(root: Element)

  /** One appended station record; `fecha` and `hora` are the element texts. */
  datatype Record = Record(
    estacion: string,
    latitud: string,
    longitud: string,
    fecha: Option<string>,
    hora: Option<string>,
    actuales: Block,
    diarios: Block,
    mensuales: Block,
    anuales: Block,
    astronomia: Block)

  /** The written JSON document. */
  datatype Output = Output(metadata: DataDashboard.Metadata, datos: seq<Record>)

  const FUENTE := "Proyecto Mastral"

  /** The record a station contributes, if any: only a fetched document whose
      `fecha` and `hora` elements are both present and whose timestamp is
      fresh. */
  function Process(src: Source, outcome: FetchOutcome, now: int, stampOf: string -> Option<int>): Option<Record>
  {
    match outcome
    case RequestFailed => None
    case XmlMalformed => None
    case Fetched(root) => ProcessRoot(src, root, now, stampOf)
  }

  /** The record built from a fetched document, if it is complete and
      fresh. */
  function ProcessRoot(src: Source, root: Element, now: int, stampOf: string -> Option<int>): Option<Record>
  {
    var fecha := Find(root.children, Qualified("fecha"));
    var hora := Find(root.children, Qualified("hora"));
    if fecha.Some? && hora.Some? && EsDatoActualizado(fecha.value.text, hora.value.text, now, stampOf) then
      Some(Record(src.nombre, src.latitud, src.longitud, fecha.value.text, hora.value.text,
        BloqueCompleto(root, "actuales", CAMPOS_ACTUALES),
        BloqueCompleto(root, "diarios", CAMPOS_DIARIOS),
        HoraADia(BloqueCompleto(root, "mensuales", CAMPOS_MENSUALES)),
        HoraADia(BloqueCompleto(root, "anuales", CAMPOS_ANUALES)),
        BloqueCompleto(root, "astronomia", CAMPOS_ASTRONOMIA)))
    else None
  }

  /** The records of the stations, in list order. */
  function Accepted(sources: seq<Source>, outcomes: seq<FetchOutcome>, now: int, stampOf: string -> Option<int>): (rs: seq<Record>)
    requires |outcomes| == |sources|
    ensures |rs| <= |sources|
  {
    if sources == [] then []
    else
      var n := |sources| - 1;
      var init := Accepted(sources[..n], outcomes[..n], now, stampOf);
      match Process(sources[n], outcomes[n], now, stampOf)
      case Some(r) => init + [r]
      case None => init
  }

  /** A record's timestamp is fresh and its monthly and yearly blocks hold
      no `...hora` key of the table. */
  ghost predicate FreshRecord(r: Record, now: int, stampOf: string -> Option<int>)
  {
    && EsDatoActualizado(r.fecha, r.hora, now, stampOf)
    && forall j :: 0 <= j < |CONVERSION| ==> CONVERSION[j].0 !in r.mensuales && CONVERSION[j].0 !in r.anuales
  }

  /** A station contributes a record only from a fetched document, and that
      record is fresh and renamed. */
  lemma ProcessedRecord(src: Source, outcome: FetchOutcome, now: int, stampOf: string -> Option<int>)
    requires Process(src, outcome, now, stampOf).Some?
    ensures outcome.Fetched?
    ensures FreshRecord(Process(src, outcome, now, stampOf).value, now, stampOf)
  {
    var root := outcome.root;
    var r := Process(src, outcome, now, stampOf).value;
    assert r.mensuales == HoraADia(BloqueCompleto(root, "mensuales", CAMPOS_MENSUALES));
    assert r.anuales == HoraADia(BloqueCompleto(root, "anuales", CAMPOS_ANUALES));
    forall j | 0 <= j < |CONVERSION| ensures CONVERSION[j].0 !in r.mensuales && CONVERSION[j].0 !in r.anuales {
      NoHoraKeyRemains(BloqueCompleto(root, "mensuales", CAMPOS_MENSUALES), j);
      NoHoraKeyRemains(BloqueCompleto(root, "anuales", CAMPOS_ANUALES), j);
    }
  }

  /** Every record is the contribution of some station of the list. */
  lemma {:induction false} AcceptedFrom(sources: seq<Source>, outcomes: seq<FetchOutcome>, now: int, stampOf: string -> Option<int>)
    requires |outcomes| == |sources|
    ensures forall r :: r in Accepted(sources, outcomes, now, stampOf) ==>
      exists i :: 0 <= i < |sources| && Process(sources[i], outcomes[i], now, stampOf) == Some(r)
  {
    if sources != [] {
      var n := |sources| - 1;
      AcceptedFrom(sources[..n], outcomes[..n], now, stampOf);
      forall r | r in Accepted(sources, outcomes, now, stampOf)
        ensures exists i :: 0 <= i < |sources| && Process(sources[i], outcomes[i], now, stampOf) == Some(r)
      {
        if r in Accepted(sources[..n], outcomes[..n], now, stampOf) {
          var i :| 0 <= i < n && Process(sources[..n][i], outcomes[..n][i], now, stampOf) == Some(r);
          assert sources[..n][i] == sources[i] && outcomes[..n][i] == outcomes[i];
        } else {
          assert Process(sources[n], outcomes[n], now, stampOf) == Some(r);
        }
      }
    }
  }

  /** What each station of the list yields, in list order. */
  function Results(sources: seq<Source>, outcomes: seq<FetchOutcome>, now: int, stampOf: string -> Option<int>): (rs: seq<Option<Record>>)
    requires |outcomes| == |sources|
    ensures |rs| == |sources|
    ensures forall i :: 0 <= i < |sources| ==> rs[i] == Process(sources[i], outcomes[i], now, stampOf)
  {
    seq(|sources|, i requires 0 <= i < |sources| => Process(sources[i], outcomes[i], now, stampOf))
  }

  /** The loop's list is the present results of the stations, in order. */
  lemma {:induction false} AcceptedIsSomes(sources: seq<Source>, outcomes: seq<FetchOutcome>, now: int, stampOf: string -> Option<int>)
    requires |outcomes| == |sources|
    ensures Accepted(sources, outcomes, now, stampOf) == Common.Somes(Results(sources, outcomes, now, stampOf))
  {
    if sources != [] {
      var n := |sources| - 1;
      var rs := Results(sources, outcomes, now, stampOf);
      assert rs[..n] == Results(sources[..n], outcomes[..n], now, stampOf);
      AcceptedIsSomes(sources[..n], outcomes[..n], now, stampOf);
    }
  }

  /** No station is dropped: a station whose document yields a record
      contributes that record. */
  lemma {:induction false} AcceptedComplete(sources: seq<Source>, outcomes: seq<FetchOutcome>, now: int, stampOf: string -> Option<int>, i: nat)
    requires |outcomes| == |sources| && i < |sources|
    requires Process(sources[i], outcomes[i], now, stampOf).Some?
    ensures Process(sources[i], outcomes[i], now, stampOf).value in Accepted(sources, outcomes, now, stampOf)
  {
    AcceptedIsSomes(sources, outcomes, now, stampOf);
    Common.SomesComplete(Results(sources, outcomes, now, stampOf), i);
  }

  /** Records keep station order: those of two consecutive runs of stations
      are those of the first run followed by those of the second. */
  lemma {:induction false} AcceptedAppend(a: seq<Source>, oa: seq<FetchOutcome>, b: seq<Source>, ob: seq<FetchOutcome>,
                                          now: int, stampOf: string -> Option<int>)
    requires |oa| == |a| && |ob| == |b|
    ensures Accepted(a + b, oa + ob, now, stampOf) == Accepted(a, oa, now, stampOf) + Accepted(b, ob, now, stampOf)
  {
    var ra, rb := Results(a, oa, now, stampOf), Results(b, ob, now, stampOf);
    assert Results(a + b, oa + ob, now, stampOf) == ra + rb;
    AcceptedIsSomes(a + b, oa + ob, now, stampOf);
    AcceptedIsSomes(a, oa, now, stampOf);
    AcceptedIsSomes(b, ob, now, stampOf);
    Common.SomesAppend(ra, rb);
  }

  /** Every appended station was fetched, its timestamp is fresh, and its
      monthly and yearly blocks hold no `...hora` key of the table. */
  lemma AcceptedRecords(sources: seq<Source>, outcomes: seq<FetchOutcome>, now: int, stampOf: string -> Option<int>)
    requires |outcomes| == |sources|
    ensures forall r :: r in Accepted(sources, outcomes, now, stampOf) ==>
      FreshRecord(r, now, stampOf) &&
      exists i :: 0 <= i < |sources| && outcomes[i].Fetched? && Process(sources[i], outcomes[i], now, stampOf) == Some(r)
  {
    AcceptedFrom(sources, outcomes, now, stampOf);
    forall r | r in Accepted(sources, outcomes, now, stampOf)
      ensures FreshRecord(r, now, stampOf)
      ensures exists i :: 0 <= i < |sources| && outcomes[i].Fetched? && Process(sources[i], outcomes[i], now, stampOf) == Some(r)
    {
      var i :| 0 <= i < |sources| && Process(sources[i], outcomes[i], now, stampOf) == Some(r);
      ProcessedRecord(sources[i], outcomes[i], now, stampOf);
    }
  }

  /** Since the date format never matches the `N` of a rendered `None`,
      every record carries both its `fecha` and its `hora` text. */
  lemma AcceptedHaveTimestamps(sources: seq<Source>, outcomes: seq<FetchOutcome>, now: int, stampOf: string -> Option<int>)
    requires |outcomes| == |sources|
    requires DateTextParser(stampOf)
    ensures forall r :: r in Accepted(sources, outcomes, now, stampOf) ==> r.fecha.Some? && r.hora.Some?
  {
    AcceptedRecords(sources, outcomes, now, stampOf);
    forall r | r in Accepted(sources, outcomes, now, stampOf) ensures r.fecha.Some? && r.hora.Some? {
      assert FreshRecord(r, now, stampOf);
      if r.fecha.None? || r.hora.None? {
        MissingTextIsStale(r.fecha, r.hora, now, stampOf);
      }
    }
  }

  /** `corregir_hora_a_dia(bloque)` on the dict a block was extracted into:
      the dict is corrected in place and then read back. */
  method CorregirEnSitio(bloque: Block) returns (corregido: Block)
    ensures corregido == HoraADia(bloque)
  {
    var d := new Dict(bloque);
    d.CorregirHoraADia();
    corregido := d.items;
  }

  /** The record of one station, built as the loop body does. */
  method ProcessStation(src: Source, outcome: FetchOutcome, now: int, stampOf: string -> Option<int>)
    returns (rec: Option<Record>)
    ensures rec == Process(src, outcome, now, stampOf)
  {
    if !outcome.Fetched? {
      return None;
    }
    rec := ProcessDocument(src, outcome.root, now, stampOf);
  }

  /** The body of the loop once the document has been fetched and parsed. */
  method ProcessDocument(src: Source, root: Element, now: int, stampOf: string -> Option<int>)
    returns (rec: Option<Record>)
    ensures rec == ProcessRoot(src, root, now, stampOf)
  {
    var fecha := Find(root.children, Qualified("fecha"));
    var hora := Find(root.children, Qualified("hora"));
    var actuales := ExtraerBloqueCompleto(root, "actuales", CAMPOS_ACTUALES);
    var diarios := ExtraerBloqueCompleto(root, "diarios", CAMPOS_DIARIOS);
    var mensuales := ExtraerBloqueCompleto(root, "mensuales", CAMPOS_MENSUALES);
    var anuales := ExtraerBloqueCompleto(root, "anuales", CAMPOS_ANUALES);
    var astronomia := ExtraerBloqueCompleto(root, "astronomia", CAMPOS_ASTRONOMIA);
    mensuales := CorregirEnSitio(mensuales);
    anuales := CorregirEnSitio(anuales);
    match (fecha, hora)
    case (Some(f), Some(h)) =>
      if EsDatoActualizado(f.text, h.text, now, stampOf) {
        rec := Some(Record(src.nombre, src.latitud, src.longitud, f.text, h.text,
          actuales, diarios, mensuales, anuales, astronomia));
      } else {
        rec := None;
      }
    case _ =>
      rec := None;
  }

  /** The whole run: every station in list order, then the header whose
      station count is the number of records appended. */
  method GenerarDatos(sources: seq<Source>, outcomes: seq<FetchOutcome>, now: int, fechaGeneracion: string,
                      stampOf: string -> Option<int>)
    returns (out: Output)
    requires |outcomes| == |sources|
    ensures out.datos == Accepted(sources, outcomes, now, stampOf)
    ensures out.metadata == DataDashboard.Metadata(FUENTE, fechaGeneracion, |out.datos|)
    ensures |out.datos| <= |sources|
  {
    var datosEstaciones: seq<Record> := [];
    for i := 0 to |sources|
      invariant datosEstaciones == Accepted(sources[..i], outcomes[..i], now, stampOf)
    {
      assert sources[..i + 1][..i] == sources[..i] && outcomes[..i + 1][..i] == outcomes[..i];
      var rec := ProcessStation(sources[i], outcomes[i], now, stampOf);
      if rec.Some? {
        datosEstaciones := datosEstaciones + [rec.value];
      }
    }
    assert sources[..|sources|] == sources && outcomes[..|outcomes|] == outcomes;
    out := Output(DataDashboard.Metadata(FUENTE, fechaGeneracion, |datosEstaciones|), datosEstaciones);
  }

  /** The fixed station list. */
  const ESTACIONES: seq<Source> := [
    Source("Acequion - Torrevieja", "37.979987", "-0.688619", "http://www.datos.eltiempoentorrevieja.es/Acequion/acequion"),
    Source("Patricio Perez - Torrevieja", "37.977346", "-0.684409", "http://www.datos.eltiempoentorrevieja.es/PatricioPerez/patricioperez"),
    Source("Centro - Torrevieja", "37.9758601", "-0.6824636", "http://www.datos.eltiempoentorrevieja.es/Centro/centro.txt"),
    Source("Aguas Nuevas - Torrevieja", "37.998341", "-0.664749", "http://www.datos.eltiempoentorrevieja.es/AguasNuevas/aguasnuevas"),
    Source("La Mata - Parque", "38.0240018", "-0.6587566", "http://www.datos.eltiempoentorrevieja.es/LaMata_Parque/parquenatural.xml"),
    Source("Salinas - Torrevieja", "37.978448", "-0.702041", "http://www.datos.eltiempoentorrevieja.es/Salinas/salinas1"),
    Source("Los Montesinos - Montesinos", "38.021563", "0.741981", "http://www.datos.eltiempoentorrevieja.es/LosMontesinos/montesinos.xml"),
    Source("Los Balcones - Lago Jardin", "37.972816", "-0.728702", "http://www.datos.eltiempoentorrevieja.es/LosBalcones/balconesjardin"),
    Source("Romualdo Ballester - Torrevieja", "37.955111", "-0.717841", "http://www.datos.eltiempoentorrevieja.es/RomualdoBallester/ColegioRomualdo.xml"),
    Source("IES Torrevigía - Torrevieja", "37.998659", "-0.695838", "http://www.datos.eltiempoentorrevieja.es/IESTorrevigia/iestorrevigia"),
    Source("San Miguel de Salinas", "37.9872061", "-0.7673557", "http://www.datos.eltiempoentorrevieja.es/SanMiguel/sanmiguel"),
    Source("Marina Salinas - Torrevieja", "37.969785", "-0.680555", "http://www.datos.eltiempoentorrevieja.es/MarinaSalinas/marinasalinas.xml"),
    Source("Salinas Isla - Torrevieja", "37.991396", "-0.720184", "http://www.datos.eltiempoentorrevieja.es/Salinas_Isla/salinas2"),
    Source("Colegio Salvador Ruso - Torrevieja", "37.985066", "-0.672346", "http://www.datos.eltiempoentorrevieja.es/SalvadorRuso/salvadorruso"),
    Source("San Luis - Torrevieja", "38.024264", "-0.697408", "http://www.datos.eltiempoentorrevieja.es/SanLuis/sanluis.xml"),
    Source("Europeos - La Mata", "38.017269", "-0.653988", "http://www.datos.eltiempoentorrevieja.es/LaMata_Europeos/europeoslamata"),
    Source("El Raso - Rojales", "38.054724", "-0.696401", "http://www.datos.eltiempoentorrevieja.es/Rojales/rojales"),
    Source("Playa de los Locos - Torrevieja", "37.9848708", "-0.6587313", "http://www.datos.eltiempoentorrevieja.es/LosLocos/loslocos"),
    Source("Plaza Waldo Calero - Torrevieja", "37.9760295", "-0.6807944", "http://datos.eltiempoentorrevieja.es/WaldoCalero/WaldoCalero.xml"),
    Source("Restaurante Nautilus - Torrevieja", "37.9468063", "-0.7049459", "http://datos.eltiempoentorrevieja.es/Nautilus/Nautilus.xml")
  ]

  /** The generated file never lists more than the twenty stations. */
  lemma AtMostTwentyStations(outcomes: seq<FetchOutcome>, now: int, stampOf: string -> Option<int>)
    requires |outcomes| == |ESTACIONES|
    ensures |Accepted(ESTACIONES, outcomes, now, stampOf)| <= 20
  {
  }
}
