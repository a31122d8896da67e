/** The two records of the planner, `Aufgabe` (a task) and `Modul` (a course module owning
    its tasks), their derived values, and their conversion to and from JSON dictionaries. */
module Entities {
  import opened Wrappers
  import opened Dates

  /** The JSON values `json.load` produces and `json.dump` writes. */
  datatype Json =
    | JNull
    | JBool(b: bool)
    | JStr(s: string)
    | JList(items: seq<Json>)
    | JObj(fields: map<string, Json>)

  /** Why a dictionary does not make a record. */
  datatype LoadError =
    | NotAnObject          // the value where a dictionary was expected is not one
    | MissingKey(key: string)  // `data[key]` raises `KeyError`
    | WrongType(key: string)   // the value under `key` is not of the type the field holds

  /** A task. `faelligkeitsdatum` is the due date as text (`None` when there is none);
      `erstelltAm` is the creation timestamp, kept as opaque text. */
  datatype Aufgabe = Aufgabe(
    titel: string,
    beschreibung: string,
    faelligkeitsdatum: Option<string>,
    prioritaet: string,
    erledigt: bool,
    erstelltAm: string)

  /** A module. `farbe` is `None` when the colour was stored as JSON `null`. */
  datatype Modul = Modul(
    name: string,
    farbe: Option<string>,
    beschreibung: string,
    aufgaben: seq<Aufgabe>,
    erstelltAm: string)

  const DefaultFarbe: string := "#2196F3"
  const DefaultPrioritaet: string := "Normal"

  /** The due date of a task as a date: `None` when it has none, when it is the empty text,
      or when the text does not parse. */
  function Faelligkeit(a: Aufgabe): (r: Option<Date>)
    ensures r.Some? ==> a.faelligkeitsdatum.Some? && Parse(a.faelligkeitsdatum.value) == r
    ensures a.faelligkeitsdatum.Some? && Parse(a.faelligkeitsdatum.value).Some? ==> r.Some?
  {
    if a.faelligkeitsdatum.None? || a.faelligkeitsdatum.value == "" then None
    else Parse(a.faelligkeitsdatum.value)
  }

  /** `Aufgabe.ist_ueberfaellig()` with today's date passed in: a task is overdue exactly when it
      is open and has a parsable due date strictly before today; an unparsable date is never
      overdue. */
  function IstUeberfaellig(a: Aufgabe, heute: Date): (r: bool)
    ensures r <==> !a.erledigt && Faelligkeit(a).Some? && Before(Faelligkeit(a).value, heute)
    ensures a.faelligkeitsdatum.None? ==> !r
    ensures a.erledigt ==> !r
  {
    if a.faelligkeitsdatum.None? || a.faelligkeitsdatum.value == "" || a.erledigt then false
    else
      match Parse(a.faelligkeitsdatum.value)
      case None => false
      case Some(faellig) => Before(faellig, heute)
  }

  /** The number of completed tasks (`sum(1 for a in aufgaben if a.erledigt)`). */
  function Erledigte(s: seq<Aufgabe>): (n: nat)
    ensures n <= |s|
  {
    if s == [] then 0
    else Erledigte(s[..|s| - 1]) + (if s[|s| - 1].erledigt then 1 else 0)
  }

  /** No task is completed exactly when the count is 0, and all are exactly when it is `|s|`. */
  lemma {:induction false} ErledigteExtremes(s: seq<Aufgabe>)
    ensures Erledigte(s) == 0 <==> forall k :: 0 <= k < |s| ==> !s[k].erledigt
    ensures Erledigte(s) == |s| <==> forall k :: 0 <= k < |s| ==> s[k].erledigt
  {
    if s != [] {
      var init := s[..|s| - 1];
      ErledigteExtremes(init);
      assert forall k :: 0 <= k < |init| ==> init[k] == s[k];
    }
  }

  /** The number of overdue tasks (`sum(1 for a in aufgaben if a.ist_ueberfaellig())`);
      overdue tasks are open, so they and the completed ones together never outnumber the tasks. */
  function Ueberfaellige(s: seq<Aufgabe>, heute: Date): (n: nat)
    ensures n + Erledigte(s) <= |s|
  {
    if s == [] then 0
    else Ueberfaellige(s[..|s| - 1], heute) + (if IstUeberfaellig(s[|s| - 1], heute) then 1 else 0)
  }

  /** Replacing one task changes the completed and overdue counts by the difference between
      the old and the new task. */
  lemma {:induction false} ZaehlerUpdate(s: seq<Aufgabe>, i: nat, a: Aufgabe, heute: Date)
    requires i < |s|
    ensures Erledigte(s[i := a]) + (if s[i].erledigt then 1 else 0) == Erledigte(s) + (if a.erledigt then 1 else 0)
    ensures Ueberfaellige(s[i := a], heute) + (if IstUeberfaellig(s[i], heute) then 1 else 0)
         == Ueberfaellige(s, heute) + (if IstUeberfaellig(a, heute) then 1 else 0)
  {
    var n := s[i := a];
    var init := s[..|s| - 1];
    ZaehlerLast(n, heute);
    ZaehlerLast(s, heute);
    if i < |s| - 1 {
      assert n[..|n| - 1] == init[i := a];
      assert n[|n| - 1] == s[|s| - 1];
      assert init[i] == s[i];
      ZaehlerUpdate(init, i, a, heute);
    } else {
      assert n[..|n| - 1] == init;
      assert n[|n| - 1] == a;
    }
  }

  /** Removing one task takes it off the completed and overdue counts. */
  lemma {:induction false} ZaehlerRemove(s: seq<Aufgabe>, i: nat, heute: Date)
    requires i < |s|
    ensures Erledigte(s[..i] + s[i + 1..]) + (if s[i].erledigt then 1 else 0) == Erledigte(s)
    ensures Ueberfaellige(s[..i] + s[i + 1..], heute) + (if IstUeberfaellig(s[i], heute) then 1 else 0)
         == Ueberfaellige(s, heute)
  {
    var n := s[..i] + s[i + 1..];
    if i < |s| - 1 {
      var init := s[..|s| - 1];
      assert n[..|n| - 1] == init[..i] + init[i + 1..];
      assert n[|n| - 1] == s[|s| - 1];
      assert init[i] == s[i];
      ZaehlerRemove(init, i, heute);
      ZaehlerLast(n, heute);
      ZaehlerLast(s, heute);
    } else {
      assert n == s[..|s| - 1];
    }
  }

  lemma ZaehlerLast(s: seq<Aufgabe>, heute: Date)
    requires s != []
    ensures Erledigte(s) == Erledigte(s[..|s| - 1]) + (if s[|s| - 1].erledigt then 1 else 0)
    ensures Ueberfaellige(s, heute) == Ueberfaellige(s[..|s| - 1], heute) + (if IstUeberfaellig(s[|s| - 1], heute) then 1 else 0)
  {
  }

  /** `Modul.get_fortschritt()`: 0 without tasks, otherwise the share of completed tasks. */
  function Fortschritt(m: Modul): (r: real)
    ensures m.aufgaben == [] ==> r == 0.0
    ensures m.aufgaben != [] ==> r * (|m.aufgaben| as real) == Erledigte(m.aufgaben) as real
    ensures 0.0 <= r <= 1.0
    ensures r == 1.0 <==> m.aufgaben != [] && forall k :: 0 <= k < |m.aufgaben| ==> m.aufgaben[k].erledigt
  {
    if m.aufgaben == [] then 0.0
    else
      ErledigteExtremes(m.aufgaben);
      Share(Erledigte(m.aufgaben), |m.aufgaben|);
      (Erledigte(m.aufgaben) as real) / (|m.aufgaben| as real)
  }

  /** The facts about `e / n` that the progress value needs. */
  lemma Share(e: nat, n: nat)
    requires 0 < n && e <= n
    ensures var r := (e as real) / (n as real);
      r * (n as real) == e as real && 0.0 <= r <= 1.0 && (r == 1.0 <==> e == n)
  {
    var en, nn := e as real, n as real;
    var r := en / nn;
    assert r * nn == en;
    if e < n {
      assert r < 1.0;
    }
  }

  // ----- dictionaries -----

  /** `data.get(key, default)` */
  function Get(fields: map<string, Json>, key: string, default: Json): (v: Json)
    ensures key in fields ==> v == fields[key]
    ensures key !in fields ==> v == default
  {
    if key in fields then fields[key] else default
  }

  /** The value under `key` as a string. */
  function AsString(key: string, v: Json): (r: Result<string, LoadError>)
    ensures r.Ok? <==> v.JStr?
    ensures r.Ok? ==> v == JStr(r.value)
    ensures r.Err? ==> r.error == WrongType(key)
  {
    if v.JStr? then Ok(v.s) else Err(WrongType(key))
  }

  /** The value under `key` as a string or `None`, where JSON `null` is `None`. */
  function AsOptString(key: string, v: Json): (r: Result<Option<string>, LoadError>)
    ensures r.Ok? <==> v.JStr? || v.JNull?
    ensures r == Ok(None) <==> v.JNull?
    ensures v.JStr? ==> r == Ok(Some(v.s))
  {
    match v
    case JNull => Ok(None)
    case JStr(s) => Ok(Some(s))
    case _ => Err(WrongType(key))
  }

  function OptStringToJson(o: Option<string>): Json
  {
    if o.None? then JNull else JStr(o.value)
  }

  /** `Aufgabe.to_dict()` */
  function AufgabeToDict(a: Aufgabe): (d: Json)
    ensures d.JObj?
    ensures d.fields.Keys == {"titel", "beschreibung", "faelligkeitsdatum", "prioritaet", "erledigt", "erstellt_am"}
  {
    JObj(map[
      "titel" := JStr(a.titel),
      "beschreibung" := JStr(a.beschreibung),
      "faelligkeitsdatum" := OptStringToJson(a.faelligkeitsdatum),
      "prioritaet" := JStr(a.prioritaet),
      "erledigt" := JBool(a.erledigt),
      "erstellt_am" := JStr(a.erstelltAm)])
  }

  /** `key` is absent, or holds a string. */
  predicate StringOderFehlt(f: map<string, Json>, key: string)
  {
    key !in f || f[key].JStr?
  }

  /** The text under `key`, or `default` when the key is absent (`data.get(key, default)`). */
  function TextOder(f: map<string, Json>, key: string, default: string): string
    requires StringOderFehlt(f, key)
  {
    if key in f then f[key].s else default
  }

  /** `key` is absent, or holds a string or `null`. */
  predicate OptStringOderFehlt(f: map<string, Json>, key: string)
  {
    key !in f || f[key].JStr? || f[key].JNull?
  }

  /** The dictionaries `Aufgabe.from_dict` accepts: a `titel` text, and every other key either
      absent or of the type its field holds. */
  predicate AufgabeLaedt(data: Json)
  {
    && data.JObj?
    && "titel" in data.fields && data.fields["titel"].JStr?
    && StringOderFehlt(data.fields, "beschreibung")
    && OptStringOderFehlt(data.fields, "faelligkeitsdatum")
    && StringOderFehlt(data.fields, "prioritaet")
    && ("erledigt" !in data.fields || data.fields["erledigt"].JBool?)
    && StringOderFehlt(data.fields, "erstellt_am")
  }

  /** `Aufgabe.from_dict(data)`; `jetzt` is the `datetime.now().isoformat()` used when
      `erstellt_am` is missing. It succeeds exactly on the accepted dictionaries; every present
      key is stored, and every absent key other than `titel` takes its default. */
  function AufgabeFromDict(data: Json, jetzt: string): (r: Result<Aufgabe, LoadError>)
    ensures !data.JObj? ==> r == Err(NotAnObject)
    ensures data.JObj? && "titel" !in data.fields ==> r == Err(MissingKey("titel"))
    ensures r.Ok? <==> AufgabeLaedt(data)
    ensures r.Ok? ==> var f := data.fields;
      && r.value.titel == f["titel"].s
      && r.value.beschreibung == TextOder(f, "beschreibung", "")
      && r.value.faelligkeitsdatum == (if "faelligkeitsdatum" in f && f["faelligkeitsdatum"].JStr? then Some(f["faelligkeitsdatum"].s) else None)
      && r.value.prioritaet == TextOder(f, "prioritaet", DefaultPrioritaet)
      && r.value.erledigt == ("erledigt" in f && f["erledigt"].b)
      && r.value.erstelltAm == TextOder(f, "erstellt_am", jetzt)
  {
    if !data.JObj? then Err(NotAnObject)
    else
      var f := data.fields;
      if "titel" !in f then Err(MissingKey("titel"))
      else
        match (AsString("titel", f["titel"]),
               AsString("beschreibung", Get(f, "beschreibung", JStr(""))),
               AsOptString("faelligkeitsdatum", Get(f, "faelligkeitsdatum", JNull)),
               AsString("prioritaet", Get(f, "prioritaet", JStr(DefaultPrioritaet))),
               Get(f, "erledigt", JBool(false)),
               AsString("erstellt_am", Get(f, "erstellt_am", JStr(jetzt))))
        case (Ok(titel), Ok(beschreibung), Ok(datum), Ok(prioritaet), JBool(erledigt), Ok(erstelltAm)) =>
          Ok(Aufgabe(titel, beschreibung, datum, prioritaet, erledigt, erstelltAm))
        case (Err(e), _, _, _, _, _) => Err(e)
        case (_, Err(e), _, _, _, _) => Err(e)
        case (_, _, Err(e), _, _, _) => Err(e)
        case (_, _, _, Err(e), _, _) => Err(e)
        case (_, _, _, _, JBool(_), Err(e)) => Err(e)
        case _ => Err(WrongType("erledigt"))
  }

  /** Every field of a task survives `to_dict` followed by `from_dict`. */
  lemma AufgabeRoundTrip(a: Aufgabe, jetzt: string)
    ensures AufgabeFromDict(AufgabeToDict(a), jetzt) == Ok(a)
  {
  }

  /** `[aufgabe.to_dict() for aufgabe in s]` */
  function AufgabenToJson(s: seq<Aufgabe>): (r: seq<Json>)
    ensures |r| == |s|
    ensures forall k :: 0 <= k < |s| ==> r[k] == AufgabeToDict(s[k])
  {
    if s == [] then [] else AufgabenToJson(s[..|s| - 1]) + [AufgabeToDict(s[|s| - 1])]
  }

  /** `[Aufgabe.from_dict(x) for x in items]`: the first failing element makes the whole list fail. */
  function AufgabenFromJson(items: seq<Json>, jetzt: string): (r: Result<seq<Aufgabe>, LoadError>)
    ensures r.Ok? <==> forall k :: 0 <= k < |items| ==> AufgabeFromDict(items[k], jetzt).Ok?
    ensures r.Ok? ==> |r.value| == |items|
    ensures r.Ok? ==> forall k :: 0 <= k < |items| ==> AufgabeFromDict(items[k], jetzt) == Ok(r.value[k])
  {
    if items == [] then Ok([])
    else
      match (AufgabenFromJson(items[..|items| - 1], jetzt), AufgabeFromDict(items[|items| - 1], jetzt))
      case (Ok(init), Ok(last)) => Ok(init + [last])
      case (Err(e), _) => Err(e)
      case (_, Err(e)) => Err(e)
  }

  lemma {:induction false} AufgabenRoundTrip(s: seq<Aufgabe>, jetzt: string)
    ensures AufgabenFromJson(AufgabenToJson(s), jetzt) == Ok(s)
  {
    if s != [] {
      var init, last := s[..|s| - 1], s[|s| - 1];
      AufgabenRoundTrip(init, jetzt);
      AufgabeRoundTrip(last, jetzt);
      AufgabenFromJsonSnoc(AufgabenToJson(init), AufgabeToDict(last), jetzt, init, last);
      LastSplit(s);
    }
  }

  /** Converting one more dictionary appends its task, once both parts convert. */
  lemma AufgabenFromJsonSnoc(items: seq<Json>, x: Json, jetzt: string, init: seq<Aufgabe>, last: Aufgabe)
    requires AufgabenFromJson(items, jetzt) == Ok(init) && AufgabeFromDict(x, jetzt) == Ok(last)
    ensures AufgabenFromJson(items + [x], jetzt) == Ok(init + [last])
  {
    assert (items + [x])[..|items|] == items;
  }

  /** `Modul.to_dict()` */
  function ModulToDict(m: Modul): (d: Json)
    ensures d.JObj?
    ensures d.fields.Keys == {"name", "farbe", "beschreibung", "aufgaben", "erstellt_am"}
  {
    JObj(map[
      "name" := JStr(m.name),
      "farbe" := OptStringToJson(m.farbe),
      "beschreibung" := JStr(m.beschreibung),
      "aufgaben" := JList(AufgabenToJson(m.aufgaben)),
      "erstellt_am" := JStr(m.erstelltAm)])
  }

  /** The dictionaries `Modul.from_dict` accepts: a `name` text, every other key absent or of
      the type its field holds, and a task list whose dictionaries all convert. */
  predicate ModulLaedt(data: Json, jetzt: string)
  {
    && data.JObj?
    && "name" in data.fields && data.fields["name"].JStr?
    && OptStringOderFehlt(data.fields, "farbe")
    && StringOderFehlt(data.fields, "beschreibung")
    && StringOderFehlt(data.fields, "erstellt_am")
    && ("aufgaben" !in data.fields
        || (data.fields["aufgaben"].JList? && AufgabenFromJson(data.fields["aufgaben"].items, jetzt).Ok?))
  }

  /** `Modul.from_dict(data)`: it succeeds exactly on the accepted dictionaries; every present
      key is stored, a missing colour is the default blue, a missing description empty, a
      missing task list empty, and a missing timestamp `jetzt`. */
  function ModulFromDict(data: Json, jetzt: string): (r: Result<Modul, LoadError>)
    ensures !data.JObj? ==> r == Err(NotAnObject)
    ensures data.JObj? && "name" !in data.fields ==> r == Err(MissingKey("name"))
    ensures r.Ok? <==> ModulLaedt(data, jetzt)
    ensures r.Ok? ==> var f := data.fields;
      && r.value.name == f["name"].s
      && r.value.farbe == (if "farbe" !in f then Some(DefaultFarbe) else if f["farbe"].JNull? then None else Some(f["farbe"].s))
      && r.value.beschreibung == TextOder(f, "beschreibung", "")
      && r.value.erstelltAm == TextOder(f, "erstellt_am", jetzt)
      && (if "aufgaben" in f then AufgabenFromJson(f["aufgaben"].items, jetzt) == Ok(r.value.aufgaben)
          else r.value.aufgaben == [])
  {
    if !data.JObj? then Err(NotAnObject)
    else
      var f := data.fields;
      if "name" !in f then Err(MissingKey("name"))
      else
        match (AsString("name", f["name"]),
               AsOptString("farbe", Get(f, "farbe", JStr(DefaultFarbe))),
               AsString("beschreibung", Get(f, "beschreibung", JStr(""))),
               AsString("erstellt_am", Get(f, "erstellt_am", JStr(jetzt))),
               Get(f, "aufgaben", JList([])))
        case (Ok(name), Ok(farbe), Ok(beschreibung), Ok(erstelltAm), JList(items)) =>
          (match AufgabenFromJson(items, jetzt)
           case Ok(aufgaben) => Ok(Modul(name, farbe, beschreibung, aufgaben, erstelltAm))
           case Err(e) => Err(e))
        case (Err(e), _, _, _, _) => Err(e)
        case (_, Err(e), _, _, _) => Err(e)
        case (_, _, Err(e), _, _) => Err(e)
        case (_, _, _, Err(e), _) => Err(e)
        case _ => Err(WrongType("aufgaben"))
  }

  /** Every field of a module, its tasks included, survives `to_dict` followed by `from_dict`. */
  lemma ModulRoundTrip(m: Modul, jetzt: string)
    ensures ModulFromDict(ModulToDict(m), jetzt) == Ok(m)
  {
    var f := ModulToDict(m).fields;
    assert f["name"] == JStr(m.name);
    assert Get(f, "farbe", JStr(DefaultFarbe)) == OptStringToJson(m.farbe);
    assert Get(f, "beschreibung", JStr("")) == JStr(m.beschreibung);
    assert Get(f, "erstellt_am", JStr(jetzt)) == JStr(m.erstelltAm);
    assert Get(f, "aufgaben", JList([])) == JList(AufgabenToJson(m.aufgaben));
    AufgabenRoundTrip(m.aufgaben, jetzt);
  }

  /** A dictionary holding only `titel` loads as an open task of normal priority with no
      description, no due date, and `jetzt` as its creation time. */
  lemma AufgabeNurTitel(titel: string, jetzt: string)
    ensures AufgabeFromDict(JObj(map["titel" := JStr(titel)]), jetzt)
         == Ok(Aufgabe(titel, "", None, DefaultPrioritaet, false, jetzt))
  {
  }

  /** A dictionary holding only `name` loads as a blue module with no description, no tasks,
      and `jetzt` as its creation time. */
  lemma ModulNurName(name: string, jetzt: string)
    ensures ModulFromDict(JObj(map["name" := JStr(name)]), jetzt)
         == Ok(Modul(name, Some(DefaultFarbe), "", [], jetzt))
  {
  }

  /** `[modul.to_dict() for modul in module]` */
  function ModuleToJson(ms: seq<Modul>): (r: seq<Json>)
    ensures |r| == |ms|
    ensures forall k :: 0 <= k < |ms| ==> r[k] == ModulToDict(ms[k])
  {
    if ms == [] then [] else ModuleToJson(ms[..|ms| - 1]) + [ModulToDict(ms[|ms| - 1])]
  }

  /** `[Modul.from_dict(x) for x in items]` */
  function ModuleFromJson(items: seq<Json>, jetzt: string): (r: Result<seq<Modul>, LoadError>)
    ensures r.Ok? <==> forall k :: 0 <= k < |items| ==> ModulFromDict(items[k], jetzt).Ok?
    ensures r.Ok? ==> |r.value| == |items|
    ensures r.Ok? ==> forall k :: 0 <= k < |items| ==> ModulFromDict(items[k], jetzt) == Ok(r.value[k])
  {
    if items == [] then Ok([])
    else
      match (ModuleFromJson(items[..|items| - 1], jetzt), ModulFromDict(items[|items| - 1], jetzt))
      case (Ok(init), Ok(last)) => Ok(init + [last])
      case (Err(e), _) => Err(e)
      case (_, Err(e)) => Err(e)
  }

  lemma {:induction false} ModuleRoundTrip(ms: seq<Modul>, jetzt: string)
    ensures ModuleFromJson(ModuleToJson(ms), jetzt) == Ok(ms)
  {
    if ms != [] {
      var init, last := ms[..|ms| - 1], ms[|ms| - 1];
      ModuleRoundTrip(init, jetzt);
      ModulRoundTrip(last, jetzt);
      ModuleFromJsonSnoc(ModuleToJson(init), ModulToDict(last), jetzt, init, last);
      LastSplit(ms);
    }
  }

  /** Converting one more dictionary appends its module, once both parts convert. */
  lemma ModuleFromJsonSnoc(items: seq<Json>, x: Json, jetzt: string, init: seq<Modul>, last: Modul)
    requires ModuleFromJson(items, jetzt) == Ok(init) && ModulFromDict(x, jetzt) == Ok(last)
    ensures ModuleFromJson(items + [x], jetzt) == Ok(init + [last])
  {
    assert (items + [x])[..|items|] == items;
  }

  /** The document `daten_speichern` writes: the modules and the time of saving. */
  function Dokument(ms: seq<Modul>, gespeichertAm: string): (d: Json)
    ensures d.JObj? && d.fields.Keys == {"module", "gespeichert_am"}
    ensures d.fields["module"] == JList(ModuleToJson(ms))
    ensures d.fields["gespeichert_am"] == JStr(gespeichertAm)
  {
    JObj(map["module" := JList(ModuleToJson(ms)), "gespeichert_am" := JStr(gespeichertAm)])
  }

  /** The module list `daten_laden` builds from a parsed document: `data.get("module", [])`
      turned into modules, or the error that aborts loading. */
  function ModuleAusDokument(doc: Json, jetzt: string): (r: Result<seq<Modul>, LoadError>)
    ensures !doc.JObj? ==> r == Err(NotAnObject)
    ensures doc.JObj? && "module" !in doc.fields ==> r == Ok([])
    ensures doc.JObj? && "module" in doc.fields ==>
      r == (if doc.fields["module"].JList? then ModuleFromJson(doc.fields["module"].items, jetzt)
            else Err(WrongType("module")))
  {
    if !doc.JObj? then Err(NotAnObject)
    else
      match Get(doc.fields, "module", JList([]))
      case JList(items) => ModuleFromJson(items, jetzt)
      case _ => Err(WrongType("module"))
  }

  /** Whatever is saved loads back as the same modules, whatever the timestamps. */
  lemma DokumentRoundTrip(ms: seq<Modul>, gespeichertAm: string, jetzt: string)
    ensures ModuleAusDokument(Dokument(ms, gespeichertAm), jetzt) == Ok(ms)
  {
    ModuleRoundTrip(ms, jetzt);
  }
}
