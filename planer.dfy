/** `StudienplanerApp`: the module list, the currently selected module, the mutation rules the
    Flet handlers apply to them, and the two views computed by loops (the CSV export and the
    calendar list). */
module Planer {
  import opened Wrappers
  import opened Text
  import opened Dates
  import opened Entities
  import opened Views

  /** The task `aufgabe_speichern` builds: stripped title and description, and the stripped date
      text only if it parses; a new task is open. */
  function NeueAufgabe(titel: string, beschreibung: string, datum: string, prioritaet: string, jetzt: string): (a: Aufgabe)
    ensures a.titel == Strip(titel) && a.beschreibung == Strip(beschreibung)
    ensures a.prioritaet == prioritaet && a.erstelltAm == jetzt && !a.erledigt
    ensures a.faelligkeitsdatum.Some? <==> Parse(Strip(datum)).Some?
    ensures a.faelligkeitsdatum.Some? ==> a.faelligkeitsdatum.value == Strip(datum) && Faelligkeit(a).Some?
  {
    var faelligkeitsdatum :=
      if Strip(datum) != "" && Parse(Strip(datum)).Some? then Some(Strip(datum)) else None;
    Aufgabe(Strip(titel), Strip(beschreibung), faelligkeitsdatum, prioritaet, false, jetzt)
  }

  /** The first position of `m` in `ms` (`list.remove` removes the first equal element). */
  function IndexOf(ms: seq<Modul>, m: Modul): (k: nat)
    requires m in ms
    ensures k < |ms| && ms[k] == m
    ensures forall j :: 0 <= j < k ==> ms[j] != m
  {
    if ms[0] == m then 0 else 1 + IndexOf(ms[1..], m)
  }

  /** `ms.remove(m)`: the first module equal to `m` is taken out, and the others keep their
      order. */
  function OhneModul(ms: seq<Modul>, m: Modul): (r: seq<Modul>)
    requires m in ms
    ensures |r| == |ms| - 1
    ensures multiset(r) == multiset(ms) - multiset{m}
    ensures forall j :: 0 <= j < IndexOf(ms, m) ==> r[j] == ms[j]
    ensures forall j :: IndexOf(ms, m) <= j < |r| ==> r[j] == ms[j + 1]
  {
    var k := IndexOf(ms, m);
    assert ms == ms[..k] + [m] + ms[k + 1..];
    ms[..k] + ms[k + 1..]
  }

  /** Task `i` of module `k` with its `erledigt` flag flipped; nothing else changes. */
  function Umgeschaltet(ms: seq<Modul>, k: nat, i: nat): (r: seq<Modul>)
    requires k < |ms| && i < |ms[k].aufgaben|
    ensures |r| == |ms| && forall j :: 0 <= j < |ms| && j != k ==> r[j] == ms[j]
    ensures r[k].name == ms[k].name && r[k].farbe == ms[k].farbe && r[k].beschreibung == ms[k].beschreibung
    ensures r[k].erstelltAm == ms[k].erstelltAm && |r[k].aufgaben| == |ms[k].aufgaben|
    ensures forall j :: 0 <= j < |ms[k].aufgaben| && j != i ==> r[k].aufgaben[j] == ms[k].aufgaben[j]
    ensures r[k].aufgaben[i].erledigt == !ms[k].aufgaben[i].erledigt
    ensures r[k].aufgaben[i] == ms[k].aufgaben[i].(erledigt := r[k].aufgaben[i].erledigt)
  {
    var a := ms[k].aufgaben[i];
    ms[k := ms[k].(aufgaben := ms[k].aufgaben[i := a.(erledigt := !a.erledigt)])]
  }

  /** `del aufgaben[i]` in module `k`; the other modules are untouched. */
  function OhneAufgabe(ms: seq<Modul>, k: nat, i: nat): (r: seq<Modul>)
    requires k < |ms| && i < |ms[k].aufgaben|
    ensures |r| == |ms| && forall j :: 0 <= j < |ms| && j != k ==> r[j] == ms[j]
    ensures r[k] == ms[k].(aufgaben := r[k].aufgaben)
    ensures r[k].aufgaben == ms[k].aufgaben[..i] + ms[k].aufgaben[i + 1..]
  {
    ms[k := ms[k].(aufgaben := ms[k].aufgaben[..i] + ms[k].aufgaben[i + 1..])]
  }

  /** `f"studienplaner_export_{date.today().isoformat()}.csv"`: the export date can be read back
      from the file name. */
  function ExportDateiName(heute: Date): (n: string)
    requires IsValid(heute)
    ensures |n| == 35 && n[..21] == "studienplaner_export_" && n[31..] == ".csv"
    ensures Parse(n[21..31]) == Some(heute)
  {
    var n := "studienplaner_export_" + Format(heute) + ".csv";
    assert n[21..31] == Format(heute);
    ParseFormat(heute);
    n
  }

  // ----- how the mutations move the dashboard totals -----

  /** Toggling a task keeps the task count, moves the completed count by one in the direction
      of the flip, and the overdue count by the difference between the task before and after
      the flip: an overdue task toggled to completed stops counting, and a completed task
      toggled back counts again if its date has passed. */
  lemma UmschaltenDashboard(ms: seq<Modul>, k: nat, i: nat, heute: Date)
    requires k < |ms| && i < |ms[k].aufgaben|
    ensures var vor, nach, a := Dashboard(ms, heute), Dashboard(Umgeschaltet(ms, k, i), heute), ms[k].aufgaben[i];
      var b := a.(erledigt := !a.erledigt);
      nach.aufgaben == vor.aufgaben
      && nach.erledigt == (if a.erledigt then vor.erledigt - 1 else vor.erledigt + 1)
      && nach.ueberfaellig + (if IstUeberfaellig(a, heute) then 1 else 0)
         == vor.ueberfaellig + (if IstUeberfaellig(b, heute) then 1 else 0)
      && (IstUeberfaellig(a, heute) ==> nach.ueberfaellig == vor.ueberfaellig - 1)
  {
    var a := ms[k].aufgaben[i];
    var b := a.(erledigt := !a.erledigt);
    var m := ms[k].(aufgaben := ms[k].aufgaben[i := b]);
    ZaehlerUpdate(ms[k].aufgaben, i, b, heute);
    DashboardUpdate(ms, k, m, heute);
  }

  /** Toggling the same task twice restores the module list. */
  lemma UmschaltenInvolution(ms: seq<Modul>, k: nat, i: nat)
    requires k < |ms| && i < |ms[k].aufgaben|
    ensures Umgeschaltet(Umgeschaltet(ms, k, i), k, i) == ms
  {
    var r := Umgeschaltet(Umgeschaltet(ms, k, i), k, i);
    assert r[k].aufgaben == ms[k].aufgaben;
  }

  /** Adding a task adds one to the task count, nothing to the completed count, and one to the
      overdue count exactly when the new task is already overdue. */
  lemma AufgabeHinzufuegenDashboard(ms: seq<Modul>, k: nat, a: Aufgabe, heute: Date)
    requires k < |ms| && !a.erledigt
    ensures var vor, nach := Dashboard(ms, heute), Dashboard(ms[k := ms[k].(aufgaben := ms[k].aufgaben + [a])], heute);
      nach.aufgaben == vor.aufgaben + 1 && nach.erledigt == vor.erledigt
      && nach.ueberfaellig == vor.ueberfaellig + (if IstUeberfaellig(a, heute) then 1 else 0)
  {
    var m := ms[k].(aufgaben := ms[k].aufgaben + [a]);
    AnhaengenZahlen(ms[k], a, heute);
    DashboardUpdate(ms, k, m, heute);
  }

  /** One module's share after a task is appended to it. */
  lemma AnhaengenZahlen(m: Modul, a: Aufgabe, heute: Date)
    ensures var x, y := ModulZahlen(m, heute), ModulZahlen(m.(aufgaben := m.aufgaben + [a]), heute);
      y.aufgaben == x.aufgaben + 1
      && y.erledigt == x.erledigt + (if a.erledigt then 1 else 0)
      && y.ueberfaellig == x.ueberfaellig + (if IstUeberfaellig(a, heute) then 1 else 0)
  {
    var s := m.aufgaben + [a];
    assert s[..|s| - 1] == m.aufgaben;
    ZaehlerLast(s, heute);
  }

  /** Deleting a task takes it off every total it counted in. */
  lemma AufgabeLoeschenDashboard(ms: seq<Modul>, k: nat, i: nat, heute: Date)
    requires k < |ms| && i < |ms[k].aufgaben|
    ensures var vor, nach, a := Dashboard(ms, heute), Dashboard(OhneAufgabe(ms, k, i), heute), ms[k].aufgaben[i];
      nach.aufgaben + 1 == vor.aufgaben
      && nach.erledigt + (if a.erledigt then 1 else 0) == vor.erledigt
      && nach.ueberfaellig + (if IstUeberfaellig(a, heute) then 1 else 0) == vor.ueberfaellig
  {
    var r := OhneAufgabe(ms, k, i);
    assert r == ms[k := r[k]];
    ZaehlerRemove(ms[k].aufgaben, i, heute);
    DashboardUpdate(ms, k, r[k], heute);
  }

  /** Deleting a module takes all its tasks off the totals. */
  lemma ModulLoeschenDashboard(ms: seq<Modul>, m: Modul, heute: Date)
    requires m in ms
    ensures Plus(Dashboard(OhneModul(ms, m), heute), ModulZahlen(m, heute)) == Dashboard(ms, heute)
  {
    DashboardRemove(ms, IndexOf(ms, m), heute);
  }

  /** Adding a module, which starts without tasks, leaves the totals as they are. */
  lemma ModulHinzufuegenDashboard(ms: seq<Modul>, m: Modul, heute: Date)
    requires m.aufgaben == []
    ensures Dashboard(ms + [m], heute) == Dashboard(ms, heute)
  {
    assert (ms + [m])[..|ms|] == ms;
  }

  /** The rows `export_csv` writes for one module: one per task, in task order, or the name
      followed by five empty cells when the module has no tasks. */
  method ModulZeilenSchreiben(modul: Modul) returns (zeilen: seq<seq<string>>)
    ensures zeilen == ModulZeilen(modul)
  {
    if modul.aufgaben == [] {
      return [[modul.name, "", "", "", "", ""]];
    }
    zeilen := [];
    var j := 0;
    while j < |modul.aufgaben|
      invariant 0 <= j <= |modul.aufgaben|
      invariant zeilen == AufgabenZeilen(modul.name, modul.aufgaben[..j])
    {
      var aufgabe := modul.aufgaben[j];
      var zeile := [
        modul.name,
        aufgabe.titel,
        aufgabe.beschreibung,
        if aufgabe.faelligkeitsdatum.Some? then aufgabe.faelligkeitsdatum.value else "",
        aufgabe.prioritaet,
        if aufgabe.erledigt then "Erledigt" else "Offen"];
      assert modul.aufgaben[..j + 1][..j] == modul.aufgaben[..j];
      zeilen := zeilen + [zeile];
      j := j + 1;
    }
    assert modul.aufgaben[..j] == modul.aufgaben;
  }

  /** The outer loop of `export_csv`: the rows of all modules, module by module. */
  method CsvZeilenSchreiben(ms: seq<Modul>) returns (zeilen: seq<seq<string>>)
    ensures zeilen == CsvZeilen(ms)
  {
    zeilen := [];
    var i := 0;
    while i < |ms|
      invariant 0 <= i <= |ms|
      invariant zeilen == CsvZeilen(ms[..i])
    {
      var modulZeilen := ModulZeilenSchreiben(ms[i]);
      CsvZeilenPrefix(ms, i);
      zeilen := zeilen + modulZeilen;
      i := i + 1;
    }
    assert ms[..i] == ms;
  }

  /** The inner loop of the calendar view over one module's tasks: an entry for each task
      whose due date parses and meets the month condition, in task order. */
  method TermineSammeln(modul: Modul, heute: Date) returns (termine: seq<Termin>)
    ensures termine == TermineVon(modul, modul.aufgaben, heute)
  {
    termine := [];
    var j := 0;
    while j < |modul.aufgaben|
      invariant 0 <= j <= |modul.aufgaben|
      invariant termine == TermineVon(modul, modul.aufgaben[..j], heute)
    {
      var aufgabe := modul.aufgaben[j];
      assert modul.aufgaben[..j + 1][..j] == modul.aufgaben[..j];
      if aufgabe.faelligkeitsdatum.Some? && aufgabe.faelligkeitsdatum.value != "" {
        match Parse(aufgabe.faelligkeitsdatum.value) {
          case Some(aufgabeDatum) =>
            if ImKalender(aufgabeDatum, aufgabe, heute) {
              termine := termine + [Termin(aufgabeDatum, aufgabe, modul)];
            }
          case None =>
        }
      }
      j := j + 1;
    }
    assert modul.aufgaben[..j] == modul.aufgaben;
  }

  /** The application state: the module list and the selected module (`aktuelles_modul`), kept
      as its position in the list. */
  class App {
    var modulListe: seq<Modul>
    var aktuelles: Option<nat>

    /** The selected module is one of the list. */
    ghost predicate Valid()
      reads this
    {
      aktuelles.Some? ==> aktuelles.value < |modulListe|
    }

    constructor ()
      ensures Valid() && modulListe == [] && aktuelles == None
    {
      modulListe := [];
      aktuelles := None;
    }

    /** `daten_laden` once the file has been read and parsed: the loaded modules replace the
        list, and on any error the list stays as it was. It runs at start-up, before any module
        is selected. */
    method Laden(doc: Json, jetzt: string) returns (ok: bool)
      requires Valid() && aktuelles == None
      modifies this
      ensures Valid() && aktuelles == None
      ensures ok <==> ModuleAusDokument(doc, jetzt).Ok?
      ensures modulListe == if ok then ModuleAusDokument(doc, jetzt).value else old(modulListe)
    {
      match ModuleAusDokument(doc, jetzt) {
        case Ok(ms) =>
          modulListe := ms;
          ok := true;
        case Err(_) =>
          ok := false;
      }
    }

    /** The document `daten_speichern` writes; loading it gives back the module list. */
    function Speichern(gespeichertAm: string): (d: Json)
      reads this
      ensures d == Dokument(modulListe, gespeichertAm)
      ensures forall jetzt :: ModuleAusDokument(d, jetzt) == Ok(modulListe)
    {
      forall jetzt ensures ModuleAusDokument(Dokument(modulListe, gespeichertAm), jetzt) == Ok(modulListe) {
        DokumentRoundTrip(modulListe, gespeichertAm, jetzt);
      }
      Dokument(modulListe, gespeichertAm)
    }

    /** `modul_speichern`: a name that is blank changes nothing; otherwise one module with the
        stripped name and description and no tasks is appended. */
    method ModulHinzufuegen(name: string, farbe: Option<string>, beschreibung: string, jetzt: string) returns (ok: bool)
      requires Valid()
      modifies this
      ensures Valid() && aktuelles == old(aktuelles)
      ensures ok <==> !IsBlank(name)
      ensures ok ==> modulListe == old(modulListe) + [Modul(Strip(name), farbe, Strip(beschreibung), [], jetzt)]
      ensures !ok ==> modulListe == old(modulListe)
    {
      StripEmptyIffBlank(name);
      if name != "" && Strip(name) != "" {
        var neuesModul := Modul(Strip(name), farbe, if beschreibung != "" then Strip(beschreibung) else "", [], jetzt);
        modulListe := modulListe + [neuesModul];
        ok := true;
      } else {
        ok := false;
      }
    }

    /** `modul_auswaehlen`: select the module at position `k`. */
    method ModulAuswaehlen(k: nat)
      requires Valid() && k < |modulListe|
      modifies this
      ensures Valid() && modulListe == old(modulListe) && aktuelles == Some(k)
    {
      aktuelles := Some(k);
    }

    /** `modul_loeschen_bestaetigt`: removes `m` if it is still in the list, and clears the
        selection exactly when `m` was the selected module; a selection that remains still
        designates the same module. */
    method ModulLoeschen(m: Modul) returns (entfernt: bool)
      requires Valid()
      modifies this
      ensures Valid()
      ensures entfernt <==> m in old(modulListe)
      ensures !entfernt ==> modulListe == old(modulListe) && aktuelles == old(aktuelles)
      ensures entfernt ==> modulListe == OhneModul(old(modulListe), m)
      ensures entfernt ==> (aktuelles.None? <==> old(aktuelles).None? || old(modulListe)[old(aktuelles).value] == m)
      ensures aktuelles.Some? ==> modulListe[aktuelles.value] == old(modulListe)[old(aktuelles).value]
      ensures entfernt && aktuelles.Some? ==>
        aktuelles.value == if old(aktuelles).value < IndexOf(old(modulListe), m) then old(aktuelles).value else old(aktuelles).value - 1
    {
      if m in modulListe {
        var k := IndexOf(modulListe, m);
        var alt := modulListe;
        modulListe := modulListe[..k] + modulListe[k + 1..];
        if aktuelles.Some? && alt[aktuelles.value] == m {
          aktuelles := None;
        } else if aktuelles.Some? && aktuelles.value > k {
          aktuelles := Some(aktuelles.value - 1);
        }
        entfernt := true;
      } else {
        entfernt := false;
      }
    }

    /** `aufgabe_speichern`: with a module selected and a title that is not blank, appends
        `NeueAufgabe(...)` to the selected module; otherwise nothing changes. */
    method AufgabeHinzufuegen(titel: string, beschreibung: string, datum: string, prioritaet: string, jetzt: string)
      returns (ok: bool)
      requires Valid()
      modifies this
      ensures Valid() && aktuelles == old(aktuelles)
      ensures ok <==> old(aktuelles).Some? && !IsBlank(titel)
      ensures ok ==> var k := old(aktuelles).value;
        modulListe == old(modulListe)[k := old(modulListe)[k].(aufgaben := old(modulListe)[k].aufgaben + [NeueAufgabe(titel, beschreibung, datum, prioritaet, jetzt)])]
      ensures !ok ==> modulListe == old(modulListe)
    {
      StripEmptyIffBlank(titel);
      if aktuelles.None? || Strip(titel) == "" {
        return false;
      }
      var faelligkeitsdatum: Option<string> := None;
      if Strip(datum) != "" {
        if Parse(Strip(datum)).Some? {
          faelligkeitsdatum := Some(Strip(datum));
        }
      }
      var neueAufgabe := Aufgabe(Strip(titel), Strip(beschreibung), faelligkeitsdatum, prioritaet, false, jetzt);
      var k := aktuelles.value;
      modulListe := modulListe[k := modulListe[k].(aufgaben := modulListe[k].aufgaben + [neueAufgabe])];
      ok := true;
    }

    /** `toggle_aufgabe_status` for task `i` of the selected module: flips that task's
        `erledigt`. Without a selection or with a stale index (Python's `IndexError`) nothing
        changes. */
    method AufgabeUmschalten(i: nat) returns (ok: bool)
      requires Valid()
      modifies this
      ensures Valid() && aktuelles == old(aktuelles)
      ensures ok <==> old(aktuelles).Some? && i < |old(modulListe)[old(aktuelles).value].aufgaben|
      ensures modulListe == if ok then Umgeschaltet(old(modulListe), old(aktuelles).value, i) else old(modulListe)
    {
      if aktuelles.None? || i >= |modulListe[aktuelles.value].aufgaben| {
        return false;
      }
      var k := aktuelles.value;
      var aufgabe := modulListe[k].aufgaben[i];
      modulListe := modulListe[k := modulListe[k].(aufgaben := modulListe[k].aufgaben[i := aufgabe.(erledigt := !aufgabe.erledigt)])];
      ok := true;
    }

    /** `aufgabe_loeschen_bestaetigen` for task `i` of the selected module: deletes that task.
        Without a selection or with a stale index nothing changes. */
    method AufgabeLoeschen(i: nat) returns (ok: bool)
      requires Valid()
      modifies this
      ensures Valid() && aktuelles == old(aktuelles)
      ensures ok <==> old(aktuelles).Some? && i < |old(modulListe)[old(aktuelles).value].aufgaben|
      ensures modulListe == if ok then OhneAufgabe(old(modulListe), old(aktuelles).value, i) else old(modulListe)
    {
      if aktuelles.None? || i >= |modulListe[aktuelles.value].aufgaben| {
        return false;
      }
      var k := aktuelles.value;
      modulListe := modulListe[k := modulListe[k].(aufgaben := modulListe[k].aufgaben[..i] + modulListe[k].aufgaben[i + 1..])];
      ok := true;
    }

    /** `export_csv` with `date.today()` passed in: the file name and every row written, in order. */
    method ExportCsv(heute: Date) returns (dateiName: string, zeilen: seq<seq<string>>)
      requires IsValid(heute)
      ensures dateiName == ExportDateiName(heute)
      ensures zeilen == CsvDatei(modulListe)
    {
      var rumpf := CsvZeilenSchreiben(modulListe);
      zeilen := [Kopfzeile()] + rumpf;
      dateiName := ExportDateiName(heute);
    }

    /** `aktualisiere_kalender` with `date.today()` passed in: the entries of every module's
        open tasks whose due date parses and meets the month condition, sorted ascending by
        date, entries with the same date in module and task order. */
    method Kalender(heute: Date) returns (r: seq<Termin>)
      ensures Sortiert(r)
      ensures forall d :: MitDatum(r, d) == MitDatum(Kandidaten(modulListe, heute), d)
      ensures multiset(r) == multiset(Kandidaten(modulListe, heute))
      ensures forall t :: t in r <==>
        t.modul in modulListe && t.aufgabe in t.modul.aufgaben
        && Faelligkeit(t.aufgabe) == Some(t.datum) && ImKalender(t.datum, t.aufgabe, heute)
    {
      var monatliche: seq<Termin> := [];
      var i := 0;
      while i < |modulListe|
        invariant 0 <= i <= |modulListe|
        invariant monatliche == Kandidaten(modulListe[..i], heute)
      {
        var termine := TermineSammeln(modulListe[i], heute);
        assert modulListe[..i + 1][..i] == modulListe[..i];
        monatliche := monatliche + termine;
        i := i + 1;
      }
      assert modulListe[..i] == modulListe;
      r := NachDatum(monatliche);
      NachDatumSortiert(monatliche);
      forall d ensures MitDatum(r, d) == MitDatum(monatliche, d) {
        NachDatumStabil(monatliche, d);
      }
      forall t ensures t in r <==> t in monatliche {
        assert t in r <==> t in multiset(r);
      }
      forall t ensures t in monatliche <==>
        t.modul in modulListe && t.aufgabe in t.modul.aufgaben
        && Faelligkeit(t.aufgabe) == Some(t.datum) && ImKalender(t.datum, t.aufgabe, heute)
      {
        KandidatenSpec(modulListe, heute, t);
      }
    }
  }
}
