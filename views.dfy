/** The read-only projections of the module list: the CSV rows of `export_csv`, the
    calendar list, and the dashboard totals. */
module Views {
  import opened Wrappers
  import opened Dates
  import opened Entities

  // ----- CSV export -----

  /** The header row of the export: one column name per cell of a task's row. */
  function Kopfzeile(): (h: seq<string>)
    ensures |h| == 6
    ensures forall name, a :: |AufgabenZeile(name, a)| == |h|
  {
    ["Modul", "Aufgabe", "Beschreibung", "Fälligkeitsdatum", "Priorität", "Status"]
  }

  /** The row of one task: `aufgabe.faelligkeitsdatum or ''` is the date or the empty text, and
      the status is `Erledigt` for a completed task and `Offen` for an open one. */
  function AufgabenZeile(name: string, a: Aufgabe): (r: seq<string>)
    ensures |r| == 6 && r[0] == name && r[1] == a.titel && r[2] == a.beschreibung && r[4] == a.prioritaet
    ensures r[3] == (if a.faelligkeitsdatum.Some? then a.faelligkeitsdatum.value else "")
    ensures r[5] == "Erledigt" <==> a.erledigt
    ensures r[5] == "Offen" <==> !a.erledigt
  {
    [name, a.titel, a.beschreibung,
     if a.faelligkeitsdatum.Some? then a.faelligkeitsdatum.value else "",
     a.prioritaet,
     if a.erledigt then "Erledigt" else "Offen"]
  }

  /** The rows of one module's tasks, in task order. */
  function AufgabenZeilen(name: string, s: seq<Aufgabe>): (r: seq<seq<string>>)
    ensures |r| == |s|
    ensures forall k :: 0 <= k < |r| ==> |r[k]| == 6 && r[k][0] == name
  {
    if s == [] then [] else AufgabenZeilen(name, s[..|s| - 1]) + [AufgabenZeile(name, s[|s| - 1])]
  }

  /** The rows of one module: one per task, or a single padded row when it has none. */
  function ModulZeilen(m: Modul): (r: seq<seq<string>>)
    ensures r != []
    ensures forall k :: 0 <= k < |r| ==> |r[k]| == 6 && r[k][0] == m.name
  {
    if m.aufgaben == [] then [[m.name, "", "", "", "", ""]] else AufgabenZeilen(m.name, m.aufgaben)
  }

  /** The data rows of the export, module after module. */
  function CsvZeilen(ms: seq<Modul>): (r: seq<seq<string>>)
    ensures forall k :: 0 <= k < |r| ==> |r[k]| == 6
  {
    if ms == [] then [] else CsvZeilen(ms[..|ms| - 1]) + ModulZeilen(ms[|ms| - 1])
  }

  lemma CsvZeilenPrefix(ms: seq<Modul>, i: nat)
    requires i < |ms|
    ensures CsvZeilen(ms[..i + 1]) == CsvZeilen(ms[..i]) + ModulZeilen(ms[i])
  {
    assert ms[..i + 1][..i] == ms[..i];
  }

  /** Everything `export_csv` writes: the header, then the data rows. */
  function CsvDatei(ms: seq<Modul>): (r: seq<seq<string>>)
    ensures r != [] && r[0] == Kopfzeile()
    ensures forall k :: 0 <= k < |r| ==> |r[k]| == |Kopfzeile()|
    ensures r[1..] == CsvZeilen(ms)
  {
    [Kopfzeile()] + CsvZeilen(ms)
  }

  /** How many rows a module contributes. */
  function ZeilenVon(m: Modul): nat
  {
    if m.aufgaben == [] then 1 else |m.aufgaben|
  }

  /** How many data rows the modules contribute: where the rows of module `i` start in
      `CsvZeilen(ms)` is `ZeilenAnzahl(ms[..i])`. */
  function ZeilenAnzahl(ms: seq<Modul>): nat
  {
    if ms == [] then 0 else ZeilenAnzahl(ms[..|ms| - 1]) + ZeilenVon(ms[|ms| - 1])
  }

  lemma {:induction false} AufgabenZeilenAt(name: string, s: seq<Aufgabe>, j: nat)
    requires j < |s|
    ensures |AufgabenZeilen(name, s)| == |s|
    ensures AufgabenZeilen(name, s)[j] == AufgabenZeile(name, s[j])
  {
    if j < |s| - 1 {
      AufgabenZeilenAt(name, s[..|s| - 1], j);
    } else if |s| > 1 {
      AufgabenZeilenAt(name, s[..|s| - 1], 0);
    }
  }

  lemma {:induction false} ModulZeilenLength(m: Modul)
    ensures |ModulZeilen(m)| == ZeilenVon(m)
  {
    if m.aufgaben != [] {
      AufgabenZeilenAt(m.name, m.aufgaben, 0);
    }
  }

  /** The export has exactly one data row per task, plus one for each module without tasks. */
  lemma {:induction false} CsvZeilenLength(ms: seq<Modul>)
    ensures |CsvZeilen(ms)| == ZeilenAnzahl(ms)
  {
    if ms != [] {
      CsvZeilenLength(ms[..|ms| - 1]);
      ModulZeilenLength(ms[|ms| - 1]);
    }
  }

  /** Task `j` of module `i` is the row at offset `j` of that module's block, and a module
      without tasks has the row `[name, '', '', '', '', '']` at the start of its block. */
  lemma {:induction false} CsvZeileAt(ms: seq<Modul>, i: nat, j: nat)
    requires i < |ms| && (ms[i].aufgaben == [] ==> j == 0) && (ms[i].aufgaben != [] ==> j < |ms[i].aufgaben|)
    ensures ZeilenAnzahl(ms[..i]) + j < |CsvZeilen(ms)|
    ensures ms[i].aufgaben == [] ==> CsvZeilen(ms)[ZeilenAnzahl(ms[..i])] == [ms[i].name, "", "", "", "", ""]
    ensures ms[i].aufgaben != [] ==>
      CsvZeilen(ms)[ZeilenAnzahl(ms[..i]) + j] == AufgabenZeile(ms[i].name, ms[i].aufgaben[j])
  {
    var init := ms[..|ms| - 1];
    CsvZeilenLength(ms);
    CsvZeilenLength(init);
    ModulZeilenLength(ms[|ms| - 1]);
    if i < |ms| - 1 {
      assert init[..i] == ms[..i];
      CsvZeileAt(init, i, j);
    } else {
      assert ms[..i] == init;
      if ms[i].aufgaben != [] {
        AufgabenZeilenAt(ms[i].name, ms[i].aufgaben, j);
      }
    }
  }

  /** Every data row has the six columns of the header, starts with a module's name, and has
      status `Erledigt`, `Offen` or, for a module without tasks, the empty text. */
  lemma {:induction false} CsvZeilenShape(ms: seq<Modul>, k: nat)
    requires k < |CsvZeilen(ms)|
    ensures |CsvZeilen(ms)[k]| == |Kopfzeile()|
    ensures exists i :: 0 <= i < |ms| && CsvZeilen(ms)[k][0] == ms[i].name
    ensures CsvZeilen(ms)[k][5] in {"Erledigt", "Offen", ""}
  {
    var init := ms[..|ms| - 1];
    var last := ms[|ms| - 1];
    if k < |CsvZeilen(init)| {
      CsvZeilenShape(init, k);
      var i :| 0 <= i < |init| && CsvZeilen(init)[k][0] == init[i].name;
      assert ms[i] == init[i];
    } else {
      var j := k - |CsvZeilen(init)|;
      assert CsvZeilen(ms)[k] == ModulZeilen(last)[j];
      if last.aufgaben != [] {
        ModulZeilenLength(last);
        AufgabenZeilenAt(last.name, last.aufgaben, j);
      }
      assert CsvZeilen(ms)[k][0] == ms[|ms| - 1].name;
    }
  }

  // ----- calendar -----

  /** One entry of the calendar list: `(aufgabe_datum, aufgabe, modul)`. */
  datatype Termin = Termin(datum: Date, aufgabe: Aufgabe, modul: Modul)

  /** The condition of the calendar view, as written: open and due this month of this year,
      open and due in month `heute.month + 1` of this year, or open and due in an earlier month
      number of any year. */
  predicate ImKalender(d: Date, a: Aufgabe, heute: Date)
    ensures ImKalender(d, a, heute) ==> !a.erledigt
  {
    (d.month == heute.month && d.year == heute.year && !a.erledigt)
    || (d.month == heute.month + 1 && d.year == heute.year && !a.erledigt)
    || (d.month < heute.month && !a.erledigt)
  }

  /** The calendar entries of one module's tasks, in task order: tasks with a parsable due date
      that meet the condition. */
  function TermineVon(m: Modul, s: seq<Aufgabe>, heute: Date): (r: seq<Termin>)
    ensures forall t :: t in r ==> t.modul == m && ImKalender(t.datum, t.aufgabe, heute)
  {
    if s == [] then []
    else
      var a := s[|s| - 1];
      var f := Faelligkeit(a);
      TermineVon(m, s[..|s| - 1], heute)
        + (if f.Some? && ImKalender(f.value, a, heute) then [Termin(f.value, a, m)] else [])
  }

  /** The list `monatliche_aufgaben` before it is sorted. */
  function Kandidaten(ms: seq<Modul>, heute: Date): (r: seq<Termin>)
    ensures forall t :: t in r ==> t.modul in ms && ImKalender(t.datum, t.aufgabe, heute)
  {
    if ms == [] then [] else Kandidaten(ms[..|ms| - 1], heute) + TermineVon(ms[|ms| - 1], ms[|ms| - 1].aufgaben, heute)
  }

  /** A task of a module is in that module's entries exactly when it has a parsable due date
      meeting the condition; every entry comes from such a task. */
  lemma {:induction false} TermineVonSpec(m: Modul, s: seq<Aufgabe>, heute: Date, t: Termin)
    ensures t in TermineVon(m, s, heute) <==>
      t.modul == m && t.aufgabe in s && Faelligkeit(t.aufgabe) == Some(t.datum) && ImKalender(t.datum, t.aufgabe, heute)
  {
    if s != [] {
      TermineVonSpec(m, s[..|s| - 1], heute, t);
      LastSplit(s);
    }
  }

  /** An entry is in the unsorted calendar list exactly when it is made of a module of the list,
      one of its tasks with a parsable due date, and that date, meeting the condition. */
  lemma {:induction false} KandidatenSpec(ms: seq<Modul>, heute: Date, t: Termin)
    ensures t in Kandidaten(ms, heute) <==>
      t.modul in ms && t.aufgabe in t.modul.aufgaben
      && Faelligkeit(t.aufgabe) == Some(t.datum) && ImKalender(t.datum, t.aufgabe, heute)
  {
    if ms != [] {
      var last := ms[|ms| - 1];
      KandidatenSpec(ms[..|ms| - 1], heute, t);
      TermineVonSpec(last, last.aufgaben, heute, t);
      LastSplit(ms);
    }
  }

  /** In December the "next month" disjunct asks for month 13 and never holds: what is shown
      is this December and every date whose month is January to November, of any year. */
  lemma DecemberWindow(d: Date, a: Aufgabe, heute: Date)
    requires IsValid(d) && heute.month == 12 && !a.erledigt
    ensures ImKalender(d, a, heute) <==> d.year == heute.year || d.month < 12
  {
  }

  /** In January only this year's January and February are shown: an overdue task of last
      December is not. */
  lemma JanuaryWindow(d: Date, a: Aufgabe, heute: Date)
    requires IsValid(d) && heute.month == 1 && !a.erledigt
    ensures ImKalender(d, a, heute) <==> d.year == heute.year && d.month <= 2
  {
  }

  /** The earlier-month disjunct ignores the year: an open task due in such a month is shown
      even when it is due years ahead. */
  lemma EarlierMonthAnyYear(d: Date, a: Aufgabe, heute: Date)
    requires !a.erledigt && d.month < heute.month
    ensures ImKalender(d, a, heute)
  {
  }

  /** Sorted ascending by date. */
  predicate Sortiert(s: seq<Termin>)
  {
    forall i, j :: 0 <= i < j < |s| ==> !Before(s[j].datum, s[i].datum)
  }

  /** The entries of `s` due on `d`, in their order in `s`. */
  function MitDatum(s: seq<Termin>, d: Date): seq<Termin>
  {
    if s == [] then []
    else MitDatum(s[..|s| - 1], d) + (if s[|s| - 1].datum == d then [s[|s| - 1]] else [])
  }

  /** Puts `t` behind every entry of `s` not due after it. */
  function Einfuegen(s: seq<Termin>, t: Termin): (r: seq<Termin>)
    ensures multiset(r) == multiset(s) + multiset{t}
  {
    if s == [] then [t]
    else if Before(t.datum, s[|s| - 1].datum) then
      LastSplit(s);
      Einfuegen(s[..|s| - 1], t) + [s[|s| - 1]]
    else
      LastSplit(s);
      s + [t]
  }

  /** `list.sort(key=lambda x: x[0])`: a stable sort by date, here by insertion. */
  function NachDatum(s: seq<Termin>): (r: seq<Termin>)
    ensures multiset(r) == multiset(s)
  {
    if s == [] then []
    else
      LastSplit(s);
      Einfuegen(NachDatum(s[..|s| - 1]), s[|s| - 1])
  }

  lemma {:induction false} EinfuegenSortiert(s: seq<Termin>, t: Termin)
    requires Sortiert(s)
    ensures Sortiert(Einfuegen(s, t))
  {
    if s != [] && Before(t.datum, s[|s| - 1].datum) {
      var init, last := s[..|s| - 1], s[|s| - 1];
      EinfuegenSortiert(init, t);
      var r := Einfuegen(init, t);
      forall x | x in r ensures !Before(last.datum, x.datum) {
        assert x in multiset(r);
        if x != t {
          assert x in init;
          var i :| 0 <= i < |init| && init[i] == x;
          assert s[i] == x;
        }
      }
      forall i, j | 0 <= i < j < |r + [last]| ensures !Before((r + [last])[j].datum, (r + [last])[i].datum) {
        if j == |r| {
          assert (r + [last])[i] in r;
        }
      }
    }
  }

  lemma {:induction false} NachDatumSortiert(s: seq<Termin>)
    ensures Sortiert(NachDatum(s))
  {
    if s != [] {
      NachDatumSortiert(s[..|s| - 1]);
      EinfuegenSortiert(NachDatum(s[..|s| - 1]), s[|s| - 1]);
    }
  }

  lemma MitDatumAppend(s: seq<Termin>, t: Termin, d: Date)
    ensures MitDatum(s + [t], d) == MitDatum(s, d) + (if t.datum == d then [t] else [])
  {
    assert (s + [t])[..|s|] == s;
  }

  lemma {:induction false} EinfuegenStabil(s: seq<Termin>, t: Termin, d: Date)
    ensures MitDatum(Einfuegen(s, t), d) == MitDatum(s, d) + (if t.datum == d then [t] else [])
  {
    if s == [] {
      MitDatumAppend([], t, d);
    } else if Before(t.datum, s[|s| - 1].datum) {
      var init, last := s[..|s| - 1], s[|s| - 1];
      EinfuegenStabil(init, t, d);
      MitDatumAppend(Einfuegen(init, t), last, d);
      assert t.datum == d ==> last.datum != d;
    } else {
      MitDatumAppend(s, t, d);
    }
  }

  /** Stability: entries due on the same date keep their relative order. */
  lemma {:induction false} NachDatumStabil(s: seq<Termin>, d: Date)
    ensures MitDatum(NachDatum(s), d) == MitDatum(s, d)
  {
    if s != [] {
      NachDatumStabil(s[..|s| - 1], d);
      EinfuegenStabil(NachDatum(s[..|s| - 1]), s[|s| - 1], d);
    }
  }

  // ----- dashboard -----

  /** The three totals of the dashboard. */
  datatype Zahlen = Zahlen(aufgaben: nat, erledigt: nat, ueberfaellig: nat)

  function Plus(a: Zahlen, b: Zahlen): Zahlen
  {
    Zahlen(a.aufgaben + b.aufgaben, a.erledigt + b.erledigt, a.ueberfaellig + b.ueberfaellig)
  }

  /** One module's share of the totals. */
  function ModulZahlen(m: Modul, heute: Date): (z: Zahlen)
    ensures z.erledigt + z.ueberfaellig <= z.aufgaben
  {
    Zahlen(|m.aufgaben|, Erledigte(m.aufgaben), Ueberfaellige(m.aufgaben, heute))
  }

  /** `gesamt_aufgaben`, `gesamt_erledigt` and `gesamt_ueberfaellig`: completed and overdue
      tasks together never outnumber the tasks, because an overdue task is open. */
  function Dashboard(ms: seq<Modul>, heute: Date): (z: Zahlen)
    ensures z.erledigt + z.ueberfaellig <= z.aufgaben
  {
    if ms == [] then Zahlen(0, 0, 0)
    else Plus(Dashboard(ms[..|ms| - 1], heute), ModulZahlen(ms[|ms| - 1], heute))
  }

  /** Replacing one module changes the totals by the difference of the two modules' shares. */
  lemma {:induction false} DashboardUpdate(ms: seq<Modul>, k: nat, m: Modul, heute: Date)
    requires k < |ms|
    ensures Plus(Dashboard(ms[k := m], heute), ModulZahlen(ms[k], heute))
         == Plus(Dashboard(ms, heute), ModulZahlen(m, heute))
  {
    var n := ms[k := m];
    var init := ms[..|ms| - 1];
    DashboardLast(n, heute);
    DashboardLast(ms, heute);
    if k < |ms| - 1 {
      assert n[..|n| - 1] == init[k := m];
      assert n[|n| - 1] == ms[|ms| - 1];
      assert init[k] == ms[k];
      DashboardUpdate(init, k, m, heute);
      var d, e, l := Dashboard(init[k := m], heute), Dashboard(init, heute), ModulZahlen(ms[|ms| - 1], heute);
      var x, y := ModulZahlen(ms[k], heute), ModulZahlen(m, heute);
      assert Plus(d, x) == Plus(e, y);
      PlusSwap(d, l, x, e, y);
    } else {
      assert n[..|n| - 1] == init;
      assert n[|n| - 1] == m;
    }
  }

  lemma PlusSwap(d: Zahlen, l: Zahlen, x: Zahlen, e: Zahlen, y: Zahlen)
    requires Plus(d, x) == Plus(e, y)
    ensures Plus(Plus(d, l), x) == Plus(Plus(e, l), y)
  {
  }

  lemma DashboardLast(ms: seq<Modul>, heute: Date)
    requires ms != []
    ensures Dashboard(ms, heute) == Plus(Dashboard(ms[..|ms| - 1], heute), ModulZahlen(ms[|ms| - 1], heute))
  {
  }

  /** Removing one module takes its share off the totals. */
  lemma {:induction false} DashboardRemove(ms: seq<Modul>, k: nat, heute: Date)
    requires k < |ms|
    ensures Plus(Dashboard(ms[..k] + ms[k + 1..], heute), ModulZahlen(ms[k], heute)) == Dashboard(ms, heute)
  {
    var n := ms[..k] + ms[k + 1..];
    if k < |ms| - 1 {
      var init := ms[..|ms| - 1];
      assert n[..|n| - 1] == init[..k] + init[k + 1..];
      assert n[|n| - 1] == ms[|ms| - 1];
      assert init[k] == ms[k];
      DashboardRemove(init, k, heute);
      var a, b, c := Dashboard(init[..k] + init[k + 1..], heute), ModulZahlen(ms[|ms| - 1], heute), ModulZahlen(ms[k], heute);
      DashboardLast(n, heute);
      DashboardLast(ms, heute);
    } else {
      assert n == ms[..|ms| - 1];
    }
  }
}
