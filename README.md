# Studienplaner in Dafny

A model of the core of the study planner `main.py`. Users keep course modules (`Modul`),
each owning a list of tasks (`Aufgabe`) with an optional due date, a priority and a
completion flag. The application object `StudienplanerApp` holds the module list and the
selected module, loads and saves the module list as a JSON document, exports it as CSV rows, lists
open tasks in a calendar view, and totals all tasks, the completed ones and the overdue ones,
on a dashboard.

The project has six modules:

- `Wrappers` (`wrappers.dfy`): `Option`, `Result`, and one sequence fact.
- `Text` (`text.dfy`): Python's `str.strip()` over the characters `str.isspace()`
  accepts, and what "blank" means.
- `Dates` (`dates.dfy`): `datetime.date` values, their ISO text `YYYY-MM-DD`, and a parser
  standing in for `datetime.fromisoformat(s).date()`. Leap years and month lengths are
  included; years run from 1 to 9999.
- `Entities` (`entities.dfy`): the two records, `get_fortschritt`, `ist_ueberfaellig`,
  `to_dict`/`from_dict` with their defaults, and the saved JSON document.
- `Views` (`views.dfy`): the read-only projections. These are the CSV rows of `export_csv`,
  the filter and sort of the calendar view, and the dashboard totals.
- `Planer` (`planer.dfy`): the class `App` for `StudienplanerApp`. Its methods modify the
  module list and the selection the way the Flet event handlers do, with rejected input left
  as a no-op. `App.ExportCsv` builds the rows of `export_csv` through the module-level method
  `CsvZeilenSchreiben`, which holds the outer export loop, and `App.Kalender` holds the outer
  loop of `aktualisiere_kalender`. Lemmas beside them say how each mutation moves the dashboard
  totals.

"Today" and "now" are parameters: `heute: Date` stands for `date.today()` and
`jetzt: string` for `datetime.now().isoformat()`.

The calendar view's heading (main.py:588) promises overdue tasks and those due from today to
the end of next month. The code at main.py:597-599 shows an open task when one of these holds:

- it is due in this month of this year;
- it is due in month number `heute.month + 1` of this year;
- it is due in a month whose number is smaller than today's, in any year.

In December the next-month disjunct asks for month 13 and never holds. Next January's tasks
still appear through the earlier-month disjunct, like the January-to-November tasks of every
year (`DecemberWindow`). In January,
last December's overdue tasks are not shown (`JanuaryWindow`). An open task in an earlier
month number is shown even when it is due years ahead (`EarlierMonthAnyYear`).

## Model

| member | source | states |
|---|---|---|
| Text.Strip | main.py:177 | the stripped text is no longer than the input and neither starts nor ends with whitespace |
| Text.StripShape | main.py:177 | `strip()` returns a contiguous piece of the input, with only whitespace before and after it, that neither starts nor ends with whitespace |
| Text.StripEmptyIffBlank | main.py:177 | the stripped text is empty exactly when the text is empty or whitespace only, which is the guard `modul_name.value and modul_name.value.strip()` |
| Dates.DaysInMonth | main.py:74 | every month has 28 to 31 days, and 29 exactly for February of a leap year |
| Dates.IsValid | main.py:74 | a date `datetime.date` accepts has a day of at most 31, at most 29 in February, and 29 February only in a leap year |
| Dates.Before | main.py:75 | the date `<` that decides overdue and orders the calendar sort (main.py:604); on valid dates it holds exactly when the first date comes earlier in the calendar |
| Dates.Padded | main.py:109 | `isoformat` writes each field as exactly `width` decimal digits |
| Dates.NumberOfPadded | main.py:109 | reading back a zero-padded field gives the number, when it fits in the width |
| Dates.PaddedOfNumber | main.py:74 | a digit field read as a number and written back with the same width is the field itself |
| Dates.Format | main.py:109 | `isoformat()` writes ten characters of the shape `YYYY-MM-DD`, digits and two dashes |
| Dates.Parse | main.py:74 | `fromisoformat` accepts a text only if it is the ISO form of a valid date, that date is the result, and a text that is no valid date's ISO form is rejected |
| Dates.NoValidDateFormatsTo | main.py:74 | text of the shape `YYYY-MM-DD` whose fields do not form a valid date is the ISO form of no date |
| Dates.ParseFormat | main.py:74 | every valid date's `isoformat()` text parses back to that date |
| Entities.Faelligkeit | main.py:71-74 | a task has a parsed due date only when its text is present, not empty, and parses; a text that parses always gives that date |
| Entities.IstUeberfaellig | main.py:70-77 | overdue exactly when open and the due date parses to a date strictly before today; never for a task without a date, a completed task or an unparsable date |
| Entities.Erledigte | main.py:36 | the number of completed tasks is at most the number of tasks |
| Entities.ErledigteExtremes | main.py:36 | the count is 0 exactly when no task is completed, and equals the number of tasks exactly when all are |
| Entities.Ueberfaellige | main.py:667 | completed and overdue tasks together never outnumber the tasks |
| Entities.ZaehlerUpdate | main.py:473 | replacing one task changes the completed and overdue counts by the difference between the old and the new task |
| Entities.ZaehlerRemove | main.py:481 | deleting one task takes off exactly its own contribution to both counts |
| Entities.Fortschritt | main.py:33-37 | progress is 0 without tasks, otherwise completed/total. It lies in [0, 1] and is 1 exactly when there are tasks and all are completed |
| Entities.AufgabeToDict | main.py:48-56 | `to_dict` writes exactly the six keys of a task |
| Entities.AufgabeFromDict | main.py:58-68 | loading fails exactly when the value is not a dictionary, `titel` is missing (a `KeyError`), or a present key has the wrong type. Otherwise every present key is stored, and an absent one takes its default: `""`, `None`, `"Normal"`, `False` and the current time |
| Entities.AufgabeNurTitel | main.py:60-67 | a dictionary holding only `titel` loads as an open task with no description and no due date, priority `Normal` and the current time |
| Entities.AufgabeRoundTrip | main.py:48-68 | `from_dict(to_dict(a))` gives back every field of a task |
| Entities.AufgabenToJson | main.py:22 | the list holds `to_dict()` of each task, in task order |
| Entities.AufgabenFromJson | main.py:30 | the list loads exactly when every dictionary of it loads, and then task `k` is `from_dict` of dictionary `k` |
| Entities.AufgabenRoundTrip | main.py:22 | the task list of a module survives the round trip, in order |
| Entities.ModulToDict | main.py:17-24 | `to_dict` writes exactly the five keys of a module |
| Entities.ModulFromDict | main.py:26-31 | loading fails exactly when the value is not a dictionary, `name` is missing (a `KeyError`), a present key has the wrong type, or a task fails to load. Otherwise every present key is stored, and an absent one takes its default: colour `#2196F3`, `""`, no tasks and the current time |
| Entities.ModulNurName | main.py:28-30 | a dictionary holding only `name` loads as a module with colour `#2196F3`, no description, no tasks and the current time |
| Entities.ModulRoundTrip | main.py:17-31 | `from_dict(to_dict(m))` gives back every field of a module, its tasks included |
| Entities.ModuleToJson | main.py:98 | the list holds `to_dict()` of each module, in order |
| Entities.ModuleFromJson | main.py:91 | the list loads exactly when every dictionary of it loads, and then module `k` is `from_dict` of dictionary `k` |
| Entities.ModuleRoundTrip | main.py:91 | the whole module list survives the round trip, in order |
| Entities.Dokument | main.py:97-100 | the saved document has exactly the keys `module` and `gespeichert_am`; `module` holds `to_dict()` of every module and `gespeichert_am` the time of saving |
| Entities.ModuleAusDokument | main.py:90-91 | a document that is not an object is an error, and one without `module` loads as no modules. A present `module` list loads as `from_dict` of each entry, in order (through `ModuleFromJson`), and a present `module` value that is no list is an error |
| Entities.DokumentRoundTrip | main.py:86-100 | loading what `daten_speichern` wrote gives the same modules, whatever the two timestamps |
| Views.Kopfzeile | main.py:112 | the header row has six column names, one for each cell of a task's row |
| Views.AufgabenZeile | main.py:118-125 | a task row has six cells: module name, title, description, the date or `''`, priority, and `Erledigt` exactly for a completed task, `Offen` exactly for an open one |
| Views.AufgabenZeilen | main.py:117-125 | a module with tasks writes one row per task, each six cells wide and starting with the module's name |
| Views.ModulZeilen | main.py:115-131 | every module writes at least one row, each six cells wide and starting with the module's name |
| Views.CsvZeilen | main.py:114-131 | every data row is six cells wide |
| Views.CsvDatei | main.py:112-131 | the file starts with the header, followed by exactly the data rows, and every row has as many cells as the header |
| Views.AufgabenZeilenAt | main.py:117-125 | a module with tasks writes one row per task, the `j`-th row for the `j`-th task |
| Views.ModulZeilenLength | main.py:115-131 | a module writes one row per task, or one row when it has none |
| Views.CsvZeilenLength | main.py:114-131 | the data rows number one per task plus one per module without tasks |
| Views.CsvZeileAt | main.py:114-131 | the rows of module `i` follow those of the modules before it. Task `j`'s row is at offset `j`, and a module without tasks has `[name, '', '', '', '', '']` |
| Views.CsvZeilenShape | main.py:112-131 | every data row has the header's six columns, starts with a module's name, and has status `Erledigt`, `Offen` or `''` |
| Views.ImKalender | main.py:597-599 | the window condition holds only for open tasks |
| Views.TermineVon | main.py:593-600 | every entry collected from a module's tasks carries that module and meets the window condition |
| Views.Kandidaten | main.py:591-602 | every entry of the unsorted list comes from a module of the list and meets the window condition |
| Views.TermineVonSpec | main.py:593-602 | an entry is collected from a module's tasks exactly when its task is one of them, its due date parses to the entry's date, and the window condition holds |
| Views.KandidatenSpec | main.py:591-602 | an entry is in the unsorted list exactly when its module is in the list, its task in that module, its date the task's parsed due date, and the window condition holds |
| Views.DecemberWindow | main.py:597-599 | in December the window is this year's December plus every January-to-November date of any year |
| Views.JanuaryWindow | main.py:597-599 | in January only this year's January and February are shown |
| Views.EarlierMonthAnyYear | main.py:599 | an open task in an earlier month number is shown whatever its year |
| Views.Einfuegen | main.py:604 | inserting an entry adds exactly that entry to the multiset |
| Views.NachDatum | main.py:604 | sorting is a permutation |
| Views.EinfuegenSortiert | main.py:604 | inserting into a sorted list keeps it sorted |
| Views.NachDatumSortiert | main.py:604 | the sorted list is ascending by date |
| Views.EinfuegenStabil | main.py:604 | insertion keeps the relative order of entries with the same date |
| Views.NachDatumStabil | main.py:604 | the sort is stable: entries with the same date keep their original relative order |
| Views.ModulZahlen | main.py:665-667 | one module's completed and overdue tasks together never outnumber its tasks |
| Views.Dashboard | main.py:665-667 | completed plus overdue never exceeds the total number of tasks |
| Views.DashboardUpdate | main.py:665-667 | replacing one module moves the totals by the difference of the two modules' shares |
| Views.DashboardRemove | main.py:665-667 | removing one module takes exactly its share off the totals |
| Planer.NeueAufgabe | main.py:263-278 | a new task has the stripped title and description and is open. Its date is kept, stripped, exactly when it parses, and a kept date always yields `Faelligkeit` |
| Planer.IndexOf | main.py:343 | `list.remove` acts on the first element equal to the removed module |
| Planer.OhneModul | main.py:343 | `list.remove` takes out the first module equal to `m`. The modules before it stay in place, those after it move up by one, and exactly one copy of `m` leaves the multiset |
| Planer.Umgeschaltet | main.py:473 | toggling flips one task's flag and leaves every other field, task and module as it was |
| Planer.OhneAufgabe | main.py:481 | `del aufgaben[i]` removes task `i` of one module and leaves the other modules untouched |
| Planer.ExportDateiName | main.py:109 | the export file name is `studienplaner_export_` + 10 characters + `.csv`, and those 10 characters parse back to the export date |
| Planer.UmschaltenDashboard | main.py:473 | toggling keeps the task total and moves the completed total by one in the direction of the flip. It moves the overdue total by exactly the difference between the task before and after the flip, so an overdue task toggled to completed leaves the overdue total |
| Planer.UmschaltenInvolution | main.py:473 | toggling the same task twice restores the module list |
| Planer.AufgabeHinzufuegenDashboard | main.py:279 | adding a new open task adds one task, no completed task, and one overdue task exactly when it is already overdue |
| Planer.AnhaengenZahlen | main.py:279 | appending a task to a module adds one task, its completion and its overdueness to that module's share |
| Planer.AufgabeLoeschenDashboard | main.py:481 | deleting a task takes it off every total it counted in |
| Planer.ModulLoeschenDashboard | main.py:342-344 | deleting a module takes all its tasks off the totals |
| Planer.ModulHinzufuegenDashboard | main.py:187 | a newly added module, which has no tasks, leaves the totals unchanged |
| Planer.ModulZeilenSchreiben | main.py:115-131 | the inner loop of the export writes exactly the rows of one module |
| Planer.CsvZeilenSchreiben | main.py:114-131 | the outer loop of the export writes the rows of all modules, module by module |
| Planer.TermineSammeln | main.py:593-602 | the inner loop of the calendar collects exactly one module's entries, in task order |
| Planer.App.constructor | main.py:80-82 | the application starts with no modules and nothing selected |
| Planer.App.Laden | main.py:86-93 | loading replaces the list with the loaded modules exactly when the document loads; on an error the list stays |
| Planer.App.Speichern | main.py:95-100 | the document is the one `daten_speichern` writes for the current modules, and it loads back as the current module list |
| Planer.App.ModulHinzufuegen | main.py:176-187 | a blank name changes nothing; otherwise one module with stripped name and description, the chosen colour and no tasks is appended; the selection stays |
| Planer.App.ModulAuswaehlen | main.py:423-424 | selecting makes the given module the selected one and changes no module |
| Planer.App.ModulLoeschen | main.py:342-344 | a module not in the list changes nothing. Otherwise its first occurrence is removed, and the selection is cleared exactly when it was the deleted module. A kept selection still designates the same module |
| Planer.App.AufgabeHinzufuegen | main.py:263-279 | with a module selected and a title that is not blank, exactly the task `NeueAufgabe` builds is appended to the selected module; otherwise nothing changes |
| Planer.App.AufgabeUmschalten | main.py:472-473 | with a module selected and an index in range, exactly that task's flag flips; otherwise nothing changes |
| Planer.App.AufgabeLoeschen | main.py:480-481 | with a module selected and an index in range, exactly that task is deleted; otherwise nothing changes |
| Planer.App.ExportCsv | main.py:106-133 | the header and then every data row, in module and task order, and the file name of the export date |
| Planer.App.Kalender | main.py:584-604 | the calendar list is sorted by date and is a permutation of the collected entries. Same-dated entries keep module and task order, and an entry is listed exactly when its module is in the list, its task is in the module, its date parses and the window condition holds |

## Left out

- The Flet user interface is not modelled: dialogs, cards, colours, snackbars, keyboard shortcuts, view switching and the colour and priority maps. The handlers are modelled only as the state changes they make.
- Reading and writing files is not modelled. `Planer.App.Laden` takes the already parsed JSON document, and `Planer.App.Speichern` returns the document `json.dump` would write. A missing file, a file that does not parse, and `print` of errors are left out.
- `Planer.App.ExportCsv` returns the rows `csv.writer` would write instead of writing a file. CSV quoting is left out.
- The clock is not modelled. `date.today()` and `datetime.now().isoformat()` are parameters, and timestamps are opaque text.
- `Dates.Parse` accepts only the date form `YYYY-MM-DD`. `datetime.fromisoformat` also accepts a date followed by a time, such as `2025-03-14T12:00` or `2025-03-14 12:00`, and from Python 3.11 on also the basic
form `20250314` and ISO week dates such as `2025-W11-5`. At main.py:266-269 the application stores any such text as a due date, and main.py:74 and main.py:596 use its date part. For that input `Planer.NeueAufgabe` stores no due date where Python stores one. Such a task is then never overdue and never in the calendar, and its CSV date cell is `''`.
- `Entities.Fortschritt` is a Dafny `real`, an exact quotient, where Python computes a binary float. The percentage display built from it is left out.
- `Entities.AufgabeFromDict` and `Entities.ModulFromDict` reject a value of the wrong JSON type with `WrongType`, where Python would store it unchecked. A wrong type inside the `module` list of the document is likewise an error. `Entities.Json`
has no number case, so a document holding a JSON number (such as `"erledigt": 1`, which
Python stores) cannot be represented at all. An empty object or an empty string under
`module` or `aufgaben` loads in Python as an empty list, because iterating it yields
nothing; `Entities.ModuleAusDokument` and `Entities.ModulFromDict` return `WrongType` for it.
- `Planer.App.ModulLoeschen` compares modules by value, where Python's `in`, `remove` and `==` on `Modul` compare object identity. Two modules have equal values only if their creation timestamps are equal too.
- `Planer.App` holds the selected module as its position in the list rather than as a reference to it, because the handlers modify the selected module through `aktuelles_modul` and the list at once.
- `Planer.App.Laden` requires that no module is selected, because loading happens at start-up before a module is selected.
- `Planer.App.AufgabeHinzufuegen`, `Planer.App.AufgabeUmschalten` and `Planer.App.AufgabeLoeschen` treat a missing selection and an index out of range as no-ops. In Python these raise `AttributeError` or `IndexError` inside the event handler, and nothing changes.
- `Views.NachDatum` models `list.sort(key=...)` as a stable insertion sort on a sequence rather than Timsort in place. Its own contract states the permutation. `Views.NachDatumSortiert` and `Views.NachDatumStabil` add sortedness and stability, and the three together pin down the result `list.sort` gives.
- The loops of `export_csv` are module-level methods: `Planer.CsvZeilenSchreiben` is the outer loop, which `Planer.App.ExportCsv` calls, and `Planer.ModulZeilenSchreiben` the inner one it calls. The inner loop of the calendar view is `Planer.TermineSammeln`, called from the outer loop in `Planer.App.Kalender`.
- `Views.Dashboard` states the bound on the totals. The relation of each total to the sum over the modules is carried by `Views.DashboardUpdate` and `Views.DashboardRemove` rather than by its own ensures.
- The per-module counts shown in the module list (main.py:336-338) are `Entities.Fortschritt`, `Entities.Erledigte` and the length of the task list. No separate member models them.
