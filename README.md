# Geolocation CSV Reader — a Dafny model of its data core

The Geolocation CSV Reader is a small desktop application: the user opens a CSV
file, picks in a modal dialog which columns hold the latitude, the longitude and
a title, and the main window stores one geolocation record per table row and
shows them as pins on an embedded Leaflet map centred on their mean position.

This project models the part of it that has a contract:

- `csv_map.dfy`, module `CsvMap` (from `main.py`): the application status
  (`Unload`, `Load`, `Action`), the `GeoLocation` record, and the class
  `MainWindow` with its fields `df` (the loaded table, or none), `geolocations`
  and `status`, plus `view`, an abstraction of what the map view shows. The
  operations New, Close and Open reset and load; `SaveData` walks the rows in
  order and appends one record per row, then moves to `Action` and calls
  `LoadMap`, which renders only in `Action`, centred on the fallback point
  (40.712776, -74.005974) for an empty list and on the mean latitude and mean
  longitude otherwise. The window keeps an invariant (`MainWindow.Valid`):
  `Unload` means no table and no records, `Load` means a table and no records
  yet, `Action` means a table, and a rendered map always shows the current
  records around their centre.
- `column_selection.dfy`, module `ColumnSelection` (from
  `column_selection_dialog.py`): the three selectors (each a `Combo`: items and
  current position), their filling with the table's columns, the case-sensitive
  preselection of `Latitude`, `Longitude` and `Title`, the Save-enable rule
  `SaveEnabled` (no choice is the sentinel `"Select"`, all three pairwise
  different), the recomputation of that flag on every change of a selection
  (and not on the initial preselection, so Save starts enabled), and the
  hand-off of the three names, latitude first, to `MainWindow.SaveData`.

Cells are kept as the CSV reader produced them (`Cell = Num | Text`); the code
converts nothing. Averaging is done over reals. A `Text` coordinate makes the
mean undefined (the sum of a string fails), which the model returns as
`NonNumeric` with the map left blank.

The code does not validate coordinates either. A failure while rendering
happens after the records were appended and the status set to `Action`. The
enable rule tests for the sentinel `"Select"`, not for an empty choice. The
preselection is not checked: Save is enabled on a fresh dialog whatever the
columns, and `PreselectionRule` says exactly for which tables the rule would
refuse the preselected choices.

## Model

| member | source | states |
|---|---|---|
| `CsvMap.Extracted` | main.py:141-145 | one record per row, as many records as rows, and record k holds row k's cells in the latitude, longitude and title columns, unconverted |
| `CsvMap.ExtractedAppend` | main.py:141-145 | extraction from two blocks of rows is the concatenation of the two extractions, so row order is kept across blocks |
| `CsvMap.Latitudes` | main.py:162 | the list of latitudes summed for the centre: one per record, in record order |
| `CsvMap.Longitudes` | main.py:163 | the list of longitudes summed for the centre: one per record, in record order |
| `CsvMap.Centre` | main.py:161-166 | a centre exists exactly when the list is empty or every coordinate is numeric; for the empty list it is the fallback (40.712776, -74.005974) |
| `CsvMap.CentreWithinBounds` | main.py:161-163 | the mean centre of a non-empty numeric list lies inside every latitude/longitude box that contains all its points |
| `CsvMap.CentreOfOnePlace` | main.py:161-163 | when all records share one position the centre is that position |
| `CsvMap.MainWindow.constructor` | main.py:26-33 | a new window has no table, an empty record list, status Unload, and keeps the window invariant |
| `CsvMap.MainWindow.NewData` | main.py:117-132 | whatever the prior state: no table, no records, status Unload, map placeholder shown |
| `CsvMap.MainWindow.CloseCsv` | main.py:109-115 | whatever the prior state: no table, no records, status Unload, map placeholder shown |
| `CsvMap.MainWindow.OpenCsv` | main.py:83-107 | always resets first; with no file chosen the window is in Unload with no records; a read failure is reported as ReadError after the reset; with a table it holds that table, status Load and still no records |
| `CsvMap.MainWindow.SaveData` | main.py:139-149 | with no table, or a missing column while there are rows, nothing changes and the first missing name, in the order latitude, longitude, title, is reported; otherwise exactly one record per row is appended in row order after the records already there, the status becomes Action, and the map is rendered around the centre of the whole list or left blank when a coordinate is not numeric |
| `CsvMap.MainWindow.LoadMap` | main.py:154-206 | does nothing unless the status is Action; in Action the map shows the current records, same length and order, around `Centre` of them, or is blank when no centre exists; restores the window invariant |
| `ColumnSelection.FindText` | column_selection_dialog.py:24-29 | the position of the first item exactly equal to the text, -1 exactly when the text is absent |
| `ColumnSelection.Combo.AddItem` | column_selection_dialog.py:18-21 | appends the item at the end; the first item added to an empty selector becomes the current one, later ones leave the current one alone |
| `ColumnSelection.Combo.SetCurrentText` | column_selection_dialog.py:24-29 | when the text is an item it becomes the current text; an absent text changes nothing; the items are unchanged |
| `ColumnSelection.Filled` | column_selection_dialog.py:18-21 | a selector filled from empty with the columns offers exactly those columns, in column order, and shows the first one |
| `ColumnSelection.SaveEnabled` | column_selection_dialog.py:49-55 | Save is enabled if and only if the three choices form a set of three names none of which is "Select": any two equal choices, or a column literally named "Select", disable it |
| `ColumnSelection.PreselectionRule` | column_selection_dialog.py:24-29 | the preselected choices satisfy the enable rule exactly when all three preset names are columns, or just one is missing and the first column, shown in its place, is neither "Select" nor one of the other preset names |
| `ColumnSelection.ShowDialog` | main.py:134-137 | the window opens the dialog on its own table; each selector shows its preselected column; Save starts enabled, and the enable rule agrees with that exactly when the preselection passes it |
| `ColumnSelection.ColumnSelectionDialog.constructor` | column_selection_dialog.py:5-41 | each selector offers exactly the table's columns in column order; a column named exactly Latitude, Longitude or Title is preselected in its selector, otherwise the first column (or nothing) shows; Save starts enabled and the dialog is open |
| `ColumnSelection.ColumnSelectionDialog.CheckSaveButton` | column_selection_dialog.py:43-55 | the Save flag becomes exactly the enable rule applied to the three current choices |
| `ColumnSelection.ColumnSelectionDialog.Choose` | column_selection_dialog.py:39-41 | on an open dialog, picking an item changes only that selector's choice; the Save flag is recomputed when the current item changes and kept when the same item is picked again |
| `ColumnSelection.ColumnSelectionDialog.SaveAndClose` | column_selection_dialog.py:57-64 | on an open dialog over the window's own table, passes the current latitude, longitude and title names, in that order, to the window's `SaveData`, which then cannot fail on a missing column; closes the dialog when that completes |

## Left out

- Qt widget work: window, menu, tabs, layouts, the raw-data table widget and its filling (main.py:97-103), the unused selectors and Save button of the main window (main.py:36-42, 124-130), the Exit action, and the `__main__` entry point. They only display.
- The file dialog and the CSV reader (main.py:89, 94): `OpenCsv` takes their result as a parameter (`NoFileChosen`, `ReadFailed`, or a table). A table always has unique column names, every row has exactly those columns, and a table without columns has no rows, as the reader guarantees.
- The modal run of the dialog at the end of `open_csv` (main.py:107, 134-137): the dialog is modelled as its own class, built on the loaded table by `ShowDialog`, with the user's actions as the methods `Choose` and `SaveAndClose`.
- The closing of the dialog from inside `save_data` (main.py:152): it closes the same dialog that `save_and_close` closes right after, so both are modelled by the one `accepted` flag that `SaveAndClose` sets when the extraction completed.
- The generated HTML/Leaflet page and its text rendering of the records (main.py:169-206): the view is abstracted as `Leaflet(center, markers)`, the page being a fixed template around those two values. Escaping and number formatting inside that text are not modelled.
- `CsvMap.Centre`: computes over mathematical reals, not IEEE doubles, so rounding of the sum and the division is not modelled; missing cells (NaN) and cell types other than numbers and strings are not modelled either.
- `CsvMap.MainWindow.constructor`: `df` is never assigned in the program's constructor; the model starts it as "no table", which behaves the same (any use of it fails before the first Open or after a reset).
- Outcomes other than `Done` (`ReadError`, `NoTable`, `MissingColumn`, `NonNumeric`) stand for an exception escaping a Qt slot, which in PyQt5 5.5 and later aborts the application. The model returns them with the state reached at the point of failure; no later state is reachable in the program, and the model does not capture the abort itself.
- `ColumnSelection.ColumnSelectionDialog.SaveAndClose`: requires Save to be enabled and the dialog open, because a disabled button or a closed dialog takes no click, and requires the window's table to be the dialog's, as it is while the modal dialog runs.
- `ColumnSelection.ColumnSelectionDialog.Choose`: requires the dialog to be open, because a closed dialog takes no selection.
- `ColumnSelection.ColumnSelectionDialog.Choose`: requires the picked position to be one of the selector's items, the only positions a user can pick.
