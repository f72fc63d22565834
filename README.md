# Kiosk data core, in Dafny

A model of the data side of the kiosk Flask application. It covers these parts:

- **The spreadsheet reshaper** (`load_long`). It reads the production sheet of
  `Export.xlsx`, where each row is Typ, Kod, [Nazwa], Brygada and then one
  column per day. It turns that into long records
  (Typ, Kod, Nazwa, Brygada, Dzien, Wartosc), one per non-empty day cell.
  Any failure gives the empty table.
- **The chart series** of one machine. `get_chart_data_for_machine` builds
  them over a 7-day window and `api_series` builds them over all days. Each
  is a bar series per shift A, B, C for the daily values ("Dzienne"),
  followed by a line series per shift for the cumulative values
  ("Narastające"). Each series is sorted by day and left out when empty.
- **The machine picker** of `/api/machines` and `/wykres`. It takes the
  distinct (Kod, Nazwa) pairs, sorts them by Kod and labels each one. The
  first entry is the default machine of `/wykres`.
- **The file-name rules.** These are the image-extension filter
  `allowed_file` and the `.xlsx`/`.xls` test of the spreadsheet upload. The
  slide list `get_slide_images` keeps the names `allowed_file` accepts.
- **The admin side.** This covers the `load_config` defaults, the PIN login
  and the session flag it sets, and the endpoints that change state
  (settings, inspirations, image and spreadsheet upload). Each of those
  endpoints answers 401 and changes nothing when the session is not logged in.

Modules:

- `Wrappers`: `Option`.
- `Strings`: the Python string operations the code relies on.
- `Reshaper`: `load_long`.
- `Series`: the chart series.
- `Machines`: the machine list and the `/wykres` page data.
- `Uploads`: the file names and the slide list.
- `Admin`: the configuration and the `Kiosk` class. `Kiosk` holds the session
  flag, the settings table, the inspirations table, the image folder and the
  spreadsheet file, and its methods update them in place.

The workbook reaches the model already parsed. A sheet is a row of column
labels (`Unnamed` for pandas' placeholder, an integer, or text) and rows of
nullable cells. The long table is a sequence of records.

## Layout detection

The reshaper picks the four-id layout (Typ, Kod, Nazwa, Brygada) when the
first label is not an "Unnamed" placeholder and either a column is called
"Nazwa" or the sheet has at least four columns (`app_backup.py:227`). So a
headed sheet `Typ, Kod, Brygada, 1, 2, 3` is read with Nazwa = the Brygada
column and Brygada = the day-1 column, and its days start at the fifth
column. `Reshaper.DetectLayout` states the rule as an if-and-only-if, and
`Reshaper.HeadedSheetExample` works this case through.

## Model

| member | source | states |
|---|---|---|
| Strings.NatToString | app_backup.py:276-279 | the decimal text `astype(str)` prints for a number is all digits, with no leading zero |
| Strings.NatToStringRoundTrip | app_backup.py:276-279 | reading back the printed digits gives the number again |
| Strings.Lower | app.py:116 | `lower()` keeps the length, maps each of A-Z to its letter in a-z, leaves every other character as it is, and leaves no upper-case ASCII letter |
| Strings.LowerIdempotent | app.py:116 | lower-casing twice is lower-casing once |
| Strings.LexLeTotal | app_backup.py:465 | the string order `sort_values('Kod')` uses compares any two codes |
| Strings.LexLeTransitive | app_backup.py:465 | that order is transitive |
| Strings.LexLeReflexive | app_backup.py:465 | that order is reflexive |
| Reshaper.FindSheet | app_backup.py:212-215 | reading a named sheet fails exactly when no sheet has that name; otherwise it reads the first sheet with that name |
| Reshaper.ChooseSheet | app_backup.py:210-218 | the sheet is "Eksport" if present, else "Export", else the first sheet; only a workbook without sheets fails |
| Reshaper.StartsUnnamed | app_backup.py:221 | `str(df.columns[0]).startswith('Unnamed')`; Reshaper.StartsUnnamedCases states its cases |
| Reshaper.StartsUnnamedCases | app_backup.py:221 | the pandas placeholder and a label beginning "Unnamed" mark a headerless sheet; an integer label or "Typ" does not |
| Reshaper.DetectLayout | app_backup.py:220-237 | four id columns exactly when there are at least 4 columns and the first label is not an "Unnamed" placeholder; three id columns exactly when there are at least 3 and the first label is a placeholder, or there are exactly 3 and none is "Nazwa"; anything else raises |
| Reshaper.HeaderDay | app_backup.py:239-258 | `int(col)` on a label, None where it raises; Reshaper.HeaderDayCases states its cases |
| Reshaper.IsDayHeader | app_backup.py:248-262 | the label converts to a day in 1..31; Reshaper.DayColumns keeps exactly these columns |
| Reshaper.HeaderDayCases | app_backup.py:239-262 | `int(col)` keeps an integer label as its day and reads a label printed from a number back as that number; the placeholder and "Nazwa" are no day; a label is a day column exactly when that number lies in 1..31 |
| Reshaper.DayColumns | app_backup.py:239-262 | a column is kept exactly when it lies after the id columns and its label converts to a day in 1..31; kept columns stay in sheet order |
| Reshaper.SelectDayColumns | app_backup.py:239-262 | the label loops keep exactly those day columns, each with its position and day |
| Reshaper.MeltTable | app_backup.py:264-273 | the nested melt loops produce the column-major unpivot without empty cells |
| Reshaper.Convert | app_backup.py:275-281 | the conversions succeed exactly when every value converts; then there is one record per melted cell, in order, with the ids stringified |
| Reshaper.CellNumber | app_backup.py:281 | `astype(float)` of one value, None where it raises; Reshaper.CellNumberCases states its cases |
| Reshaper.Stringify | app_backup.py:276-279 | `astype(str)` of one id cell, "nan" for an empty one; Reshaper.StringifyRoundTrip reads it back |
| Reshaper.CellNumberCases | app_backup.py:281 | a numeric cell converts to itself and a digit string to its decimal value; "nan" and "" do not convert |
| Reshaper.StringifyRoundTrip | app_backup.py:276-281 | a natural number printed by `astype(str)` converts back to itself; a negative one prints as "-" before its magnitude |
| Reshaper.ReshapeTable | app_backup.py:220-283 | the long table of one sheet, [] where a step raises; Reshaper.ReshapeProvenance, ReshapeCompleteness, ReshapeCount and BadCellEmptiesTable state what it holds |
| Reshaper.Reshape | app_backup.py:209-290 | `load_long` on a parsed file; Reshaper.LoadLong and ReshapeDaysInRange state it |
| Reshaper.LoadLong | app_backup.py:204-290 | `load_long` is the reshape of the chosen sheet; a missing or unreadable file gives the empty table; every day lies in 1..31 |
| Reshaper.MeltMembership | app_backup.py:264-273 | a record is in the melt exactly when it is the record of some non-null cell of a kept day column |
| Reshaper.MeltedHasSource | app_backup.py:264-273 | every melted record comes from a non-null cell of a kept day column |
| Reshaper.CellIsMelted | app_backup.py:264-273 | every non-null cell of a kept day column is in the melt |
| Reshaper.MeltColumnMembership | app_backup.py:264-273 | one melted column holds exactly the records of its non-null cells |
| Reshaper.RowMajorSplitLast | app_backup.py:264-270 | splitting off the last day column splits the row-major unpivot into the same multiset of records |
| Reshaper.MeltPermutesRowMajor | app_backup.py:264-273 | the column-major melt is a permutation of the row-major unpivot |
| Reshaper.RowMajorOfNoColumns | app_backup.py:264-270 | with no day columns the unpivot is empty |
| Reshaper.RowMajorLength | app_backup.py:264-273 | the row-major unpivot has one record per non-null kept cell |
| Reshaper.RowCellsLength | app_backup.py:264-273 | one row unpivots into one record per non-null kept cell |
| Reshaper.ReshapeDaysInRange | app_backup.py:262-280 | every long record's day is in 1..31 |
| Reshaper.ReshapeProvenance | app_backup.py:220-283 | every long record is the record of one non-null kept cell: that row's ids, the column's day and the converted value |
| Reshaper.MeltedSource | app_backup.py:262-273 | every melted record is the record of a kept non-null cell of the sheet |
| Reshaper.RecordOfMelted | app_backup.py:276-281 | converting a melted cell gives the record of its row and day; Nazwa is blank in the three-id layout |
| Reshaper.ReshapeCompleteness | app_backup.py:262-283 | when every kept value converts, every non-null kept cell appears in the output as its record |
| Reshaper.KeptCellMelted | app_backup.py:262-273 | the record of every non-null kept cell is in the melt |
| Reshaper.ConvertedMember | app_backup.py:275-281 | a melted record has its converted record in a successful conversion |
| Reshaper.ConvertSucceeds | app_backup.py:281 | when every kept value converts, the conversion does not raise |
| Reshaper.MeltedConverts | app_backup.py:281 | when every kept value converts, so does every melted value |
| Reshaper.ReshapeCount | app_backup.py:264-281 | when every kept value converts, there is one long record per non-null kept cell |
| Reshaper.BadCellEmptiesTable | app_backup.py:281-290 | one kept value that does not convert makes the whole result the empty table |
| Reshaper.ThreeIdsHaveBlankNames | app_backup.py:220-237 | in the three-id layout every record's Nazwa is "" |
| Reshaper.MeltIgnoresColumn | app_backup.py:248-270 | the melt never reads a column that is neither an id column nor a kept day column |
| Reshaper.MeltColumnIgnoresColumn | app_backup.py:264-270 | one melted column never reads such a column either |
| Reshaper.NonDayColumnIgnored | app_backup.py:239-262 | a column whose label is not a day 1..31 ("Suma", say) does not change the long table, whatever it holds |
| Reshaper.MeltOfOneRow | app_backup.py:264-273 | with one row, the melt is that row's cells in column order |
| Reshaper.HeaderlessRowCells | app_backup.py:264-273 | the example row gives two records under days 1 and 3 and none for its empty cell |
| Reshaper.HeaderlessDayColumns | app_backup.py:239-262 | a sheet whose first label is a placeholder keeps all three day columns |
| Reshaper.HeaderlessConvert | app_backup.py:275-281 | the example's two melted cells convert to two records with a blank Nazwa |
| Reshaper.HeaderlessSheetExample | app_backup.py:204-283 | the whole reshape of a headerless sheet of one row gives those two records |
| Reshaper.HeadedRowCells | app_backup.py:264-273 | in the four-id layout the example row yields only its day-3 cell |
| Reshaper.HeadedDayColumns | app_backup.py:239-262 | the headed sheet's day columns start at the fifth column |
| Reshaper.HeadedConvert | app_backup.py:275-281 | the Brygada value 12 is stringified to "12" |
| Reshaper.HeadedSheetExample | app_backup.py:220-237 | the headed sheet `Typ, Kod, Brygada, 1, 2, 3` is read in the four-id layout, so its one record has Nazwa "A" and Brygada "12" |
| Series.Selected | app_backup.py:154-157 | a mask's selection has at most one point per record |
| Series.SelectedMembers | app_backup.py:154-157 | the selection holds exactly the points of the records the mask (type, machine, shift, day window) accepts |
| Series.SelectedOfConcat | app_backup.py:154-157 | the selection of two tables in a row is the selection of each in a row: one point per matching record, duplicates kept, in table order |
| Series.SelectedOfOne | app_backup.py:154-157 | one record gives its point when the mask accepts it and nothing otherwise |
| Sorting.ConsSorted | app_backup.py:157 | an element at most every element of a sorted list can go in front of it |
| Sorting.InsertBy | app_backup.py:157 | inserting into a list sorted by a total preorder keeps it sorted and adds just that element |
| Sorting.SortBy | app_backup.py:157 | the sort under a total preorder is sorted and a permutation of its input |
| Series.SortByDay | app_backup.py:157 | `sort_values('Dzien')` yields a day-sorted permutation of the points |
| Series.ShiftLoop | app_backup.py:153-181 | one `for brygada` loop appends, for each shift in order, its series when its selection is not empty |
| Series.BuildSeries | app_backup.py:149-181 | the bar loop and then the line loop produce the machine's series |
| Series.KindSeriesStep | app_backup.py:153-166 | one more pass of the loop appends that shift's series, if any |
| Series.KindSeries | app_backup.py:153-181 | one shift loop; Series.KindSeriesLength, KindSeriesSound, KindSeriesComplete, KindSeriesOrdered and KindSeriesContents state what it yields |
| Series.SeriesFor | app_backup.py:149-181 | the bar loop then the line loop over A, B, C; Series.SeriesShape states its shape |
| Series.Series.Name | app_backup.py:160-176 | the trace name: the shift for a bar, "Narastająco " and the shift for a line; Series.TraceStylesDistinct tells the six apart |
| Series.Series.Color | app_backup.py:150-179 | the colour tables of bars and lines with their defaults; Series.TraceStylesDistinct tells the six apart |
| Series.KindSeriesMembers | app_backup.py:153-181 | a loop yields at most one series per shift, each of its kind with the shift's non-empty selection, and yields every shift that has data |
| Series.KindSeriesLength | app_backup.py:153-166 | a loop yields at most one series per shift |
| Series.KindSeriesSound | app_backup.py:153-166 | every series a loop yields is the series of one of its shifts, of the loop's kind, with a non-empty selection |
| Series.KindSeriesComplete | app_backup.py:153-166 | a loop yields the series of every shift whose selection is not empty |
| Series.KindSeriesHas | app_backup.py:153-166 | a shift of the loop whose selection is not empty has its series among the loop's |
| Series.ShiftSeriesInKindSeries | app_backup.py:153-166 | whatever the pass for any shift of the loop appends is in the loop's result |
| Series.KindSeriesOrdered | app_backup.py:153-181 | a loop over shifts of ascending rank yields series of ascending rank |
| Series.AppendHigherShift | app_backup.py:153-181 | appending a series of a shift ranked above all earlier ones keeps ranks ascending |
| Series.KindSeriesContents | app_backup.py:153-181 | the series of a loop are non-empty, sorted by day and exactly the selected points; a shift's series is present exactly when some record matches its mask |
| Series.RanksAscend | app_backup.py:153-181 | bars in shift order followed by lines in shift order are in ascending position |
| Series.SeriesShapeOver | app_backup.py:153-181 | the same shape for any ascending shift list: at most two series per shift, bars before lines, ascending shifts, each series non-empty, sorted and exact, present exactly when some record matches |
| Series.SeriesShape | app_backup.py:153-181 | for shifts A, B, C: at most six series, bars A, B, C before lines A, B, C, each non-empty, sorted by day and exactly the selected points, present exactly when some record matches |
| Series.TraceStylesDistinct | app_backup.py:150-181 | the six traces of a machine have pairwise distinct names and pairwise distinct colours |
| Series.UnknownMachineHasNoSeries | app_backup.py:141-144 | a machine code no record carries has no series |
| Series.ChartDataForMachine | app_backup.py:131-187 | the series of the machine over days start..start+6; an empty table or an unknown code gives none; every point lies inside the window |
| Series.WindowBoundsPoints | app_backup.py:146-157 | every point of a windowed series lies inside the window |
| Series.FirstNazwa | app_backup.py:649-650 | the name is the Nazwa of the machine's first record, or "" when the machine has none |
| Series.ApiSeries | app_backup.py:633-693 | an empty table or empty code gives no series and an empty name; otherwise all-day series of the machine with its first record's name; the code is echoed back |
| Machines.Label | app_backup.py:470-473 | the label starts with the Kod; it is longer exactly when the Nazwa is not blank, and then it is Kod, a space, Nazwa |
| Machines.PairsOfConcat | app_backup.py:465 | the (Kod, Nazwa) projection of two tables in a row is the projection of each, in a row |
| Machines.Distinct | app_backup.py:465 | `drop_duplicates` has no repeats and holds exactly the pairs of its input |
| Machines.DropDuplicates | app_backup.py:465 | the first-seen loop computes `drop_duplicates` |
| Machines.KodOrder | app_backup.py:465 | ordering pairs by Kod alone is a total preorder |
| Machines.SortByKod | app_backup.py:465 | `sort_values('Kod')` yields a Kod-sorted permutation |
| Machines.LabelledOfConcat | app_backup.py:467-473 | labelling two lists in a row labels each, in a row |
| Machines.LabelledKeepsKod | app_backup.py:467-473 | each entry keeps its pair's Kod, in order, and its caption begins with that Kod |
| Machines.LabelAll | app_backup.py:467-473 | the `iterrows` loop labels each pair in order |
| Machines.Machines | app_backup.py:465-473 | the labelled, Kod-sorted, distinct pairs; Machines.MachinesSorted, MachinesFromRecords and MachinesCount state it |
| Machines.MachineList | app_backup.py:456-478 | `get_machines` gives the labelled, sorted, distinct pairs; an empty table gives [] |
| Machines.MachinesSorted | app_backup.py:465 | the list is in ascending Kod order |
| Machines.MachinesFromRecords | app_backup.py:465-473 | every record's machine is listed under its label, and every entry is some record's machine |
| Machines.NoDupCardinality | app_backup.py:465 | a list without repeats has as many entries as its set |
| Machines.MachinesCount | app_backup.py:465 | the list has exactly one entry per distinct (Kod, Nazwa) pair of the table |
| Machines.DefaultMachine | app_backup.py:527-529 | the default machine is "" and "" for an empty table; otherwise it is the machine of some record whose Kod is the least of all Kods |
| Machines.Wykres | app_backup.py:506-629 | `/wykres` gives an empty page for an empty table; otherwise the machine list, the default machine, and that machine's all-day bar and line traces |
| Uploads.AllowedFile | app.py:114-116 | a name passes when it has a dot and its lower-cased last extension is in the allowed set; Uploads.AllowedFileIffSplit states it on every name |
| Uploads.AfterLastDot | app.py:116 | `rsplit('.', 1)[1]` contains no dot and is what follows the last dot |
| Uploads.AfterLastDotOfSplit | app.py:116 | the text after the last dot does not depend on what precedes that dot |
| Uploads.AllowedFileIffSplit | app.py:114-116 | a name is allowed exactly when it is stem + "." + extension, with no dot in the extension and the lower-cased extension in the allowed set |
| Uploads.UpperCaseExtensionAllowed | app.py:116 | "A.JPG" is allowed, because the extension is lower-cased first |
| Uploads.InnerExtensionIgnored | app.py:116 | "x.png.exe" is refused, because only the last extension counts |
| Uploads.IsExcelName | app_backup.py:435 | the name ends in ".xlsx" or ".xls"; Uploads.IsExcelNameIffSuffix states it on every name |
| Uploads.IsExcelNameIffSuffix | app_backup.py:435 | a name passes the spreadsheet test exactly when it is some stem followed by ".xlsx" or by ".xls" |
| Uploads.ExcelNameExamples | app_backup.py:435 | the spreadsheet test accepts ".xlsx" and ".xls" endings, case-sensitively and only at the end |
| Uploads.Slides | app.py:142-155 | the slide list has at most one entry per listed name |
| Uploads.SlidesMembers | app.py:148-154 | the slide list holds an entry with URL `/static/images/<name>` for every allowed name of the listing, and nothing else |
| Uploads.SlidesOfConcat | app.py:148-154 | the slide list keeps listing order |
| Uploads.SlideImages | app.py:142-155 | no folder gives []; otherwise the loop yields the slide list of the listing |
| Admin.LoadConfig | app.py:118-125 | the file's configuration, or PIN "7456", rotation 30 and refresh 300 when there is no file |
| Admin.ApplySettings | app.py:216-222 | each of the three settings the body carries is written; everything else is kept |
| Admin.ApplySettingsIdempotent | app.py:216-222 | sending the same body twice has the effect of sending it once |
| Admin.ApplySettingsWithoutKeys | app.py:216-222 | a body without any of the three keys, or no body, leaves the settings unchanged |
| Admin.Field | app.py:232-236 | `data.get(key, '')` is the value when the body carries the key, "" otherwise |
| Admin.InspirationOf | app.py:232-236 | the row `add_inspiration` inserts, each field `data.get(key, '')`; Admin.InspirationOfKeys states what it reads |
| Admin.InspirationOfKeys | app.py:232-236 | the stored inspiration depends only on the body's title, description and image_url; no body gives three empty fields |
| Admin.Kiosk.constructor | app.py:186 | a new session is not logged in and sees the stored state |
| Admin.Kiosk.Login | app.py:171-183 | the configured PIN logs the session in and redirects; any other PIN or none shows the form with the error and keeps the flag |
| Admin.Kiosk.AdminPage | app.py:185-199 | a session that is not logged in gets the form; a logged-in one gets the panel with each setting (absent when unset) and the inspirations |
| Admin.Kiosk.Logout | app.py:202-205 | the flag is cleared and the reply redirects to the form |
| Admin.Kiosk.UpdateSettings | app.py:210-224 | 401 with settings unchanged unless logged in; otherwise success with the settings the body carries written |
| Admin.Kiosk.AddInspiration | app.py:226-240 | 401 with nothing changed unless logged in; otherwise the body's inspiration is stored under a fresh id and ids stay below the next one |
| Admin.Kiosk.DeleteInspiration | app.py:242-254 | 401 with nothing changed unless logged in; otherwise that id is gone and the reply is success whether or not it existed |
| Admin.Kiosk.UploadImage | app.py:256-284 | 401, "Brak pliku", "Nie wybrano pliku" or "Niedozwolony typ pliku" leave the folder unchanged; an allowed name stores the bytes under the stored name and answers with its URL |
| Admin.Kiosk.UploadSpreadsheet | app_backup.py:421-446 | 401, "Brak pliku", "Nie wybrano pliku" or the `.xlsx`/`.xls` error leave the spreadsheet unchanged; a spreadsheet name replaces `Export.xlsx` with the upload |

## Left out

- Flask, the SQLite database, waitress, plotly and the HTML templates are not modelled. Requests arrive as parameters, and the tables the handlers read and write are fields of `Admin.Kiosk`.
- Values are integers, not floats, so these are not modelled: `round(v, 0)`, the `max_value * 1.1` axis range of `/wykres`, and the `".0"` pandas appends when it prints a float id column.
- Reshaper.CellNumber: text values are treated as convertible only when they consist of ASCII digits. Text that `float()` would also accept is treated as failing; this covers signs, decimal points, exponents, surrounding spaces and "nan".
- Reshaper.HeaderDay: float labels (such as `3.0`) and non-ASCII digit labels are not modelled. A text label counts as a day only when it is made of ASCII digits.
- Reshaper.DetectLayout: sheets with two columns sharing a label are not modelled.
- Strings.Lower: only ASCII letters are lower-cased. This is exact for the allowed-extension set, which is all ASCII.
- Series.SortByDay and Machines.SortByKod promise a sorted permutation only. The order pandas' default sort gives to equal days or equal Kods is not modelled.
- The start day of `/api/chart-data` is taken as an integer. A non-integer query string makes the route fail, and that path is left out.
- The listing order of the image folder (`os.listdir`) is a parameter of `Uploads.SlideImages`.
- Admin.Kiosk.UploadImage: the stored name is a parameter. The sanitising of `secure_filename` and the timestamp suffix are not modelled.
- Admin.Kiosk.AdminPage: the inspirations are returned as a map from id. The `ORDER BY` of `get_inspirations` is not modelled.
- Admin.LoadConfig: a malformed `config.json`, or one without `admin_pin`, raises in the source. That path is not modelled.
- The `print` calls that log the exception in the `except` handlers of `load_long`, `get_chart_data_for_machine` and `get_machines` are not modelled; only the value each handler returns is.
- JSON bodies are maps from strings to strings, so non-string values are not modelled.
- `static/js/main.js`, the front end that draws the charts and runs the slide show, is not part of this model.
