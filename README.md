# Circuit Diagram Inspector — session model

The Circuit Diagram Inspector is a desktop tool. An inspector opens a
circuit-diagram PDF, sets a cabinet identifier, and clicks on the rendered
pages. A left click puts a green "checked" mark on a point. A right click
asks for a component name, offers a menu of error categories, and logs the
chosen defect: it adds a yellow mark and appends a row to an Excel
inspection log.

This project models the session state behind that tool. That state is the
class `CircuitInspector`: the loaded document, the page shown, the zoom
level, the cabinet identifier, the list of point annotations, and the rows
of the inspection workbook. The model covers these operations:

- `__init__` with the workbook set-up;
- loading a PDF, including the cabinet identifier derived from the file name;
- setting the cabinet identifier;
- page navigation and zoom stepping;
- the left-click handler;
- the guard of the right-click handler;
- `log_error`, with its annotation and its 6-column log row;
- the guard and file name of `save_annotations`;
- the per-page filter and mark placement of `display_page`.

Files:

- `PyStrings.dfy` models Python's `str.replace` and `os.path.basename`.
- `Geometry.dfy` models zoom as a whole number of quarters (2..12, starting
  at 4, that is 0.5..3.0 starting at 1.0). It also models the canvas ↔ page
  transform and Python's `int()` truncation.
- `Records.dfy` models annotations, the page filter, drawn markers, the log
  header and rows, the suggested cabinet identifier and the snapshot file
  name.
- `Inspector.dfy` holds the class `CircuitInspector`. Its invariant `Valid()`
  says three things: the zoom stays in range, the page shown exists, and
  every annotation lies on a page of the loaded document.

Every method keeps that invariant and states its whole new state.

A document "is loaded" when `self.pdf_document` is truthy. A PyMuPDF
document defines its length as its page count, so a document with no pages
counts as not loaded. The model's `HasDocument()` says exactly this.

## Model

| member | source | states |
|---|---|---|
| `PyStrings.ReplaceAll` | circuit_inspector.py:128 | `str.replace` scans left to right. It leaves a string unchanged when the pattern does not occur in it. It never lengthens a string when the replacement is no longer than the pattern. |
| `PyStrings.ReplaceCharPointwise` | circuit_inspector.py:128 | Replacing `_` by `-` keeps the length. Each character is either swapped or kept. |
| `PyStrings.ReplaceCharRemovesAll` | circuit_inspector.py:128 | After `.replace('_', '-')` no `_` is left. |
| `PyStrings.RemovesPdfExtension` | circuit_inspector.py:128 | For a name "stem.pdf" with no other ".pdf", `.replace('.pdf', '')` yields exactly the stem. |
| `PyStrings.RemovalIsSinglePass` | circuit_inspector.py:128 | Removal is one pass: "a.p.pdfdf" becomes "a.pdf", so a derived identifier can still contain ".pdf". |
| `PyStrings.BaseName` | circuit_inspector.py:127 | The base name is the longest suffix of the path with no `/` or `\`. |
| `PyStrings.BaseNameOfJoin` | circuit_inspector.py:127 | The base name of "dir/file" is "file". |
| `Geometry.ZoomedIn` | circuit_inspector.py:306-310 | The guard `zoom_level < 3.0` adds a quarter exactly when the zoom is below 12 quarters. Otherwise the zoom stays the same. |
| `Geometry.ZoomedOut` | circuit_inspector.py:312-316 | The guard `zoom_level > 0.5` removes a quarter exactly when the zoom is above 2 quarters. Otherwise the zoom stays the same. |
| `Geometry.ZoomStepsStayInRange` | circuit_inspector.py:306-316 | Both zoom buttons keep the zoom within [0.5, 3.0]. |
| `Geometry.ZoomStepsAreInverse` | circuit_inspector.py:306-316 | Inside the range, zoom-out undoes zoom-in and zoom-in undoes zoom-out. |
| `Geometry.Trunc` | circuit_inspector.py:165 | `int()` truncates toward zero: the result lies within 1 of the value, on the side of 0. |
| `Geometry.CanvasToPage` | circuit_inspector.py:200-201 | The page coordinate times `2 * zoom_level` gives back the canvas coordinate. |
| `Geometry.PageToPixel` | circuit_inspector.py:165 | A mark's pixel is its page coordinate times 2·zoom, truncated toward zero: within 1 of the exact value, on the side of 0. `DrawnWhereClicked` and `DrawnScaledByZoom` relate it to clicks. |
| `Geometry.MarkSize` | circuit_inspector.py:166 | `int(15 * zoom_level)` equals `15 * quarters` divided by 4, rounded down. |
| `Geometry.DrawnWhereClicked` | circuit_inspector.py:165 | A click at whole canvas pixel `c`, redrawn at the same zoom, lands on pixel `c` again. |
| `Geometry.DrawnScaledByZoom` | circuit_inspector.py:165 | After a zoom change, a mark is drawn at the click position times new zoom / old zoom, truncated. |
| `Records.OnPage` | circuit_inspector.py:163-164 | The page filter keeps exactly the annotations whose `page` is the given page. |
| `Records.OnPageConcat` | circuit_inspector.py:163-164 | The filter keeps insertion order: filtering a concatenation concatenates the filtered parts. |
| `Records.MarkerFor` | circuit_inspector.py:165-168 | A marker is green exactly for an `'ok'` annotation. Its size is `15 * quarters` divided by 4, rounded down. For non-negative coordinates, its centre is the zoomed point truncated. |
| `Records.Drawn` | circuit_inspector.py:163-166 | There is one marker per annotation, in order. Each marker has the annotation's kind, its position at the current zoom and the zoomed size. |
| `Records.DrawnConcat` | circuit_inspector.py:163-166 | The markers for a concatenation are the markers of each part, in order. |
| `Records.DrawnOnPageAppend` | circuit_inspector.py:163-166 | Appending an annotation adds its marker to the drawing of its own page only. |
| `Records.DetailedError` | circuit_inspector.py:253 | The description is the component name, one space, then the error. Each part can be read back at its position. |
| `Records.DescriptionIsAmbiguous` | circuit_inspector.py:253 | Two different name/error pairs can give the same description when the name contains a space. |
| `Records.HeaderTitlesColumns` | circuit_inspector.py:109 | The header row has one title per column, in column order. |
| `Records.LogRow` | circuit_inspector.py:271-278 | A row has one cell per column, and the page is its only numeric cell. `LogRowFollowsHeader` places each value under its title. |
| `Records.LogRowFollowsHeader` | circuit_inspector.py:271-278 | A log row has 6 cells, in header order: timestamp, cabinet ID, the page counted from 1, category, description, inspector. |
| `Records.SuggestedCabinetIdHasNoUnderscore` | circuit_inspector.py:127-129 | An identifier derived from a file name never contains `_`. |
| `Records.SuggestedCabinetIdOfPdf` | circuit_inspector.py:127-129 | For "dir/stem.pdf", the identifier is the stem with each `_` changed to `-`, one character for one. |
| `Records.BareExtensionGivesEmptyId` | circuit_inspector.py:127-129 | A file named just ".pdf" gives an empty identifier. |
| `Records.SuggestedCabinetId` | circuit_inspector.py:127-128 | The identifier derived from a file name has no `_` and is no longer than the base name. `SuggestedCabinetIdOfPdf` and `BareExtensionGivesEmptyId` give its exact value. |
| `Records.SnapshotFileName` | circuit_inspector.py:325 | The snapshot file name is the cabinet identifier followed by "_annotations.json". |
| `Records.SnapshotFileNameInjective` | circuit_inspector.py:325 | Two different cabinet identifiers give two different file names. |
| `Inspector.CircuitInspector.constructor` | circuit_inspector.py:22-28 | A new session has no document, page 0, an empty identifier, no annotations and zoom 1.0. The workbook gets the header row of `setup_excel` (lines 103-110) if it did not exist. |
| `Inspector.CircuitInspector.HasDocument` | circuit_inspector.py:147 | A document counts as loaded exactly when it has at least one page, the truth value of `self.pdf_document` used by the checks at lines 147, 195, 216, 296 and 302. |
| `Inspector.CircuitInspector.LoadPdf` | circuit_inspector.py:119-135 | A successful open resets the page, the annotations and the zoom, and sets the suggested identifier. A cancelled dialog or a failed open changes nothing. |
| `Inspector.CircuitInspector.SetCabinetId` | circuit_inspector.py:139-143 | The identifier changes only to a non-empty answer. |
| `Inspector.CircuitInspector.PrevPage` | circuit_inspector.py:294-298 | The page goes back one only when a document is loaded and the page is above 0. Otherwise nothing changes. |
| `Inspector.CircuitInspector.NextPage` | circuit_inspector.py:300-304 | The page advances only when a document is loaded and the page is below `page_count - 1`. Otherwise nothing changes. |
| `Inspector.CircuitInspector.ZoomIn` | circuit_inspector.py:306-310 | Only the zoom changes, as `ZoomedIn` says. The invariant 2 ≤ quarters ≤ 12 is kept. |
| `Inspector.CircuitInspector.ZoomOut` | circuit_inspector.py:312-316 | Only the zoom changes, as `ZoomedOut` says. The invariant 2 ≤ quarters ≤ 12 is kept. |
| `Inspector.CircuitInspector.DisplayPage` | circuit_inspector.py:145-178 | The loop draws the markers of the current page's annotations, in order. It draws nothing when no document is loaded. |
| `Inspector.CircuitInspector.OnLeftClick` | circuit_inspector.py:193-212 | With no document or an empty identifier, nothing is added. Otherwise exactly one `'ok'` annotation is appended, on the current page, at canvas/(2·zoom). Earlier annotations are unchanged, and the page gains exactly that marker. |
| `Inspector.CircuitInspector.OnRightClick` | circuit_inspector.py:214-232 | The result is a warning without a document or identifier, nothing when the name is empty, and otherwise the menu with the page point and the name. No state changes. |
| `Inspector.CircuitInspector.LogError` | circuit_inspector.py:249-292 | One `'error'` annotation is appended first. The row is appended only when the workbook can be written, and a failed write keeps the annotation. |
| `Inspector.CircuitInspector.SaveAnnotations` | circuit_inspector.py:318-325 | With an empty identifier, nothing is saved. Otherwise the annotations go to "<cabinet>_annotations.json". |

## Left out

- All of the tkinter interface is left out: windows, buttons, labels, scrollbars, message boxes and the menu popup. Dialog answers are method parameters, and an empty string stands for a cancelled dialog.
- The error-category table (circuit_inspector.py:31-36) and the menu built from it are left out. `LogError` accepts any category and error, as `log_error` does.
- Page rendering with PyMuPDF and PIL is left out: pixmaps, ellipses and text. `DisplayPage` gives the markers to draw: kind, centre pixel and radius.
- Opening the PDF is left out. `LoadPdf` takes the opened document, or its absence when `fitz.open` raises. A document is reduced to its page count.
- Workbook I/O is left out: openpyxl creating, loading and saving files. The sheet is the field `log`. Any failure to load or save it, or of `os.getlogin`, is the single flag `workbookWritable`.
- The JSON dump in `save_annotations` and the `open_excel` / `os.startfile` call are left out. `SaveAnnotations` returns the file name and the list to be written.
- `datetime.now` and `os.getlogin` are left out and become opaque string parameters.
- Coordinates are exact reals, so floating-point rounding is not modelled. The round trip in `DrawnWhereClicked` holds only in exact arithmetic. `int()` truncation is modelled.
- `PyStrings.BaseName` fixes the Windows flavour of `os.path.basename`: `/` and `\` are both separators. On POSIX, `\` is an ordinary character, so there `a\b.pdf` keeps its whole name while the model gives `b.pdf`. Drive prefixes without a separator (`C:file.pdf`) and UNC paths are not handled either.
- `Inspector.CircuitInspector.LogError` requires a loaded document. The source method has no guard of its own, but its only callers are the menu entries shown after the right-click guard has passed.
- `Inspector.CircuitInspector.OnRightClick` returns the data that the menu entries capture. The menu itself is not shown.
- `Records.SnapshotFileNameInjective` is about file names only. On a case-insensitive file system, "CAB-1" and "cab-1" name the same file, and on Windows so do "A/B" and "A\B". The write at line 326 then overwrites the other cabinet's snapshot. The model does not capture this aliasing.
- The field `log` assumes that only this session writes the workbook. `log_error` reads the file again at line 268, so edits made by other programs between two logs, for example after "Open Excel" (line 336), are not modelled. `LogError`'s `log == old(log) + [row]` holds only when there are no such edits.
