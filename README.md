# Screen colour picker: a Dafny model of its core logic

The program is a small desktop colour picker. A user drags out a region of the
screen with the operating system's interactive screenshot tool. The program
reads the colour of that image's centre pixel and shows it with its `#RRGGBB`
hex code. The user can save colours in a palette, clear the palette after a
confirmation, and export it as a JSON document or a CSV table.

This project models the sequential logic inside the widget code of
`src/main.py`:

- `colors.dfy` (module `Colors`): a colour as three bytes, and the hex code
  `color.name().upper()` with its decoder.
- `export.dfy` (module `Export`): the JSON `colors` records and the CSV rows
  of an export, and parsers that read both back.
- `palette.dfy` (module `Palette`): the palette window's list of colours and
  its displayed rows. Covers add, clear with confirmation, the export-menu
  guard and the two exports.
- `sampler.dfy` (module `Sampler`): the centre-pixel arithmetic and the guard
  for images without pixels.
- `grabber.dfy` (module `Grabber`): the grabber's `isGrabbing` flag,
  temporary file and signals. Its spec functions sit beside a class
  `ScreenColorGrabber` whose methods are proved equal to them.
- `main_view.dfy` (module `MainView`): the main window's validity guard on
  the displayed colour.
- `wrappers.dfy` (module `Wrappers`): `Option`. `None` stands for Python's
  `None` and for a `QColor` whose `isValid()` is false.

Dialogs and outside calls become parameters:

- The Yes/No reply to the clear prompt is a `bool`.
- The save dialog's file name is a `string`; `""` means cancelled.
- A failed file write is an `Option<string>` holding the exception message.
- The screenshot tool's result is a `CaptureOutcome`: a written and decoded
  image, an undecodable image, an empty file, a missing file, a tool failure,
  or a tool that could not be started.
- The path `mkstemp` returns is a `string`.
- Whether deleting the temporary file succeeds is a `bool`.

Signal emissions are kept as an event log (`ColorGrabbed(c)`,
`GrabbingFinished`). The temporary files that exist are a set of paths,
`onDisk`.

Some of the code's behaviour is easy to miss, and the model keeps it:

- `add_color` refuses an invalid colour instead of appending
  unconditionally.
- A decode failure, an image without pixels, a cancelled capture and a tool
  failure are only printed. They emit no `color_grabbed`, and every one still
  emits `grabbing_finished` once.
- The temporary file is not always deleted. If deleting it raises, the file
  stays on disk but its path is forgotten. If the file had already vanished
  before `stop_grabbing`, the path stays in `_temp_file`. So "after a handled
  start `_temp_file` is None" holds for every outcome except a missing file.
  `HandledStartCleansUp` states the exact condition.
- A failure to start the screenshot tool is not handled (see Findings).

## Model

| member | source | states |
|---|---|---|
| `Colors.HexName` | src/main.py:169 | the hex code has 7 characters: `#`, then upper-case hex digits whose pairs read back as red, green and blue, in that order |
| `Colors.ParseHex` | src/main.py:169 | decoding succeeds exactly on `#` followed by six upper-case hex digits |
| `Colors.HexRoundTrip` | src/main.py:169 | decoding a colour's hex code gives back that colour |
| `Colors.ParseHexCanonical` | src/main.py:169 | a string decodes to colour c if and only if it is c's hex code |
| `Colors.HexNameInjective` | src/main.py:169 | two colours with the same hex code are the same colour |
| `Export.JsonColors` | src/main.py:109-110 | the JSON `colors` array has one record per palette colour |
| `Export.ParseJsonRecord` | src/main.py:109 | a record reads back only as the colour whose `{hex, rgb}` record it is |
| `Export.ParseJsonColors` | src/main.py:109-114 | a `colors` array reads back only as the colours whose export it is, one colour per record |
| `Export.JsonRecordRoundTrip` | src/main.py:109 | the record of a colour reads back as that colour |
| `Export.JsonRoundTrip` | src/main.py:109-114 | reading the exported `colors` array back yields the palette: the same colours in the same order |
| `Export.CsvTable` | src/main.py:140-148 | the table has one row more than the palette has colours, and its first row is `HEX,R,G,B` |
| `Export.ParseCsvRow` | src/main.py:143-148 | a data row reads back only as the colour whose row it is |
| `Export.ParseCsvRows` | src/main.py:142-148 | data rows read back only as the colours whose data rows they are, one colour per row |
| `Export.ParseCsv` | src/main.py:140-148 | a table reads back only as the colours whose exported table it is: the header, then one row per colour |
| `Export.CsvRowsRoundTrip` | src/main.py:142-148 | the data rows of the export read back as the palette |
| `Export.CsvRoundTrip` | src/main.py:140-148 | reading the exported table back yields the palette: the same colours in the same order |
| `Palette.PaletteWindow.constructor` | src/main.py:38 | a new palette is empty |
| `Palette.PaletteWindow.AddColor` | src/main.py:163-209 | a valid colour is appended at the end, earlier entries unchanged, duplicates kept, and one labelled row is added; an invalid colour changes nothing |
| `Palette.PaletteWindow.ClearPalette` | src/main.py:235-271 | an empty palette asks nothing and changes nothing; otherwise the palette and its rows empty exactly on a Yes reply, and stay exactly as they were on No |
| `Palette.PaletteWindow.ShowExportMenu` | src/main.py:83-90 | the export menu opens exactly when the palette is non-empty |
| `Palette.PaletteWindow.ExportAsJson` | src/main.py:92-118 | an empty palette is refused, then a cancelled dialog, then a write error with its message; otherwise the written document is the `colors` records of the palette, which read back as the palette; the palette is never changed |
| `Palette.PaletteWindow.ExportAsCsv` | src/main.py:120-152 | the same refusals as the JSON export; otherwise the rows written, built by a loop, are the header and then one row per colour in palette order |
| `Sampler.MiddleUnique` | src/main.py:333-335 | a row or column of pixels has only one middle index |
| `Sampler.Center` | src/main.py:333-335 | for a positive width and height, `(width // 2, height // 2)` lies inside the image and is its middle pixel |
| `Sampler.SampleCenter` | src/main.py:326-336 | a colour is sampled exactly when width and height are both positive, and it is the colour of the middle pixel |
| `Sampler.SampleInside` | src/main.py:326-336 | on an image with pixels, the sampled colour is the colour of a pixel inside the image |
| `Grabber.Stop` | src/main.py:344-360 | when not grabbing nothing changes; otherwise the flag is cleared, `grabbing_finished` is logged once, and a still-present temporary file is deleted (if deletion works) and its path forgotten |
| `Grabber.Sample` | src/main.py:313-342 | only the event log changes, and at most one `color_grabbed` with the image's centre colour is logged |
| `Grabber.LogAppend` | src/main.py:276-277 | the signal counts of two logs joined are the sums of their counts |
| `Grabber.StartWhileGrabbing` | src/main.py:286-287 | starting while a grab is in progress changes nothing |
| `Grabber.HandledStartCleansUp` | src/main.py:284-357 | a handled start ends not grabbing; `_temp_file` is None unless the file had vanished; the file is gone from disk unless deleting it failed |
| `Grabber.HandledStartSignals` | src/main.py:284-364 | a handled start logs `color_grabbed` exactly when an image with pixels was decoded, then `grabbing_finished` exactly once, although `stop_grabbing` is reached twice |
| `Grabber.EmissionCounts` | src/main.py:276-277 | one `color_grabbed` at most, and one `grabbing_finished`, add one finished signal and at most one grabbed colour to a log |
| `Grabber.HandledStartSignalCounts` | src/main.py:284-364 | as counts: one more `grabbing_finished`, at most one more `color_grabbed`, and none on the cancel and error paths |
| `Grabber.StartAsWritten` | src/main.py:284-311 | `start_grabbing` as written: a start while grabbing changes nothing; a start from idle ends not grabbing exactly when the tool could be started; a tool that cannot be started leaves the grabber grabbing with no signal emitted |
| `Grabber.Start` | src/main.py:284-311 | the corrected start: a start while grabbing changes nothing; a start from idle always ends not grabbing, and a tool that cannot be started is handled like a tool failure, emitting `grabbing_finished` |
| `Grabber.LaunchFailureLeavesGrabberBusy` | src/main.py:294-311 | as written, a tool that cannot be started leaves the grabber grabbing, with its file on disk and no `grabbing_finished`, and every later start is ignored |
| `Grabber.StartAgreesWithWritten` | src/main.py:284-311 | the corrected start agrees with the code except on a failure to start the tool |
| `Grabber.StartReturnsToIdle` | src/main.py:284-364 | with the correction, every start from idle ends idle, deletes its file when deletion works, and logs `grabbing_finished` once |
| `Grabber.SessionSignals` | src/main.py:284-364 | with the corrected start, over any series of grab requests from idle, `grabbing_finished` is emitted once per request and `color_grabbed` at most once per request |
| `Grabber.ScreenColorGrabber.constructor` | src/main.py:279-282 | a new grabber is idle, with no temporary file and no signals emitted |
| `Grabber.ScreenColorGrabber.StartGrabbing` | src/main.py:284-311 | the new state is `StartAsWritten` of the old state; the exception that escapes is exactly the one from a tool that could not be started |
| `Grabber.ScreenColorGrabber.GetColorFromScreenshot` | src/main.py:313-342 | the new state is `Sample` of the old state |
| `Grabber.ScreenColorGrabber.StopGrabbing` | src/main.py:344-360 | the new state is `Stop` of the old state |
| `Grabber.ScreenColorGrabber.CancelGrabbing` | src/main.py:362-364 | the new state is `Stop` of the old state |
| `MainView.ColorDisplay.constructor` | src/main.py:371 | a new window shows white, with the label `Hex: #FFFFFF` |
| `MainView.ColorDisplay.UpdateColorDisplay` | src/main.py:511-525 | a valid colour becomes current and the label shows its hex code; an invalid colour changes nothing |

## Findings

| source | as written | input that shows it | evidently intended | confidence | as-written member | corrected member |
|---|---|---|---|---|---|---|
| src/main.py:294-311 | only `subprocess.SubprocessError` is caught; an `OSError` raised while starting `screencapture` escapes before `stop_grabbing` | the tool cannot be started, e.g. `screencapture` is not on the path, so `FileNotFoundError` is raised | the failure is reported like a tool error: the grabber returns to idle, deletes the temporary file and emits `grabbing_finished` | not executed; medium | `Grabber.LaunchFailureLeavesGrabberBusy` | `Grabber.StartReturnsToIdle` |

`Grabber.StartAsWritten` and `ScreenColorGrabber.StartGrabbing` model the code
as written. `Grabber.Start` is the corrected definition. It routes a launch
failure to the cancel path, and `Grabber.Session` uses it.

## Left out

- Widget construction, layouts, swatches, scrolling, icons, tooltips, status-bar text, window placement and showing or hiding the palette window: display only. The palette's displayed rows are kept only as their hex labels.
- `copy_to_clipboard` and the click handler built with `functools.partial`: a system service and event wiring.
- `MainWindow.start_color_grab`, `on_grabbing_finished` and `add_current_color_to_palette`: button and status-bar handling around the modelled operations.
- The Qt signal and slot mechanism: emissions are logged, and no connected slot is run.
- `QFileDialog`, `QMessageBox` and the timestamped default file name from `datetime.now()`: these become the parameters above.
- The bytes written by `json.dump` and `csv.writer` (indentation, quoting, line ends): the model states their records and rows.
- Export write errors: modelled as one outcome. A CSV file left half-written by an error in the middle of the loop is not modelled.
- A failure of `tempfile.mkstemp` itself: the model always gets a path. In the code, `mkstemp` runs after `_is_grabbing` is set and outside the `try`, so an `OSError` from it leaves the grabber grabbing with no `grabbing_finished`, like the launch failure under Findings; that path is not modelled.
- `subprocess.run`, `tempfile.mkstemp`, `os.path.exists`, `os.path.getsize`, `os.unlink` and `QImage` decoding: replaced by the inputs above.
- The `isValid()` check on the sampled centre colour: a QColor built from a pixel value is always valid, so that branch has no model.
- Printing to standard output: left out.
