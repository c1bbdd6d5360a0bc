# SurfacePlot core, modelled in Dafny

SurfacePlot is a desktop tool for scattered (x, y, z) measurements. It:

- reads them from a CSV file;
- interpolates them onto a regular grid (scipy's `griddata`);
- shows the result as a colour-mapped image, with two movable lines whose cross-sections are plotted beside it;
- exports the image, the image labelled with coordinates, or either cross-section as timestamped CSV files.

This project models the logic of that tool that is not rendering. Each source file has one module.

- `basics.dfy` (`Basics`) holds the Python and numpy semantics the rest relies on:
  - `int()` of a float, which truncates toward zero;
  - Python indexing, where a negative index counts from the end, and slicing;
  - decimal digits;
  - rectangular 2-D arrays (`Grid`).
- `export.py` → `export.dfy` (`Export`):
  - the file-name sanitiser `replace_string`;
  - the `%y%m%d%H%M%S_` timestamp and the output name;
  - the `Export` object (class `Exporter`) with its two optional fields. Its writes are skipped while either field is unset.
  - The file system is a class holding the set of existing directories and the ordered log of files written.
- `interpolate.py` → `interpolate.dfy` (`Interpolate`):
  - the `Methods` enum;
  - the `InterpolatedImage` object (class `InterpolatedImage`): its data, resolution and grids;
  - `make_xy_grid`, built from `linspace` and `meshgrid` in exact arithmetic;
  - `get_coord_range`, the coordinate properties, the `.csv` suffix check and the keep-last-three-columns rule of `set_filepath`;
  - the interpolation call, as an `Interpolator` value that says when the call fails and what it yields at each grid point.
- `graph_items.py` → `graph_items.dfy` (`GraphItems`):
  - the class attributes `points`, `range_` and `coe` shared by all X (and all Y) image axes, as one `AxisScale` object per axis class;
  - the tick labels;
  - the bounds-guarded cross-section and cursor lookups;
  - the line movements of `change_line_pos`, `set_image` and `resize_image`;
  - `hex_to_rgb`;
  - the title bar's `set_text`/`set_title`;
  - the surface plot's curves and cursor points.
  - A Qt signal a widget emits is returned to the caller as a value (`Signal`, or a sequence of them).
- `style.py` → `style.dfy` (`Style`): the `tag` decorator, `graph_title`, `data_label` and `load_btn`.
- `main_ctrl.py` → `main_ctrl.dfy` (`MainCtrl`): the handlers of `MainWindow`, as methods of a class `MainWindow`:
  - holding the module-level `interpolate` and `exporter` objects, the file system and the surface plot;
  - each handler ends `Done`, `Skipped` at an early return, `Reported` when it catches an exception and shows it, or `Raised` when an exception escapes.
  - The signals a widget emits are delivered to their slots in order (`Deliver`).
  - `export` is described by an `ExportPlan`: the files asked for, in order, and the exception that cut the export short.
  - `load_csv` is split into its stages: `ReadCsv`, `ShowName`, `ShowLoaded`, `ShowNewImage`, `ResetLines`.

Values that come from outside the program are parameters:

- the file dialog's answer;
- the table `pd.read_csv` returns;
- the interpolation routine;
- the current time;
- the `:.3f` float formatting (`fmt: real -> string`);
- whether the mouse is over the colour map, and its view coordinates.

Where the repository's documentation and its code disagree, the model follows the code:

- `replace_string` substitutes the pattern `[\\/:*?"<>|]+`. The `+` makes every maximal run of illegal characters a single `-`, so `a//b` becomes `a-b` (`ReplaceStringExample2`). It does not replace each character individually.
- `set_filepath` is not atomic. The last three columns replace `original_data` before `make_xy_grid` runs. So when the grids cannot be built (an IndexError for too few columns, a ValueError for no rows), the new data sits beside the old grids and does not leave the prior state unchanged. `SetFilepath`, `ReadCsv`, `LoadFile` and `LoadCsv` all state this through `MainWindow.HoldsFile`: the data is the file's last three columns, and the grids are either built from them or are still the grids from before the call.
- `hex_to_rgb` does not always give channels in 0..255. Python's `int(s, 16)` accepts a sign and surrounding white space, so `#-f0000` gives `[-15, 0, 0]` (`HexToRgbNegative`). The proved bound is -15..255, and 0..255 holds for every colour written as `#rrggbb` (`HexToRgbRoundTrip`).
- `Export` defines the `filename` setter twice (export.py lines 70-74 and 140-150). The later definition replaces the first, with the same body.
- `set_root_dir` sets the file name, not the directory, as written.

## Model

| member | source | states |
|---|---|---|
| Basics.Trunc | surfaceplot/views/graph_items.py:287 | `int()` of a float truncates toward zero: the result is within 1 of the argument on the argument's side of 0, and 0 for arguments in (-1, 1) |
| Basics.TruncIndex | surfaceplot/views/graph_items.py:724-725 | a coordinate in [0, k) truncates to an index in [0, k) |
| Basics.PyIndex | surfaceplot/controllers/main_ctrl.py:113 | Python's `s[i]` succeeds exactly for -len <= i < len, with negative indices counting from the end |
| Basics.PySlice | surfaceplot/views/graph_items.py:361 | `s[i:j]` clamps both ends to the length, and element k of the slice is element i + k of `s` |
| Basics.Column | surfaceplot/views/graph_items.py:300 | `image[:, p]` has one entry per row, entry i being row i's p-th value |
| Export.ReplaceString | surfaceplot/models/export.py:10-23 | the sanitised name is never longer than the name; that it is clean, idempotent and collapses each run to one `-` is stated by the `ReplaceString…` lemmas below |
| Export.ReplaceStringClean | surfaceplot/models/export.py:10-23 | a name with none of the nine illegal characters is left exactly as it is |
| Export.ReplaceStringIsClean | surfaceplot/models/export.py:10-23 | the sanitised name contains none of the nine illegal characters |
| Export.ReplaceStringIdempotent | surfaceplot/models/export.py:10-23 | sanitising twice is sanitising once |
| Export.ReplaceStringRun | surfaceplot/models/export.py:10-23 | a non-empty run made only of illegal characters becomes a single `-` |
| Export.ReplaceStringSplit | surfaceplot/models/export.py:10-23 | around any legal character the two sides are sanitised independently, which with the two lemmas above fixes the result on every input |
| Export.DropRunAppend | surfaceplot/models/export.py:10 | the greedy `+` consumes a run of illegal characters up to the first legal character and no further |
| Export.ReplaceStringExample1 | surfaceplot/models/export.py:10-23 | `a/b:c*d` becomes `a-b-c-d` |
| Export.ReplaceStringExample2 | surfaceplot/models/export.py:10-23 | `a//b` becomes `a-b`: a run collapses to one `-` |
| Export.Pad2 | surfaceplot/models/export.py:114 | each `%m`-style field is two decimal digits whose value is the field |
| Export.Stamp | surfaceplot/models/export.py:114 | the timestamp prefix is 12 decimal digits followed by `_` |
| Export.StampRoundTrip | surfaceplot/models/export.py:114 | the six two-digit fields read back from the prefix are the time's year modulo 100, month, day, hour, minute and second |
| Export.OutputName | surfaceplot/models/export.py:115 | the output name is the 13-character stamp, the file name, the suffix and `.csv`, in that order |
| Export.OutputNameInjective | surfaceplot/models/export.py:114-115 | two output names are equal if and only if they carry the same stamp fields and the same name-plus-suffix text |
| Export.FileSystem.MakeDir | surfaceplot/models/export.py:95-96 | `mkdir` adds the directory and writes no file |
| Export.FileSystem.Write | surfaceplot/models/export.py:117 | a write appends one entry to the log and creates no directory |
| Export.Exporter.constructor | surfaceplot/models/export.py:44-57 | `Export()` has neither a file name nor a directory |
| Export.Exporter.WithRoot | surfaceplot/models/export.py:44-62 | `Export(root_dir)` has no file name, has the directory, and the directory exists afterwards |
| Export.Exporter.AssignFilename | surfaceplot/models/export.py:70-74 | assigning `filename` stores the sanitised name and leaves the directory alone |
| Export.Exporter.AssignRootDir | surfaceplot/models/export.py:82-89 | assigning `root_dir` stores it and makes it exist; assigning a directory that already exists changes no directory |
| Export.Exporter.CheckRootDirExists | surfaceplot/models/export.py:91-96 | afterwards the directory exists; nothing else changes |
| Export.Exporter.SetRootDir | surfaceplot/models/export.py:152-161 | `set_root_dir` stores the sanitised file name and leaves the directory unchanged |
| Export.Exporter.TargetPath | surfaceplot/models/export.py:114-116 | the path is in the root directory, and its name is the stamp, then the file name and suffix, then `.csv` |
| Export.Exporter.ExportPayload | surfaceplot/models/export.py:109-117 | with a field unset nothing changes; otherwise the directory exists and exactly one file, at the target path, is appended to the log |
| Export.Exporter.ExportDataframe | surfaceplot/models/export.py:98-117 | the guard and write above, for a DataFrame |
| Export.Exporter.ExportNdarray | surfaceplot/models/export.py:119-138 | the guard and write above, for an array |
| Interpolate.MethodValue | surfaceplot/models/interpolate.py:16-21 | each `Methods` member's value is `linear`, `cubic` or `nearest`, and `Methods(value)` gives the member back |
| Interpolate.MethodFromValue | surfaceplot/models/interpolate.py:16-21 | `Methods(s)` finds a member exactly when s is `linear`, `cubic` or `nearest` |
| Interpolate.MethodValueRoundTrip | surfaceplot/models/interpolate.py:16-21 | `Methods(s)` gives member m exactly when m's value is s |
| Interpolate.LastColumns | surfaceplot/models/interpolate.py:164 | `iloc[:, -3:]` keeps every row and the last min(3, columns) columns, in order |
| Interpolate.FrameColumn | surfaceplot/models/interpolate.py:76 | `iloc[:, c]` is entry c of every row |
| Interpolate.SeqMin | surfaceplot/models/interpolate.py:138 | `np.min` is an element of the array and at most every element |
| Interpolate.SeqMax | surfaceplot/models/interpolate.py:138 | `np.max` is an element of the array and at least every element |
| Interpolate.OneDistinctValue | surfaceplot/models/interpolate.py:143 | an array with one distinct value has min equal to max |
| Interpolate.DistinctNonEmpty | surfaceplot/models/interpolate.py:143 | a non-empty column has at least one distinct value |
| Interpolate.Linspace | surfaceplot/models/interpolate.py:143-144 | `np.linspace(a, b, n)` has n samples |
| Interpolate.LinspaceEnds | surfaceplot/models/interpolate.py:143-144 | with n >= 2 the first sample is the start and the last the stop |
| Interpolate.LinspaceOrdered | surfaceplot/models/interpolate.py:143-144 | for a <= b the samples are non-decreasing and lie in [a, b] |
| Interpolate.MeshGrid | surfaceplot/models/interpolate.py:146 | `np.meshgrid(rx, ry)` has one row per y sample; every row of the x grid is rx, and row i of the y grid repeats ry[i] |
| Interpolate.MeshGridCoords | surfaceplot/models/interpolate.py:60-70 | the coordinate properties `x_grid[0]` and `y_grid[:, 0]` give back rx and ry |
| Interpolate.Grids | surfaceplot/models/interpolate.py:134-146 | `make_xy_grid` fails exactly in the cases `GridsError` names, in numpy's order: column 0 missing, no rows, column 1 missing, negative sample count |
| Interpolate.SamplesSign | surfaceplot/models/interpolate.py:143-144 | the sample count is negative exactly when the resolution is |
| Interpolate.GridsSucceed | surfaceplot/models/interpolate.py:134-146 | the grids are built if and only if the data has two columns, a row and a non-negative resolution |
| Interpolate.GridsShape | surfaceplot/models/interpolate.py:143-146 | both grids have shape (distinct y count × resolution, distinct x count × resolution) |
| Interpolate.GridsNonEmpty | surfaceplot/models/interpolate.py:134-146 | with a resolution of at least 1 the grids have a row and a column, so every interpolated image has a pixel |
| Interpolate.GridsValue | surfaceplot/models/interpolate.py:137-146 | the grids are the meshgrid of the linspaces over the min and max of columns 0 and 1 |
| Interpolate.CoordRange | surfaceplot/models/interpolate.py:113-132 | an axis token other than 'x' or 'y' is a ValueError |
| Interpolate.CoordRangeSpec | surfaceplot/models/interpolate.py:113-132 | only 'x' and 'y' are accepted; the range has min <= max, both ends occur in the column, and it bounds every value of the column |
| Interpolate.GridsCoordRanges | surfaceplot/models/interpolate.py:113-146 | data the grids can be built from has both coordinate ranges |
| Interpolate.CoordRangeX | surfaceplot/models/interpolate.py:125-127 | the x range is (min, max) of column 0 |
| Interpolate.CoordRangeY | surfaceplot/models/interpolate.py:128-130 | the y range is (min, max) of column 1 |
| Interpolate.GridsCoordinates | surfaceplot/models/interpolate.py:134-146 | with resolution >= 1, whenever the grids exist both coordinate ranges exist, and each coordinate vector has distinct count × resolution entries running from the axis min to the axis max |
| Interpolate.AxisEnds | surfaceplot/models/interpolate.py:143-144 | one resolved axis spans exactly its column's min and max |
| Interpolate.SampleSpans | surfaceplot/models/interpolate.py:143-144 | one sample spans the range only for a constant column, and two or more samples always span it |
| Interpolate.Griddata | surfaceplot/models/interpolate.py:84-111 | the interpolated image has the grid's shape and the routine's value at each grid point; a routine failure is a ValueError |
| Interpolate.FileName | surfaceplot/models/interpolate.py:158 | `Path(p).name` contains no '/' |
| Interpolate.Suffix | surfaceplot/models/interpolate.py:159 | `Path.suffix` is empty, or a `.` and at least one more character, and no `.` or `/` follows its first character |
| Interpolate.Stem | surfaceplot/controllers/main_ctrl.py:196 | `Path.stem` contains no `/`, and is empty exactly when the file name is |
| Interpolate.StemSuffix | surfaceplot/models/interpolate.py:158-159 | `stem + suffix` is the file name |
| Interpolate.CsvSuffix | surfaceplot/models/interpolate.py:159-160 | the suffix is `.csv` (case-sensitive) exactly when the name ends in `.csv` after at least one character |
| Interpolate.InterpolatedImage.constructor | surfaceplot/models/interpolate.py:39-56 | without a file: the resolution (default 10) is stored and data and grids are None |
| Interpolate.InterpolatedImage.InterpolatedXCoord | surfaceplot/models/interpolate.py:60-64 | `x_grid[0]`: no grids is an error, an empty grid is an IndexError, and otherwise it is the first row of the x grid |
| Interpolate.InterpolatedImage.InterpolatedYCoord | surfaceplot/models/interpolate.py:66-70 | `y_grid[:, 0]`: no grids is an error, a grid without columns is an IndexError, and otherwise entry i is row i's first value, one entry per row |
| Interpolate.InterpolatedImage.OriginalXCoord | surfaceplot/models/interpolate.py:72-76 | column 0 of the data, when there is data with a column |
| Interpolate.InterpolatedImage.OriginalYCoord | surfaceplot/models/interpolate.py:78-82 | column 1 of the data, when there is data with two columns |
| Interpolate.InterpolatedImage.GetCoordRange | surfaceplot/models/interpolate.py:113-132 | the axis token is rejected before the data is touched; otherwise the data's coordinate range |
| Interpolate.InterpolatedImage.CalcGriddata | surfaceplot/models/interpolate.py:84-111 | the interpolation of the data at the grids; nothing without data or grids |
| Interpolate.InterpolatedImage.MakeXYGrid | surfaceplot/models/interpolate.py:134-146 | the grids become `Grids` of the data and resolution; when numpy raises, the old grids stay |
| Interpolate.InterpolatedImage.SetFilepath | surfaceplot/models/interpolate.py:148-165 | a suffix other than `.csv` raises NotCsvError and changes nothing; otherwise the data becomes the last three columns, then the grids are rebuilt |
| Interpolate.ImageAtCoord | surfaceplot/models/interpolate.py:168-172 | the labelled DataFrame exists exactly when the column and index labels fit the image's width and height |
| Style.LoadBtn | surfaceplot/views/style.py:4-7 | the button's style sheet is the fixed text `background-color:orange;font-size:12pt;` |
| Style.NatToString | surfaceplot/views/style.py:27 | a number prints as a non-empty run of decimal digits |
| Style.ParseNatToString | surfaceplot/views/style.py:27 | reading the printed digits back gives the number |
| Style.IntToString | surfaceplot/views/style.py:27 | `f"{n}"` is the digits of n, after a minus sign when n is negative |
| Style.IntToStringSign | surfaceplot/views/style.py:27 | the text starts with '-' exactly when the number is negative |
| Style.IntToStringInjective | surfaceplot/views/style.py:27 | different numbers print differently |
| Style.Tag | surfaceplot/views/style.py:10-36 | the result starts with the start tag, ends with `</name>`, and has the length of start tag, body and end tag together |
| Style.UntagTag | surfaceplot/views/style.py:29-32 | the body comes back unchanged from between the tags, so it is inserted verbatim |
| Style.StartTagInjective | surfaceplot/views/style.py:26-27 | different font sizes give different start tags |
| Style.GraphTitle | surfaceplot/views/style.py:39-41 | the title is the text wrapped in a 29-character start tag and the 6-character `</div>`, the text starting at offset 29 |
| Style.DataLabel | surfaceplot/views/style.py:44-46 | the label is the text wrapped in a 29-character start tag and the 6-character `</div>`, the text starting at offset 29 |
| Style.GraphTitleUntag | surfaceplot/views/style.py:39-41 | the text comes back out of a graph title unchanged |
| Style.DataLabelUntag | surfaceplot/views/style.py:44-46 | the text comes back out of a data label unchanged |
| Style.GraphTitleMarkup | surfaceplot/views/style.py:39-41 | `graph_title(t)` is `<div style='font-size:25px;'>` + t + `</div>` |
| Style.DataLabelMarkup | surfaceplot/views/style.py:44-46 | `data_label(t)` is `<div style='font-size:18px;'>` + t + `</div>` |
| Style.GraphTitleInjective | surfaceplot/views/style.py:39-41 | different texts give different titles |
| GraphItems.AxisScale.constructor | surfaceplot/views/graph_items.py:37-39 | the initial class attributes (points 1, range (0, 1), coe 1) already satisfy the coefficient invariant |
| GraphItems.AxisScale.ChangeDataRange | surfaceplot/views/graph_items.py:49-60 | the new range is stored, the size is kept, and `coe == (max - min) / points` afterwards |
| GraphItems.AxisScale.ChangeSize | surfaceplot/views/graph_items.py:62-73 | the new size is stored, the range is kept, and `coe == (max - min) / points` afterwards |
| GraphItems.AxisScale.TickValues | surfaceplot/views/graph_items.py:44-47 | one label value per tick, `coe * v + min` |
| GraphItems.TickEnds | surfaceplot/views/graph_items.py:44-47 | pixel 0 is labelled with the range minimum and pixel `points` with the maximum |
| GraphItems.TickLinear | surfaceplot/views/graph_items.py:44-47 | the label at pixel v is the linear interpolation min + (max - min)·v/points |
| GraphItems.TickPixelInverse | surfaceplot/views/graph_items.py:44-47 | over a non-empty range, pixels and labels correspond one to one |
| GraphItems.TickMonotone | surfaceplot/views/graph_items.py:44-47 | on an increasing range, larger pixels get larger labels |
| GraphItems.HCrossSection | surfaceplot/views/graph_items.py:280-289 | a section is emitted exactly when there is an image and `int(pos)` is a row index; it carries that row and that index |
| GraphItems.VCrossSection | surfaceplot/views/graph_items.py:291-300 | a section is emitted exactly when there is an image and `int(pos)` is a column index; it carries that column and that index |
| GraphItems.Sections | surfaceplot/views/graph_items.py:280-300 | `get_hcross_section` then `get_vcross_section`: no image emits nothing, at most two sections, and only the first can be horizontal, exactly when the horizontal lookup emits |
| GraphItems.MoveSignals | surfaceplot/views/graph_items.py:251-267 | moving the lines emits at most two sections, horizontal before vertical; nothing without an image or when neither line moves |
| GraphItems.HCrossSectionNearZero | surfaceplot/views/graph_items.py:287-289 | a line anywhere in (-1, 1) reads row 0 |
| GraphItems.CrossSectionsInside | surfaceplot/views/graph_items.py:287-300 | a line inside the image always emits, a row of the image's width or a column of its height |
| GraphItems.ScaledPosBounds | surfaceplot/views/graph_items.py:266-267 | `int(ratio * pos)` is a whole number between 0 and the exact product |
| GraphItems.ColormapWidget.constructor | surfaceplot/views/graph_items.py:201-252 | no image; both lines at 0 |
| GraphItems.ColormapWidget.MoveHcsLine | surfaceplot/views/graph_items.py:251 | the line moves; a real move re-reads the horizontal section, and setting the same position emits nothing. This holds for positions set by `setPos` of a number; after a mouse drag, which also moves the other coordinate of the line's point, `setPos` to the same value emits again, and the repeated section changes nothing shown |
| GraphItems.ColormapWidget.MoveVcsLine | surfaceplot/views/graph_items.py:252 | the same for the vertical line |
| GraphItems.ColormapWidget.ChangeLinePos | surfaceplot/views/graph_items.py:254-267 | each line moves to `int(ratio * old position)`, and each line that moved emits its section |
| GraphItems.ColormapWidget.SetImage | surfaceplot/views/graph_items.py:328-353 | the image is shown, both axis sizes become its width and height, the ranges and lines stay, and the sections under the lines are emitted |
| GraphItems.ColormapWidget.ResizeImage | surfaceplot/views/graph_items.py:313-326 | the new image is shown and both lines scale by new height / old height; the signals are the sections under the old positions, then those of each line that moved |
| GraphItems.PyIntHexGeneral | surfaceplot/views/graph_items.py:361 | `int(s, 16)` of at most two characters is in -15..255 |
| GraphItems.PyIntHexPlain | surfaceplot/views/graph_items.py:361 | reading plain hexadecimal digits directly agrees with Python's general reading |
| GraphItems.PyIntHexPair | surfaceplot/views/graph_items.py:361 | two hexadecimal digits parse to 16·first + second |
| GraphItems.HexToRgb | surfaceplot/views/graph_items.py:359-361 | three channels, each in -15..255 |
| GraphItems.ChannelsOfDigits | surfaceplot/views/graph_items.py:361 | six hexadecimal digits give the three pairs' values at offsets 0, 2 and 4 |
| GraphItems.LStripOneHash | surfaceplot/views/graph_items.py:360 | a single leading '#' is stripped |
| GraphItems.HexToRgbSixDigits | surfaceplot/views/graph_items.py:359-361 | `#` and six hexadecimal digits give the three pair values |
| GraphItems.HexToRgbRoundTrip | surfaceplot/views/graph_items.py:359-361 | parsing a colour written as `#rrggbb` gives the colour back, so channels in 0..255 survive |
| GraphItems.HexToRgbNegative | surfaceplot/views/graph_items.py:359-361 | a sign is accepted: `#-f0000` gives [-15, 0, 0] |
| GraphItems.MinusF | surfaceplot/views/graph_items.py:361 | `int("-f", 16)` is -15 |
| GraphItems.GraphTitleLabel.constructor | surfaceplot/views/graph_items.py:390-392 | the three labels start with the text " " that an empty `LabelItem` shows |
| GraphItems.GraphTitleLabel.SetText | surfaceplot/views/graph_items.py:411-429 | 'h' sets only the Y label and 'v' only the X label, each to the graph title of the text; any other token changes nothing |
| GraphItems.GraphTitleLabel.SetTitle | surfaceplot/views/graph_items.py:795-804 | the title becomes the graph title of the text; the position labels stay |
| GraphItems.CursorValue | surfaceplot/views/graph_items.py:707-725 | a value is read only with an image, the mouse over the colour map and 0 <= x < width and 0 <= y < height, and it is `image[int(y), int(x)]` |
| GraphItems.SurfacePlot.constructor | surfaceplot/views/graph_items.py:650-685 | no curves and no cursor points |
| GraphItems.SurfacePlot.GetCursorData | surfaceplot/views/graph_items.py:695-727 | when a value is read, both cursor points move to it; otherwise neither changes, and the curves never do |
| GraphItems.SurfacePlot.PlotHCrossSection | surfaceplot/views/graph_items.py:729-743 | the horizontal curve becomes the data; nothing else changes |
| GraphItems.SurfacePlot.PlotVCrossSection | surfaceplot/views/graph_items.py:745-760 | the vertical curve becomes the data; nothing else changes |
| GraphItems.SurfacePlot.SetImage | surfaceplot/views/graph_items.py:762-793 | the image is shown, both axes are sized to it, each axis takes the range passed or keeps its own, and the sections under the lines are emitted |
| MainCtrl.ReadFailure | surfaceplot/controllers/main_ctrl.py:190-194 | `load_csv` reports exactly NotCsvError and IndexError from reading; any other error escapes |
| MainCtrl.InterpolationFailure | surfaceplot/controllers/main_ctrl.py:201-205 | `load_csv` reports exactly the ValueErrors of the interpolation; any other error escapes |
| MainCtrl.CoordText | surfaceplot/controllers/main_ctrl.py:112-114 | the label text is the formatted coordinate at `pos`, with Python indexing; an out-of-range index is an IndexError |
| MainCtrl.FirstErrorPrefix | surfaceplot/controllers/main_ctrl.py:57-58 | once one slot of a batch has raised, later signals do not change the error the delivery ends with |
| MainCtrl.ApplyAllAppend | surfaceplot/controllers/main_ctrl.py:57-58 | delivering two batches in turn is delivering their concatenation |
| MainCtrl.ApplyAllLast | surfaceplot/controllers/main_ctrl.py:57-58 | after a batch without error, each curve and label shows the last section of its direction, or stays when there is none |
| MainCtrl.FirstErrorAppend | surfaceplot/controllers/main_ctrl.py:57-58 | the first error of two batches delivered in turn is the first batch's, else the second's |
| MainCtrl.NoLabelError | surfaceplot/controllers/main_ctrl.py:112-131 | the label slots never raise on sections read off an image whose coordinate vectors have one entry per column and one per row |
| MainCtrl.SectionsReadOff | surfaceplot/views/graph_items.py:280-300 | every section an image emits carries a row or a column index of that image |
| MainCtrl.ShownWithoutError | surfaceplot/controllers/main_ctrl.py:78-97 | an image whose coordinate vectors fit it is shown, re-sampled or loaded without a label slot raising |
| MainCtrl.ThenKinds | surfaceplot/controllers/main_ctrl.py:150-177 | one `if selected[k]:` block keeps the files asked for equal to the boxes seen so far while nothing failed, and a prefix after |
| MainCtrl.ExportPlan | surfaceplot/controllers/main_ctrl.py:144-177 | a missing x coordinate cuts the export before any file with that error; then a missing y coordinate does the same; at most four files are asked for. Which blocks then succeed is `ExportPlanSucceeds` |
| MainCtrl.SectionTable | surfaceplot/controllers/main_ctrl.py:158-160 | `to_df(np.c_[keys, curve], (name, 'value'))` succeeds exactly when the curve can be stacked beside the keys, and otherwise raises a ValueError; a drawn curve gives the table of keys and curve values, and a never-drawn one beside a single key gives one row whose value is missing |
| MainCtrl.ExportPlanSucceeds | surfaceplot/controllers/main_ctrl.py:144-177 | the export runs through if and only if the coordinates exist and every selected block's conditions hold: the image fits the coordinates, each section's curve can be stacked beside its coordinates (`Stackable`: equal length, or a never-drawn curve beside a single coordinate), and each line's truncated position indexes the other coordinate |
| MainCtrl.ThenAllStep | surfaceplot/controllers/main_ctrl.py:150-177 | the blocks run one after another |
| MainCtrl.BlocksInOrder | surfaceplot/controllers/main_ctrl.py:150-177 | the four blocks are the list of blocks run in order |
| MainCtrl.BlocksOrder | surfaceplot/controllers/main_ctrl.py:150-177 | the blocks keep the selected order whatever step each would take |
| MainCtrl.ExportBlankSection | surfaceplot/controllers/main_ctrl.py:158-165 | with a single x coordinate, a horizontal section that was never drawn is still exported, as one row with a missing value |
| MainCtrl.ExportPlanOrder | surfaceplot/controllers/main_ctrl.py:150-177 | one file per selected box in the order image, image_coord, hcs, vcs; after an exception a prefix of that order |
| MainCtrl.ThenFits | surfaceplot/controllers/main_ctrl.py:150-177 | a block adds at most its own file, so every suffix keeps its form |
| MainCtrl.ExportSuffixes | surfaceplot/controllers/main_ctrl.py:150-177 | the suffixes are `_image_<m>`, `_image_coord_<m>`, `_hcs_<y at the line>_<m>` and `_vcs_<x at the line>_<m>` |
| MainCtrl.WritesAppend | surfaceplot/models/export.py:109-117 | one step more writes one file more, when the exporter can write |
| MainCtrl.WritesFiles | surfaceplot/models/export.py:109-117 | without a file name or a directory nothing is written; otherwise one file per step, in order, at each step's target path, stamped with the time its block read |
| MainCtrl.PerformWrites | surfaceplot/controllers/main_ctrl.py:150-177 | one more block keeps the files and directories in step with the plan |
| MainCtrl.MainWindow.constructor | surfaceplot/controllers/main_ctrl.py:27-44 | over the module-level `InterpolatedImage()` (sample count 10, no grids), the method selector starts at the first method and nothing is shown |
| MainCtrl.MainWindow.ChangeIndexToCoordH | surfaceplot/controllers/main_ctrl.py:99-114 | the Y label shows the y coordinate at `pos`; an index error leaves it; the X label and title stay |
| MainCtrl.MainWindow.ChangeIndexToCoordV | surfaceplot/controllers/main_ctrl.py:116-131 | the X label shows the x coordinate at `pos`; an index error leaves it; the Y label and title stay |
| MainCtrl.MainWindow.DeliverOne | surfaceplot/controllers/main_ctrl.py:57-58 | a section is drawn and its label written: the readout becomes `Apply` of the signal unless the label slot raises |
| MainCtrl.MainWindow.Deliver | surfaceplot/controllers/main_ctrl.py:57-58 | signals go to their slots in order, ending with the first error raised; without one the readout becomes `ApplyAll` of the batch |
| MainCtrl.MainWindow.ChangeInterpolateNum | surfaceplot/controllers/main_ctrl.py:60-81 | the resolution is always stored and the title stays. With no image, nothing else changes. Otherwise: a grid error is raised and leaves the grids and the screen alone; an interpolation error is raised after the grids were rebuilt and leaves the screen alone; when the grids and the interpolation succeed the handler ends `Done`. Then the image is re-sampled, both axes take its size and keep their ranges, the lines are scaled by new height / old height, and the sections are delivered |
| MainCtrl.MainWindow.Resample | surfaceplot/controllers/main_ctrl.py:78 | `resize_image` followed by the delivery of what it emits: the axes take the image size and keep their ranges, the title stays, the error is the first a label slot raises, and none is raised when the coordinate vectors fit the image |
| MainCtrl.MainWindow.ChangeInterpolateMethod | surfaceplot/controllers/main_ctrl.py:83-97 | the method is stored and the title stays. Without data nothing else changes. An interpolation error is raised and leaves the screen alone. A successful interpolation ends `Done`, showing the new image with the axes sized to it, the lines and axis ranges kept, and the sections under the lines delivered |
| MainCtrl.MainWindow.DisplayImage | surfaceplot/controllers/main_ctrl.py:97 | `set_image` followed by the delivery of the sections under the lines; the error is the first a label slot raises, and none is raised when the coordinate vectors fit the image |
| MainCtrl.MainWindow.ShowExportDialog | surfaceplot/controllers/main_ctrl.py:218-231 | the dialog opens only while an image is shown; otherwise an error is reported |
| MainCtrl.MainWindow.Perform | surfaceplot/controllers/main_ctrl.py:150-177 | one block writes its file exactly when selected, nothing failed before, its step exists and the exporter can write; the file is stamped with the time that block read |
| MainCtrl.MainWindow.RunBlocks | surfaceplot/controllers/main_ctrl.py:150-177 | the blocks in turn end with the plan's failure and leave exactly the plan's files written, each stamped with the time its own block read |
| MainCtrl.MainWindow.ExportSelected | surfaceplot/controllers/main_ctrl.py:133-177 | the files written are those of `ExportPlan`, in order, each stamped with the clock reading of the block that wrote it, with the root directory created when one was written; the outcome is the plan's failure |
| MainCtrl.MainWindow.ResetLines | surfaceplot/controllers/main_ctrl.py:212-214 | the error is exactly the first one a label slot raises on the reset's signals; without one, both lines end at 0 and each line that moved delivers its section at 0 |
| MainCtrl.MainWindow.ShowNewImage | surfaceplot/controllers/main_ctrl.py:207-214 | the error is exactly the first one a label slot raises on the load's signals, and none is raised when the coordinate vectors fit the image; without one the new image is shown with the data's ranges on the axes, both lines at 0, and the readout of the load's signals |
| MainCtrl.MainWindow.ShowLoaded | surfaceplot/controllers/main_ctrl.py:200-216 | an interpolation failure leaves the old image and is reported as a ValueError or raised; a missing coordinate range is raised and leaves the old image; when the interpolation and both ranges succeed the load ends `Done` and the screen is `ShowsLoaded` |
| MainCtrl.MainWindow.ReadCsv | surfaceplot/controllers/main_ctrl.py:190-194 | a non-CSV path is reported as NotCsvError and changes nothing. For a `.csv` path the data becomes the file's last three columns and the grids are built from them, or stay as they were when `make_xy_grid` raises (`HoldsFile`); that error ends as `ReadFailure` says, and the resolution stays |
| MainCtrl.MainWindow.ShowName | surfaceplot/controllers/main_ctrl.py:196-198 | the stem becomes the plot title and the exporter's (sanitised) file name |
| MainCtrl.MainWindow.LoadFile | surfaceplot/controllers/main_ctrl.py:190-216 | a non-CSV path changes nothing. A `.csv` path leaves the data and grids as `HoldsFile` states; a grid failure ends as `ReadFailure` says (an IndexError is reported, a ValueError escapes) and leaves exporter, title and screen as they were. When the grids can be built, the title is `graph_title(stem)` and the export name `replace_string(stem)`; an interpolation failure then leaves the old image, and a successful one ends `Done` with the screen `ShowsLoaded`. Method, resolution and export directory stay |
| MainCtrl.MainWindow.ShowFile | surfaceplot/controllers/main_ctrl.py:196-216 | with grids built from the data: the title becomes `graph_title(stem)` and the export name `replace_string(stem)`, then the interpolated image is shown. An interpolation failure leaves the old image, and a successful one ends `Done` with the screen `ShowsLoaded` |
| MainCtrl.MainWindow.LoadCsv | surfaceplot/controllers/main_ctrl.py:179-216 | a filter other than `*csv` changes nothing, and a non-CSV path changes nothing. Otherwise the data and grids are as `HoldsFile` states; a grid failure ends as `ReadFailure` says (an IndexError is reported, a ValueError escapes) and leaves exporter, title and screen unchanged. When the grids can be built, the title is `graph_title(stem)`, the export name `replace_string(stem)`, an interpolation failure leaves the old image, and a successful one ends `Done` with the screen `ShowsLoaded`: the image with the data's ranges, both lines at 0, row 0 and column 0, and the first coordinate of each axis. Method, resolution and export directory stay |
| MainCtrl.LastAppend | surfaceplot/controllers/main_ctrl.py:57-58 | the last section of each direction in two batches comes from the second when it has one |
| MainCtrl.TwoBatches | surfaceplot/controllers/main_ctrl.py:210-214 | two batches delivered without error in turn are their concatenation delivered |
| MainCtrl.LoadLastSections | surfaceplot/controllers/main_ctrl.py:210-214 | the last sections a complete load emits are row 0 and column 0 |
| MainCtrl.LoadShowsOrigin | surfaceplot/controllers/main_ctrl.py:207-216 | after a complete load the curves are row 0 and column 0, labelled with the first y and the first x coordinate |

## Left out

- Qt layout, widget construction, styling, tooltips, the color bar and the `SignalProxy` rate limit: these are rendering and event-loop concerns. Signal wiring is modelled only as in-order delivery of what each widget method emits, once that method returns. Qt runs these direct connections at the emit itself. The difference is not observable: the slots (surfaceplot/views/graph_items.py:680-681, surfaceplot/controllers/main_ctrl.py:57-58) write only the section curves and the position labels, which no widget method reads. An exception in a slot ends the handler in the model, where PyQt5 ends the application.
- `init_ui` and `connect_slot` are not separate members. Their effect is the constructor's initial method (`Linear`) and the delivery order.
- `show_origin_coord` and `CoordScatter.set_data` (the scatter of original points) and `show_error_message` are left out: they only draw. A shown error is the `Reported` outcome.
- `DataLabel.set_text`, `get_data_range`, `CrossSectionPlot.set_range`, `autoBtnClicked` and `reset_color_levels` are left out. They format `nanmax`/`nanmin` floats and set display ranges, which is rendering and floating point.
- `set_cursor_point` is modelled only as the stored cursor pair (`GetCursorData`); `mapSceneToView` and `sceneBoundingRect` are left out. The view coordinates and the inside test are parameters.
- `current_image` is the displayed image field `image` of the colour map.
- `make_lookup_table` is modelled only through `hex_to_rgb`. The colorcet palette's contents and the `uint8` conversion are left out.
- The `repr(path).replace("'", "")` path munging is left out, because it depends on Python's `repr` escaping; paths are opaque strings. `Path` parsing is reduced to '/' separators (`FileName`, `Suffix`, `Stem`).
- The file dialog, `pd.read_csv`, `to_csv` and `np.savetxt` are left out, because they are I/O. The dialog's answer and the table read are parameters. A write is an entry (path, payload) in the file system's log. The failures of these calls are left out too. The model always reads a `.csv` path, where `pd.read_csv` raises for a missing file and for an empty one (`EmptyDataError`, a ValueError that `load_csv` does not catch). `FileSystem.MakeDir` and the writes always succeed, where `Path.mkdir` raises when the parent directory is missing.
- `scipy.interpolate.griddata` is not modelled inside, because it is a foreign library call: the `Interpolator` parameter decides failure and values.
- `datetime.now()` is left out, because it reads the clock. Its readings are a parameter: one per block of `export`, since each write reads the clock again (`Readings`). The `:.3f` formatting is the parameter `fmt`.
- Floating point is left out: reals are exact, so rounding in `linspace`, the tick coefficient and `int(ratio * pos)` is not captured. NaN is not modelled.
- `to_df` (surfaceplot/models/export.py:26-30) is not a member of its own: `MainCtrl.SectionTable` builds the table it returns, a `Section` or `BlankSection` payload, together with the `np.c_` stacking in front of it.
- The export dialog (`ExDialog`) is left out: only its result, the four check-box flags, reaches `export`.
- Interpolate.Linspace: states only the sample count; what the samples are is stated by `LinspaceEnds` and `LinspaceOrdered`.
- GraphItems.HexToRgb: states channels in -15..255 instead of the documented 0..255, because Python's `int(s, 16)` accepts a sign (`HexToRgbNegative`).
- MainCtrl.MainWindow.ChangeInterpolateNum: requires 1 <= points <= 100, the range of the sample-count spin box; other values cannot reach the handler.
- GraphItems.AxisScale.ChangeSize: requires a positive size, where the source raises ZeroDivisionError for size 0. Every caller passes a dimension of an image about to be shown. The window keeps the sample count at 1 or more (`MainWindow.Valid`), and `GridsNonEmpty` proves that every grid, and so every interpolated image, then has a row and a column.
- Interpolate.CoordRange: for data with the column but no rows it gives `Err(EmptyData)`. pandas gives `(nan, nan)` without raising there (`np.min` of an empty Series), a value the model does not have. `load_csv` cannot reach this case: `make_xy_grid` raises first for data without rows (surfaceplot/models/interpolate.py:138, `GridsError`).
- Interpolate.InterpolatedImage.GetCoordRange: carries the `EmptyData` error of `CoordRange` for a column without rows.
- GraphItems.PyIntHexGeneral: reads ASCII digits only. Python's `int(s, 16)` also reads the decimal digits of other scripts by their value, so `hex_to_rgb('#١١٢٢٣٣')` gives [17, 34, 51] where the model gives a ValueError. The `0x` prefix and `_` between digits, which Python also accepts, give a ValueError in a two-character slice either way.
