# CYGNSS soil-moisture transcoder, modelled in Dafny

`podaac_cygnss_sm_adapter.py` rewrites one daily CYGNSS Level 3 soil-moisture
netCDF file (UCAR/CU) into the layout PO.DAAC publishes. The rewritten file
sits beside the input, with the input's name behind a leading underscore.

The program has two parts, both modelled here.

A `Configuration` for the file holds:
- the output path;
- a reference time, noon of the day named by the `YYYY_DDD` stamp at the end of the file name;
- the `time` value in days since 1970-01-01;
- the per-variable attribute table;
- the global attribute table. Its empty entries are filled from the file name and from the input's `History` and `Version` attributes. The creation date in `History` is accepted as `05-Jan-2019` or as `2019-01-05`.

`main` writes the output file:
1. a `time` dimension of length one and a `time` variable;
2. every source dimension;
3. every source variable. Latitude and longitude grids get a quarter turn. Sub-daily fields are turned slab by slab. Daily fields are turned and get a leading `time` axis. Names starting with `time` pass through unchanged. Listed variables get the fill value -9999, and each variable gets its configured attributes;
4. the grid dimensions `rows`/`columns` are renamed `lat`/`lon`;
5. the global attributes are set.

The first exception stops the run. The output keeps whatever was written up to that point.

The model is split into modules:
- `Wrappers`, `Errors`: the `Option`/`Result` types and the failures the run can raise.
- `PyText`: Python slicing with negative and clamped bounds, decimal digits, zero padding, prefix/suffix tests and ASCII case folding.
- `PosixPath`: `basename`, `dirname`, `join` and the output path.
- `Calendar`: the proleptic Gregorian calendar, ordinals, `timedelta(hours=…)`, `date2num` in days since 1970-01-01, and ISO rendering.
- `Strptime`: the exact strings `strptime` accepts for `%Y_%j`, `%d-%b-%Y` and `%Y-%m-%d`, and the dates it returns.
- `Rotation`: N-dimensional arrays, `numpy.rot90` (plain and on axes `(1, 2)`) and `np.newaxis`.
- `Config`: the class body's tables and `Configuration.__init__`.
- `Dispatch`: the per-variable branch on the name, the fill value and the reshaping.
- `Target`: the output dataset. `Container` is its contents as a value, with one function per library call (`createDimension`, `createVariable`, writing data, `setncatts`, `renameDimension`). The `Dataset` class makes those calls in place.
- `Transcoder`: `main`:
  - `Run` is the reference definition over `Container`, with the first failure kept in a `Progress`;
  - `Transcode` and its loop methods perform the same calls on a `Dataset` and are proved to end in the state `Run` gives;
  - `Adapt` builds the configuration and then transcodes.

The code and a plain reading of the program's intent disagree in two places; the model follows the code:
- A source dimension named `time` is not skipped. It collides with the `time` dimension `main` has already created and stops the run with a name-in-use error. `RunDimensionNames` proves a successful run needs a source without one.
- `rot90(…, axes=(1, 2))` turns an `(s, m, n)` sub-daily field into `(s, n, m)`. The axes really are swapped (`SubdailyTransform`).

## Model

| member | source | states |
|---|---|---|
| Config.ReferenceTimeOf | podaac_cygnss_sm_adapter.py:171-173 | the reference time exists exactly when the stamp reads as `%Y_%j`; it is then valid, at hour 12, on the day the stamp names |
| Config.InitOutcome | podaac_cygnss_sm_adapter.py:164-207 | `Configuration(file)` succeeds exactly when the filename stamp reads as `%Y_%j`, the source has `History` and `Version` and the history line carries a creation date; otherwise it fails at the first of these in source order: stamp (:171), `History` (:183), `Version` (:184), history date (:188-190) |
| Config.InitConfigure | podaac_cygnss_sm_adapter.py:164-207 | for a file whose stamp names day `d`, the configuration is built from noon of `d` and the parsed creation date |
| Config.InitContents | podaac_cygnss_sm_adapter.py:164-207 | for a file whose stamp names day `d` the configuration has the output beside the input named `_` + its name, `timed` noon of `d`, `timev` the day count of `d` plus one half, coverage from `d`T00:00:00 to `d`T23:59:59, `source` the input's name, `version` the number read, `history` the input's history with the release note, and `date_created` the date read from the history |
| Config.ConfiguredTimes | podaac_cygnss_sm_adapter.py:175 | for a noon reference time, `timev` is the one value days-since-1970-01-01 plus one half, whose floor is the day count; both coverage strings name that same calendar day |
| Config.ConfiguredOutput | podaac_cygnss_sm_adapter.py:168 | the output is in the input's directory and named `_` followed by the input's name |
| Config.ConfiguredProvenance | podaac_cygnss_sm_adapter.py:196-206 | `source` is the input's base name; `history` is the input's history plus the release note with the generation time; `version` is the version number; `date_created` is the date read from the history |
| Config.AttributeFilled | podaac_cygnss_sm_adapter.py:121-162 | after `update` every global attribute has a value; exactly the class body's `None` entries are replaced, and every preset value is kept |
| Config.DerivedAttributes | podaac_cygnss_sm_adapter.py:196-206 | the update dictionary holds exactly the ten entries the class body leaves `None`, none of them `None` |
| Config.CreationDateEitherFormat | podaac_cygnss_sm_adapter.py:186-193 | a history line that has the date from index 8 on, as `%d-%b-%Y` or as `%Y-%m-%d`, gives the same creation date, that day at midnight in ISO form; the ISO spelling never matches the first format |
| Config.Day77Stamp | podaac_cygnss_sm_adapter.py:171 | the file `level3/ucar_cu_cygnss_sm_v1_2017_077.nc` has the stamp `2017_077` |
| Config.Day77Of2017 | podaac_cygnss_sm_adapter.py:171-175 | the stamp `2017_077` gives noon on 2017-03-18, which is day 17243 after 1970-01-01 |
| Config.Day77Coverage | podaac_cygnss_sm_adapter.py:204 | the coverage start of that day is `2017-03-18T00:00:00` |
| PosixPath.OutputPathParts | podaac_cygnss_sm_adapter.py:168 | `join(dirname(f), "_" + basename(f))` has base name `_` + `basename(f)` and directory `dirname(f)` |
| PosixPath.Basename | podaac_cygnss_sm_adapter.py:168 | the base name contains no slash |
| PosixPath.BasenameIsLastComponent | podaac_cygnss_sm_adapter.py:168 | the base name is a suffix of the path with no slash in it, and it is preceded by a slash unless it is the whole path: it is the last path component |
| PyText.SliceBound | podaac_cygnss_sm_adapter.py:171 | a slice bound counts from the end when negative; a bound past the end becomes the length, one below minus the length becomes 0, and an in-range bound is kept |
| PyText.SliceInside | podaac_cygnss_sm_adapter.py:188-190 | a slice with in-range, ordered bounds is the plain subsequence |
| Strptime.ParseYearDayOfYear | podaac_cygnss_sm_adapter.py:171 | `%Y_%j` yields, when it succeeds, a valid date at midnight |
| Strptime.YearDayStampRead | podaac_cygnss_sm_adapter.py:171 | a `YYYY_DDD` stamp reads back as the date DDD - 1 days after 1 January of YYYY, at midnight; a result past 9999-12-31 is an error |
| Strptime.DayMonthYearRead | podaac_cygnss_sm_adapter.py:188 | a date written `%d-%b-%Y` reads back as that date at midnight |
| Strptime.IsoDateRead | podaac_cygnss_sm_adapter.py:190 | a date written `%Y-%m-%d` reads back as that date at midnight |
| Strptime.IsoPrefixIsNotDayMonthYear | podaac_cygnss_sm_adapter.py:187-190 | a string starting with four digits is a ValueError under `%d-%b-%Y`, so the fallback format is the one that applies |
| Strptime.AbbreviatedMonthField | podaac_cygnss_sm_adapter.py:188 | a `%b` match gives a month number 1–12 whose abbreviation equals the text, ignoring letter case |
| Strptime.CaseVariantFound | podaac_cygnss_sm_adapter.py:188 | `%b` accepts any letter-case spelling of a month's abbreviation (`JAN`, `jAn`) and gives that month |
| Strptime.MonthNameFound | podaac_cygnss_sm_adapter.py:188 | every month's abbreviation as the C locale writes it is accepted by `%b` and gives that month |
| Strptime.ParseDayMonthYear | podaac_cygnss_sm_adapter.py:188 | `%d-%b-%Y` yields, when it succeeds, a valid date at midnight |
| Strptime.ParseYearMonthDay | podaac_cygnss_sm_adapter.py:190 | `%Y-%m-%d` yields, when it succeeds, a valid date at midnight |
| Calendar.AddHoursElapsed | podaac_cygnss_sm_adapter.py:173 | adding fewer than 24 hours moves the time exactly that many hours later and keeps it valid; it overflows only past 9999-12-31 |
| Calendar.DateNumAtNoon | podaac_cygnss_sm_adapter.py:175 | `date2num` of noon is the day count since 1970-01-01 plus one half |
| Calendar.FromDayOfYearOrdinal | podaac_cygnss_sm_adapter.py:171 | day `doy` of a year is the date `doy - 1` days after 1 January |
| Calendar.OrdinalInjective | podaac_cygnss_sm_adapter.py:175 | distinct valid dates have distinct day numbers |
| Calendar.MidnightIso | podaac_cygnss_sm_adapter.py:188-190 | `strftime("%Y-%m-%dT%H:%M:%S")` of midnight is the ISO date followed by `T00:00:00` |
| Dispatch.FillFor | podaac_cygnss_sm_adapter.py:236-240 | a variable gets a fill value exactly when it is listed in `vfilled`, and the fill is -9999 |
| Dispatch.Transform | podaac_cygnss_sm_adapter.py:244-254 | the reshaping fails exactly when the array has fewer axes than its branch turns, with an axes error |
| Dispatch.SuffixesExclusive | podaac_cygnss_sm_adapter.py:248-251 | no name ends in both `_subdaily` and `_daily`, so the order of the two tests does not matter |
| Dispatch.ConfiguredKinds | podaac_cygnss_sm_adapter.py:244-247 | `latitude` and `longitude` take the grid branch; `time` and `timeintervals` pass through |
| Dispatch.ConfiguredFieldKinds | podaac_cygnss_sm_adapter.py:247-254 | the sub-daily and daily soil-moisture fields take their suffix branches |
| Dispatch.TimePrefixPassesThrough | podaac_cygnss_sm_adapter.py:247 | any name starting with `time` keeps its data and dimensions, whatever its suffix |
| Dispatch.OtherNamesPassThrough | podaac_cygnss_sm_adapter.py:236-254 | a name that takes none of the three reshaping branches keeps its data and its dimension names |
| Dispatch.GridTransform | podaac_cygnss_sm_adapter.py:244-246 | an m-by-n grid becomes n-by-m with `r[i][j] == a[j][n-1-i]`, over `(rows, columns)` |
| Dispatch.SubdailyTransform | podaac_cygnss_sm_adapter.py:248-250 | an `(s, m, n)` field becomes `(s, n, m)`, each slab turned a quarter, over `(timeslices, rows, columns)` |
| Dispatch.DailyTransform | podaac_cygnss_sm_adapter.py:251-254 | an m-by-n field becomes `(1, n, m)` whose only slab is the turned grid, over `(time, rows, columns)` |
| Dispatch.RankMatchesDims | podaac_cygnss_sm_adapter.py:244-257 | given the rank each branch expects, the reshaped data has one axis per declared dimension |
| Rotation.Rot90 | podaac_cygnss_sm_adapter.py:245 | `rot90` swaps the two leading lengths and puts `a[j][n-1-i]` at `[i][j]` |
| Rotation.RotTrailing | podaac_cygnss_sm_adapter.py:249 | `rot90(axes=(1, 2))` turns every slab along the first axis |
| Rotation.NewAxis | podaac_cygnss_sm_adapter.py:253 | `np.newaxis` adds a leading axis of length one holding the array |
| Rotation.FourQuarterTurns | podaac_cygnss_sm_adapter.py:245 | four quarter turns give back the array, so the turn loses no element |
| Target.DimensionFor | podaac_cygnss_sm_adapter.py:230 | a size of `None` or 0 makes an unlimited dimension; any other size a fixed one of that length |
| Target.FirstUndefined | podaac_cygnss_sm_adapter.py:257 | `createVariable` finds an undefined dimension exactly when one of the names is not in the dataset; the one it reports is the first such name, every name before it being defined |
| Target.DefineDimensionEffect | podaac_cygnss_sm_adapter.py:220 | `createDimension` fails exactly on a taken name; otherwise it adds that one dimension, changes nothing else and keeps the dataset consistent |
| Target.DefineVariableEffect | podaac_cygnss_sm_adapter.py:222 | `createVariable` fails exactly on a taken name or an undefined dimension, reporting the undefined dimension when both apply; otherwise it adds the variable as declared, with no data or attributes, and keeps the dataset consistent |
| Target.RenameDimensionEffect | podaac_cygnss_sm_adapter.py:266-267 | `renameDimension` fails exactly when the old name is missing or the new one is taken; otherwise it moves the length, keeps every other dimension, relabels every variable and keeps the dataset consistent |
| Target.RenameDimensionUndone | podaac_cygnss_sm_adapter.py:266-267 | a rename to a fresh name, followed by the rename back, restores the dataset |
| Target.Relabel | podaac_cygnss_sm_adapter.py:266-267 | each occurrence of the old name in a dimension list becomes the new name; every other name is kept |
| Target.Dataset.constructor | podaac_cygnss_sm_adapter.py:217 | a dataset opened for writing at a path starts empty |
| Target.Dataset.CreateDimension | podaac_cygnss_sm_adapter.py:220 | the open dataset ends as `createDimension` says and reports its failure, or stays unchanged |
| Target.Dataset.CreateVariable | podaac_cygnss_sm_adapter.py:222 | the open dataset ends as `createVariable` says, checking the dimensions one by one |
| Target.Dataset.Rename | podaac_cygnss_sm_adapter.py:266 | the open dataset ends as `renameDimension` says |
| Target.Dataset.Write | podaac_cygnss_sm_adapter.py:259 | the variable's data is replaced and nothing else changes |
| Target.Dataset.SetAttributes | podaac_cygnss_sm_adapter.py:261 | the given attributes are merged into the variable's |
| Target.Dataset.SetGlobalAttributes | podaac_cygnss_sm_adapter.py:270 | the given global attributes are merged into the dataset's |
| Transcoder.Begin | podaac_cygnss_sm_adapter.py:220-226 | after the first four calls the target holds only the `time` dimension of length one and the `time` variable, with its configured attributes and the configured value |
| Transcoder.CopyDimension | podaac_cygnss_sm_adapter.py:229-230 | a pass adds the dimension with the source's length (`None` when unlimited) unless the name is taken; after a failure nothing happens |
| Transcoder.CopyVariable | podaac_cygnss_sm_adapter.py:233-261 | a pass succeeds exactly when the reshaping applies, the name is new and listed in `Configuration.variables`, and the declared dimensions exist; it then adds the variable as declared; an unlisted name whose other steps succeed fails with `KeyError` after the data is written, with no attributes; every other failure leaves the target as it was |
| Transcoder.DimensionsCopied | podaac_cygnss_sm_adapter.py:229-230 | a successful dimension loop adds every source dimension under a new name, keeps the rest, adds nothing else and touches no variable or global |
| Transcoder.VariablesCopied | podaac_cygnss_sm_adapter.py:233-261 | a successful variable loop adds every source variable as declared under a new name, keeps the rest, adds nothing else and touches no dimension or global |
| Transcoder.LoopsResult | podaac_cygnss_sm_adapter.py:218-261 | after both loops the target holds `time` and the source's dimensions and variables, and nothing else; none of the source names is `time`; there are no globals yet |
| Transcoder.FinishResult | podaac_cygnss_sm_adapter.py:266-270 | the finish succeeds only with `rows` and `columns` present and `lat` and `lon` free; it moves their lengths to `lat`/`lon`, relabels every variable and sets the configured globals |
| Transcoder.RunConsistent | podaac_cygnss_sm_adapter.py:218-270 | every state the run leaves, failed or not, has each variable over existing dimensions |
| Transcoder.RunDimensionNames | podaac_cygnss_sm_adapter.py:220-267 | a successful run needs `rows` and `columns` in the source and no `time`, `lat` or `lon`; the target's dimensions are `time` plus the source's, renamed |
| Transcoder.RunDimensions | podaac_cygnss_sm_adapter.py:220-267 | in a successful run `time` has length one, and each source dimension has, under its target name, its source length or is unlimited |
| Transcoder.RunVariableNames | podaac_cygnss_sm_adapter.py:222-261 | a successful run's variables are `time` and the source's variables, none of which is named `time` |
| Transcoder.RunTimeVariable | podaac_cygnss_sm_adapter.py:222-226 | a successful run keeps the `time` variable as first written |
| Transcoder.RunVariables | podaac_cygnss_sm_adapter.py:233-267 | in a successful run each source variable is listed, reshapes, and is present as declared, over the renamed dimensions |
| Transcoder.RunGlobals | podaac_cygnss_sm_adapter.py:270 | a successful run ends with exactly the configured global attributes |
| Transcoder.CopyDimensionsInto | podaac_cygnss_sm_adapter.py:229-230 | the dimension loop on the open dataset ends where `CopyDimensions` does |
| Transcoder.CopyVariableInto | podaac_cygnss_sm_adapter.py:233-261 | one pass of the variable loop on the open dataset ends where `CopyVariable` does |
| Transcoder.CopyVariablesInto | podaac_cygnss_sm_adapter.py:233-261 | the variable loop on the open dataset ends where `CopyVariables` does |
| Transcoder.FinishInto | podaac_cygnss_sm_adapter.py:266-270 | the renames and the globals on the open dataset end where `Finish` does |
| Transcoder.Transcode | podaac_cygnss_sm_adapter.py:211-273 | `main` creates a new dataset at the output path and leaves it, with its failure, exactly as `Run` says |
| Transcoder.Adapt | podaac_cygnss_sm_adapter.py:211-273 | on a successful configuration, `main` ends as `Run` says for that configuration and the configured variable table |

## Left out

- Reading the source file and writing the target file are not modelled. The source is a value listing its dimensions and variables in file order; the target follows library semantics as far as `main` relies on them.
- `print`, `sync` and closing files are not modelled. They change no state that the model follows.
- `tstamp`, the generation time the module takes from the clock when it loads, is a parameter.
- The command-line guard is not modelled: reading `argv`, the `isfile` check and skipping the static-flags file. It is I/O and does not call anything beyond `main`.
- The latitude and longitude extremes (`lat.min()` and so on) are a `Bounds` parameter. Reading them raises a KeyError when either variable is missing; that error is not modelled.
- Parsing of `Version` is not modelled: `float(_vers.replace("version ", ""))` is taken as a given number, and its ValueError on unparsable text is left out.
- Floating-point arithmetic is not modelled. `date2num` is exact rational arithmetic, without `f4` rounding.
- The NaN substitution `data[data == np.nan] = fill` is not modelled. IEEE comparison with NaN is always false, so the statement changes nothing.
- `date2num` is modelled on the proleptic Gregorian calendar. The library's default calendar switches to Julian before 1582-10-15; no CYGNSS file lies there.
- `strptime` is modelled for ASCII digits and the C locale's month abbreviations.
- Calendar.IsoDate: writes a year below 1000 zero-padded to four digits, where glibc's `strftime` writes `%Y` unpadded (`999`). Only `time_coverage_start`, `time_coverage_end` and `date_created` of a file dated before year 1000 would differ.
- Config.Name: gives each `Global` its attribute name in the file for the reader; no contract uses it, because the model keys global attributes by `Global`.
- `time[:] = [conf.timev]` nests the one-element list once more. The model writes the single value as a one-axis array, which is how the library broadcasts it.
- Data shapes are not checked when a variable is written. A shape that does not fit the declared dimensions would raise in the library.
- The order of attributes and of declarations in the output file is not modelled. Attributes are maps.
- Global attributes are keyed by the `Global` enumeration, whose `Name` gives the file's name for each. `main` writes no global attribute except the configured ones.
- `Configuration.attributes` is a class attribute that `update` mutates. Every instance shares it, so instances later in a process see the first instance's derived values until they overwrite them. Each configuration is modelled as building its own table from the class body.
- The per-variable attribute table is passed to `Run` and `Transcode` as a `registry` parameter. `Adapt` passes `Config.VariableAttributes`, the table itself.
- Failures that can only arise inside the library are not modelled: HDF5 errors, full disks and permission errors.
