/**
 * The `Configuration` of one run: where the output goes, the reference time
 * read from the filename, and the global and per-variable attribute tables,
 * with the entries that are left `None` in the class body filled in from the
 * file's name and its `History` line.
 */
module Config {
  import opened Wrappers
  import opened Errors
  import opened PyText
  import opened PosixPath
  import opened Calendar
  import opened Strptime

  /** `Configuration.vfill`: the declared fill value. */
  const FillValue: real := -9999.0

  /** `Configuration.vfilled`: the variables that get a fill value. */
  const FilledVariables: seq<string> :=
    ["timeintervals", "SIGMA_daily", "SM_daily", "SM_subdaily", "SIGMA_subdaily"]

  const TimeUnits: string := "days since 1970-01-01 00:00:00 UTC"

  /** `Configuration.variables`: the attributes written on each output variable. */
  const VariableAttributes: map<string, map<string, string>> := map[
    "SIGMA_daily" := map[
      "comment" := "units represent soil moisture content as a fractional volume (cm3 cm-3)",
      "long_name" := "standard deviation of soil moisture retrievals during the 24 hr period for the grid cell",
      "units" := "1",
      "coverage_content_type" := "modelResult"],
    "SM_daily" := map[
      "comment" := "units represent soil moisture content as a fractional volume (cm3 cm-3)",
      "long_name" := "mean soil moisture retrieval during the daily time periods for the grid cell",
      "units" := "1",
      "coverage_content_type" := "modelResult"],
    "SM_subdaily" := map[
      "comment" := "units represent soil moisture content as a fractional volume (cm3 cm-3)",
      "long_name" := "mean soil moisture retrieval during the sub-daily time periods for the grid cell",
      "units" := "1",
      "coverage_content_type" := "modelResult"],
    "SIGMA_subdaily" := map[
      "comment" := "units represent soil moisture content as a fractional volume (cm3 cm-3)",
      "long_name" := "standard deviation of soil moisture retrievals during the sub-daily time periods for the grid cell",
      "units" := "1",
      "coverage_content_type" := "modelResult"],
    "latitude" := map[
      "standard_name" := "latitude",
      "long_name" := "latitude",
      "axis" := "Y",
      "units" := "degrees_north",
      "coverage_content_type" := "coordinate"],
    "longitude" := map[
      "standard_name" := "longitude",
      "long_name" := "longitude",
      "axis" := "X",
      "units" := "degrees_east",
      "coverage_content_type" := "coordinate"],
    "time" := map[
      "standard_name" := "time",
      "long_name" := "time",
      "units" := TimeUnits,
      "coverage_content_type" := "referenceInformation"],
    "timeintervals" := map[
      "long_name" := "start and stop time for the sub-daily time periods",
      "units" := "hours",
      "coverage_content_type" := "referenceInformation"]
  ]

  /** A global attribute value: a string, a number, or Python's `None`. */
  datatype AttrValue = Text(text: string) | Number(number: real) | Unset

  const SummaryText: string :=
    "The CYGNSS Level 3 Soil Moisture Product provides volumetric water content estimates for soils between 0-5 cm depth at a 6-hour discretization for most of the subtropics. The data were produced by CYGNSS investigators at the University Corporation for Atmospheric Research (UCAR) and the University Colorado at Boulder (CU), and derive from version 2.1 of the CYGNSS L1 SDR. The soil moisture algorithm uses collocated soil moisture retrievals from SMAP to calibrate CYGNSS observations from the same day. For a given location, a linear relationship between the SMAP soil moisture and CYGNSS reflectivity is determined and used to transform the CYGNSS observations into soil moisture. The data are archived in daily files in netCDF-4 format. Two soil moisture variables report the volumetric water content in units of cm3/cm3. The variable SM_subdaily includes up to four soil moisture estimates per day. Another variable SM_daily provides a daily average. The time series covers the period from March 2017 to August 2020."

  const InstitutionText: string :=
    "COSMIC Data Analysis and Archive Center, Constellation Observing System for Meteorology, Ionosphere and Climate, University Corporation for Atmospheric Research (UCAR/COSMIC/CDAAC)"

  /** The global attributes the output carries, in the order the class body
      lists them. */
  datatype Global =
    | Source | Id | ShortName | Title | Summary | Comment | Program | Project
    | Institution | References | KeywordsVocabulary | Keywords | Conventions
    | License | Version | History | CdmDataType | CreatorName | CreatorType
    | CreatorUrl | CreatorEmail | CreatorInstitution | PublisherName | PublisherEmail
    | PublisherType | PublisherUrl | PublisherInstitution | ProcessingLevel
    | GeospatialLatMin | GeospatialLatMax | GeospatialLatUnits | GeospatialLonMin
    | GeospatialLonMax | GeospatialLonUnits | TimeCoverageStart | TimeCoverageEnd
    | TimeCoverageDuration | DateCreated | DateModified | DateIssued

  /** The attribute's name in the file.  The model keys global attributes by
      `Global`, so no contract needs these names; they record which attribute
      of the file each constructor stands for. */
  function Name(g: Global): string {
    match g
    case Source => "source"
    case Id => "id"
    case ShortName => "ShortName"
    case Title => "title"
    case Summary => "summary"
    case Comment => "comment"
    case Program => "program"
    case Project => "project"
    case Institution => "institution"
    case References => "references"
    case KeywordsVocabulary => "keywords_vocabulary"
    case Keywords => "keywords"
    case Conventions => "Conventions"
    case License => "license"
    case Version => "version"
    case History => "history"
    case CdmDataType => "cdm_data_type"
    case CreatorName => "creator_name"
    case CreatorType => "creator_type"
    case CreatorUrl => "creator_url"
    case CreatorEmail => "creator_email"
    case CreatorInstitution => "creator_institution"
    case PublisherName => "publisher_name"
    case PublisherEmail => "publisher_email"
    case PublisherType => "publisher_type"
    case PublisherUrl => "publisher_url"
    case PublisherInstitution => "publisher_institution"
    case ProcessingLevel => "processing_level"
    case GeospatialLatMin => "geospatial_lat_min"
    case GeospatialLatMax => "geospatial_lat_max"
    case GeospatialLatUnits => "geospatial_lat_units"
    case GeospatialLonMin => "geospatial_lon_min"
    case GeospatialLonMax => "geospatial_lon_max"
    case GeospatialLonUnits => "geospatial_lon_units"
    case TimeCoverageStart => "time_coverage_start"
    case TimeCoverageEnd => "time_coverage_end"
    case TimeCoverageDuration => "time_coverage_duration"
    case DateCreated => "date_created"
    case DateModified => "date_modified"
    case DateIssued => "date_issued"
  }

  /** The attributes the class body leaves `None` for `__init__` to derive. */
  predicate Derived(g: Global) {
    || g.Source? || g.Version? || g.History?
    || g.GeospatialLatMin? || g.GeospatialLatMax? || g.GeospatialLonMin? || g.GeospatialLonMax?
    || g.TimeCoverageStart? || g.TimeCoverageEnd? || g.DateCreated?
  }

  /** The value the class body gives attribute `g`; `tstamp` is the generation
      time taken when the program starts. */
  function Preset(g: Global, tstamp: string): AttrValue {
    if Derived(g) then Unset
    else if g == DateModified || g == DateIssued then Text(tstamp)
    else Text(FixedText(g))
  }

  /** The literal strings of the class body. */
  function FixedText(g: Global): string
    requires !Derived(g) && g != DateModified && g != DateIssued
  {
    match g
    case Id => "PODAAC-CYGNU-L3SM1"
    case ShortName => "CYGNSS_L3_SOIL_MOISTURE_V1.0"
    case Title => "CYGNSS Level 3 Soil Moisture from UCAR/CU"
    case Summary => SummaryText
    case Comment => "Dataset created by UCAR and CU Boulder"
    case Program => "CYGNSS"
    case Project => "CYGNSS"
    case Institution => InstitutionText
    case References => "Chew, C.; Small, E. Description of the UCAR/CU Soil Moisture Product. Remote Sens. 2020, 12, 1558. https://doi.org/10.3390/rs12101558"
    case KeywordsVocabulary => "NASA Global Change Master Directory (GCMD) Science Keywords"
    case Keywords => "EARTH SCIENCE > LAND SURFACE > SOILS > SOIL MOISTURE/WATER CONTENT"
    case Conventions => "CF-1.6,ACDD-1.3"
    case License => "Freely Distributed"
    case CdmDataType => "Grid"
    case CreatorName => "Clara Chew, Eric Small"
    case CreatorType => "person, person"
    case CreatorUrl => "https://staff.ucar.edu/users/clarac, http://geode.colorado.edu/~small/"
    case CreatorEmail => "claraac@ucar.edu, eric.small@colorado.edu"
    case CreatorInstitution => "UCAR/COSMIC/CDAAC, UCO"
    case PublisherName => "PO.DAAC"
    case PublisherEmail => "podaac@podaac.jpl.nasa.gov"
    case PublisherType => "institution"
    case PublisherUrl => "https://podaac.jpl.nasa.gov"
    case PublisherInstitution => "NASA/JPL/PODAAC"
    case ProcessingLevel => "3"
    case GeospatialLatUnits => "degrees_north"
    case GeospatialLonUnits => "degrees_east"
    case TimeCoverageDuration => "P1D"
    case _ => ""
  }

  /** `Configuration.attributes` as the class body defines it. */
  function StaticAttributes(tstamp: string): map<Global, AttrValue> {
    map g: Global | true :: Preset(g, tstamp)
  }

  /** The extent of the latitude and longitude grids (`lat.min()` and so on). */
  datatype Bounds = Bounds(latMin: real, latMax: real, lonMin: real, lonMax: real)

  datatype Configuration = Configuration(
    file: string,
    output: string,
    timed: DateTime,
    timev: seq<real>,
    attributes: map<Global, AttrValue>)

  /** The eight characters before a three-character extension: `basename(file)[-11:-3]`. */
  function FilenameStamp(file: string): string {
    Slice(Basename(file), -11, -3)
  }

  /** The history line with the release note appended. */
  function ReleasedHistory(history: string, tstamp: string): string {
    history + ". Modified for PODAAC release " + tstamp + "."
  }

  /** `date_created`: `history[8:19]` read as `%d-%b-%Y`, and only when that is a
      ValueError, `history[8:18]` read as `%Y-%m-%d`, whose own ValueError aborts. */
  function CreationDate(history: string): Result<string, Failure> {
    match ParseDayMonthYear(Slice(history, 8, 19))
    case Some(t) => Ok(IsoDateTime(t))
    case None =>
      match ParseYearMonthDay(Slice(history, 8, 18))
      case Some(t) => Ok(IsoDateTime(t))
      case None => Err(BadHistoryDate(Slice(history, 8, 18)))
  }

  /** `strptime(stamp, "%Y_%j") + timedelta(hours=12)`: noon of the day the
      stamp names; `None` when the stamp does not read as a date. */
  function ReferenceTimeOf(stamp: string): (r: Option<DateTime>)
    ensures r.None? <==> ParseYearDayOfYear(stamp).None?
    ensures r.Some? ==> ValidDateTime(r.value) && r.value.hour == 12
                        && ParseYearDayOfYear(stamp) == Some(DateTime(r.value.date, 0))
  {
    match ParseYearDayOfYear(stamp)
    case None => None
    case Some(midnight) =>
      AddHoursElapsed(midnight, 12);
      AddHours(midnight, 12)
  }

  /** The entries `__init__` writes into `attributes` with `update`. */
  function DerivedAttributes(file: string, history: string, version: real, bounds: Bounds,
                             timed: DateTime, created: string, tstamp: string): (r: map<Global, AttrValue>)
    requires ValidDateTime(timed)
    ensures forall g :: g in r <==> Derived(g)
    ensures forall g :: g in r ==> !r[g].Unset?
  {
    map[
      Source := Text(Basename(file)),
      Version := Number(version),
      History := Text(ReleasedHistory(history, tstamp)),
      GeospatialLatMin := Number(bounds.latMin),
      GeospatialLatMax := Number(bounds.latMax),
      GeospatialLonMin := Number(bounds.lonMin),
      GeospatialLonMax := Number(bounds.lonMax),
      TimeCoverageStart := Text(IsoDate(timed.date) + "T00:00:00"),
      TimeCoverageEnd := Text(IsoDate(timed.date) + "T23:59:59"),
      DateCreated := Text(created)
    ]
  }

  /** `attributes` after the `update` call. */
  function Attributes(file: string, history: string, version: real, bounds: Bounds,
                      timed: DateTime, created: string, tstamp: string): map<Global, AttrValue>
    requires ValidDateTime(timed)
  {
    StaticAttributes(tstamp) + DerivedAttributes(file, history, version, bounds, timed, created, tstamp)
  }

  /** The configuration `__init__` builds once every step has succeeded. */
  function Configure(file: string, history: string, version: real, bounds: Bounds,
                     timed: DateTime, created: string, tstamp: string): Configuration
    requires ValidDateTime(timed)
  {
    Configuration(file, OutputPath(file), timed, [DateNum(timed)],
                  Attributes(file, history, version, bounds, timed, created, tstamp))
  }

  /** `Configuration(file)`.  `sourceAttributes` are the source's global
      attributes; `version` is the number `float()` reads from its `Version`
      attribute, `bounds` the grid extent, `tstamp` the generation time. */
  function NewConfiguration(file: string, sourceAttributes: map<string, string>, version: real,
                            bounds: Bounds, tstamp: string): Result<Configuration, Failure>
  {
    var stamp := FilenameStamp(file);
    match ReferenceTimeOf(stamp)
    case None => Err(BadFilenameStamp(stamp))
    case Some(timed) =>
      if "History" !in sourceAttributes then Err(MissingSourceAttribute("History"))
      else if "Version" !in sourceAttributes then Err(MissingSourceAttribute("Version"))
      else
        var history := sourceAttributes["History"];
        match CreationDate(history)
        case Err(e) => Err(e)
        case Ok(created) => Ok(Configure(file, history, version, bounds, timed, created, tstamp))
  }

  /** `Configuration(file)` succeeds exactly when the filename stamp reads as
      `%Y_%j`, the source has `History` and `Version` attributes and the
      history line carries a creation date.  Otherwise it fails at the first
      of those steps, in source order: the stamp, `History`, `Version`, the
      history date. */
  lemma InitOutcome(file: string, sourceAttributes: map<string, string>, version: real,
                    bounds: Bounds, tstamp: string)
    ensures var r := NewConfiguration(file, sourceAttributes, version, bounds, tstamp);
      var stamp := FilenameStamp(file);
      && (r.Ok? <==> && ParseYearDayOfYear(stamp).Some?
                     && "History" in sourceAttributes && "Version" in sourceAttributes
                     && CreationDate(sourceAttributes["History"]).Ok?)
      && (ParseYearDayOfYear(stamp).None? ==> r == Err(BadFilenameStamp(stamp)))
      && (ParseYearDayOfYear(stamp).Some? && "History" !in sourceAttributes ==>
            r == Err(MissingSourceAttribute("History")))
      && (ParseYearDayOfYear(stamp).Some? && "History" in sourceAttributes
          && "Version" !in sourceAttributes ==>
            r == Err(MissingSourceAttribute("Version")))
      && (ParseYearDayOfYear(stamp).Some? && "History" in sourceAttributes
          && "Version" in sourceAttributes && CreationDate(sourceAttributes["History"]).Err? ==>
            r == Err(CreationDate(sourceAttributes["History"]).error))
  {
  }

  /** For a file whose stamp names day `d`, `__init__` builds its
      configuration from noon of `d` and the parsed creation date. */
  lemma InitConfigure(file: string, sourceAttributes: map<string, string>, version: real,
                      bounds: Bounds, tstamp: string, d: Date)
    requires ParseYearDayOfYear(FilenameStamp(file)) == Some(DateTime(d, 0))
    requires "History" in sourceAttributes && "Version" in sourceAttributes
    requires CreationDate(sourceAttributes["History"]).Ok?
    ensures ValidDateTime(DateTime(d, 12))
    ensures NewConfiguration(file, sourceAttributes, version, bounds, tstamp)
            == Ok(Configure(file, sourceAttributes["History"], version, bounds, DateTime(d, 12),
                            CreationDate(sourceAttributes["History"]).value, tstamp))
  {
    var t := ReferenceTimeOf(FilenameStamp(file)).value;
    assert t == DateTime(d, 12);
  }

  /** The configuration of a file whose stamp names day `d`: the output beside
      the input with a leading underscore, the reference time at noon of `d`,
      `timev` the day count of `d` plus one half, the coverage of the whole of
      `d`, and `source`, `version`, `history` and `date_created` taken from the
      file name and the source's attributes. */
  lemma InitContents(file: string, sourceAttributes: map<string, string>, version: real,
                     bounds: Bounds, tstamp: string, d: Date)
    requires ParseYearDayOfYear(FilenameStamp(file)) == Some(DateTime(d, 0))
    requires "History" in sourceAttributes && "Version" in sourceAttributes
    requires CreationDate(sourceAttributes["History"]).Ok?
    ensures var r := NewConfiguration(file, sourceAttributes, version, bounds, tstamp);
      var history := sourceAttributes["History"];
      && r.Ok? && r.value.file == file
      && Dirname(r.value.output) == Dirname(file) && Basename(r.value.output) == "_" + Basename(file)
      && r.value.timed == DateTime(d, 12)
      && r.value.timev == [DaysSinceEpoch(d) as real + 0.5]
      && TimeCoverageStart in r.value.attributes && r.value.attributes[TimeCoverageStart] == Text(IsoDate(d) + "T00:00:00")
      && TimeCoverageEnd in r.value.attributes && r.value.attributes[TimeCoverageEnd] == Text(IsoDate(d) + "T23:59:59")
      && Source in r.value.attributes && r.value.attributes[Source] == Text(Basename(file))
      && Version in r.value.attributes && r.value.attributes[Version] == Number(version)
      && History in r.value.attributes && r.value.attributes[History] == Text(ReleasedHistory(history, tstamp))
      && DateCreated in r.value.attributes && r.value.attributes[DateCreated] == Text(CreationDate(history).value)
  {
    InitConfigure(file, sourceAttributes, version, bounds, tstamp, d);
    var t := DateTime(d, 12);
    var history := sourceAttributes["History"];
    var created := CreationDate(history).value;
    ConfiguredOutput(file, history, version, bounds, t, created, tstamp);
    ConfiguredTimes(file, history, version, bounds, t, created, tstamp);
    ConfiguredProvenance(file, history, version, bounds, t, created, tstamp);
  }

  /** For a noon reference time, `timev` is the day count since 1970-01-01 plus
      one half, and both coverage strings carry that same calendar day. */
  lemma ConfiguredTimes(file: string, history: string, version: real, bounds: Bounds,
                        timed: DateTime, created: string, tstamp: string)
    requires ValidDateTime(timed) && timed.hour == 12
    ensures var c := Configure(file, history, version, bounds, timed, created, tstamp);
      var d := timed.date;
      && c.timev == [DaysSinceEpoch(d) as real + 0.5]
      && c.timev[0].Floor == DaysSinceEpoch(d)
      && c.attributes[TimeCoverageStart] == Text(IsoDate(d) + "T00:00:00")
      && c.attributes[TimeCoverageEnd] == Text(IsoDate(d) + "T23:59:59")
  {
    DateNumAtNoon(timed.date);
    assert DateTime(timed.date, 12) == timed;
  }

  /** The output sits beside the input and is named after it with a leading
      underscore. */
  lemma ConfiguredOutput(file: string, history: string, version: real, bounds: Bounds,
                         timed: DateTime, created: string, tstamp: string)
    requires ValidDateTime(timed)
    ensures var c := Configure(file, history, version, bounds, timed, created, tstamp);
      Dirname(c.output) == Dirname(file) && Basename(c.output) == "_" + Basename(file)
  {
    OutputPathParts(file);
  }

  /** `source` records the input's name, `history` the input's history line
      followed by the release note, `version` the version number and
      `date_created` the creation date read from the history line. */
  lemma ConfiguredProvenance(file: string, history: string, version: real, bounds: Bounds,
                             timed: DateTime, created: string, tstamp: string)
    requires ValidDateTime(timed)
    ensures var c := Configure(file, history, version, bounds, timed, created, tstamp);
      && c.attributes[Source] == Text(Basename(file))
      && c.attributes[History] == Text(history + ". Modified for PODAAC release " + tstamp + ".")
      && c.attributes[Version] == Number(version)
      && c.attributes[DateCreated] == Text(created)
  {
    var derived := DerivedAttributes(file, history, version, bounds, timed, created, tstamp);
    assert Attributes(file, history, version, bounds, timed, created, tstamp)
           == StaticAttributes(tstamp) + derived;
  }

  /** `update` fills exactly the entries the class body leaves `None`:
      afterwards attribute `g` has a value that is not `None`, and a preset
      value is kept. */
  lemma AttributeFilled(g: Global, file: string, history: string, version: real, bounds: Bounds,
                        timed: DateTime, created: string, tstamp: string)
    requires ValidDateTime(timed)
    ensures var a := Attributes(file, history, version, bounds, timed, created, tstamp);
      var derived := DerivedAttributes(file, history, version, bounds, timed, created, tstamp);
      && g in a && !a[g].Unset?
      && (Preset(g, tstamp).Unset? <==> g in derived)
      && (!Preset(g, tstamp).Unset? ==> a[g] == Preset(g, tstamp))
  {
    var derived := DerivedAttributes(file, history, version, bounds, timed, created, tstamp);
    var preset := StaticAttributes(tstamp);
    if !Derived(g) {
      assert preset[g] == Preset(g, tstamp);
    }
  }

  /** The stamp of `level3/ucar_cu_cygnss_sm_v1_2017_077.nc` is `2017_077`. */
  lemma Day77Stamp()
    ensures FilenameStamp("level3/" + "ucar_cu_cygnss_sm_v1_" + "2017_077" + ".nc") == "2017_077"
  {
    var lead, stamp, ext := "ucar_cu_cygnss_sm_v1_", "2017_077", ".nc";
    var name := lead + stamp + ext;
    assert NoSlash(name);
    ComponentStartAfter("level3/", name);
    assert ("level3/" + name)[7..] == name;
    assert "level3/" + lead + stamp + ext == "level3/" + name;
    assert |lead| == 21 && |stamp| == 8 && |ext| == 3;
    assert name[21..29] == stamp;
  }

  /** Day 77 of 2017 has its reference time at noon on 2017-03-18, which is
      17243 days after 1970-01-01. */
  lemma Day77Of2017()
    ensures ReferenceTimeOf("2017_077") == Some(DateTime(Date(2017, 3, 18), 12))
    ensures DaysSinceEpoch(Date(2017, 3, 18)) == 17243
  {
    var d := Date(2017, 3, 18);
    YearDayStampRead(2017, 77);
    assert YearDayStamp(2017, 77) == "2017_077";
    assert MonthAndDay(2017, 18, 3) == d;
    assert MonthAndDay(2017, 46, 2) == d;
    assert FromDayOfYear(2017, 77) == d;
    assert DaysBeforeYear(2017) == 736329;
    assert DaysBeforeYear(1970) == 719162;
  }

  /** The coverage strings of that file name 2017-03-18. */
  lemma Day77Coverage()
    ensures IsoDate(Date(2017, 3, 18)) + "T00:00:00" == "2017-03-18T00:00:00"
  {
    Day77IsoDate();
  }

  lemma Day77IsoDate()
    ensures IsoDate(Date(2017, 3, 18)) == "2017-03-18"
  {
    Day77Fields();
  }

  lemma Day77Fields()
    ensures Padded(2017, 4) == "2017" && Padded(3, 2) == "03" && Padded(18, 2) == "18"
  {
    Day77Year();
    assert Padded(3, 2) == "03" by {
      assert Padded(0, 1) == "0";
    }
    assert Padded(18, 2) == "18" by {
      assert Padded(1, 1) == "1";
    }
  }

  lemma Day77Year()
    ensures Padded(2017, 4) == "2017"
  {
    assert Padded(2, 1) == "2";
    assert Padded(20, 2) == "20";
    assert Padded(201, 3) == "201";
  }

  /** The creation date of a history line comes out the same whether the line
      writes it as `05-Jan-2019` or as `2019-01-05`. */
  lemma CreationDateEitherFormat(d: Date, lead: string, rest: string)
    requires InRange(d) && |lead| == 8
    ensures CreationDate(lead + DayMonthYear(d) + rest) == Ok(IsoDate(d) + "T00:00:00")
    ensures CreationDate(lead + IsoDate(d) + rest) == Ok(IsoDate(d) + "T00:00:00")
  {
    assert |MonthNames[d.month - 1]| == 3;
    MidnightIso(d);
    var h1 := lead + DayMonthYear(d) + rest;
    assert Slice(h1, 8, 19) == DayMonthYear(d);
    DayMonthYearRead(d);

    var h2 := lead + IsoDate(d) + rest;
    var s := Slice(h2, 8, 19);
    assert s[..4] == IsoDate(d)[..4] == Padded(d.year, 4);
    IsoPrefixIsNotDayMonthYear(s);
    assert Slice(h2, 8, 18) == IsoDate(d);
    IsoDateRead(d);
  }
}
