# XinaBox telemetry log to GeoJSON, modelled in Dafny

Two small converters turn device telemetry logs into a GeoJSON
FeatureCollection (RFC 7946, section 3.3). Each log line that matches a
fixed record pattern becomes one Point feature (RFC 7946, section 3.1.2).
The coordinates are printed longitude first. Features are separated by lines
holding a single comma, and the whole output is wrapped in an envelope.

- **Rich variant** (`python/xinabox-log-to-geojson.py`, module `RichLog`).
  It recognises `$SN01,` records anywhere in a line. Each feature carries:
  - the matched text (`rawdata`);
  - the altitude in metres and in feet;
  - an optional `marker-symbol`;
  - a rising/falling `marker-color`;
  - a running `sequence` number.

  Four module globals survive from line to line: `lineCount`, `sequence`,
  `lastAltM` and `maxAltM`.
- **CSV variant** (`python/xinabox-DATA-CSV-to-geojson.py`, module `CsvLog`).
  It recognises lines that start with a clock time, a date, a UTC time, a
  latitude and a longitude. Each feature's `description` is the matched
  text. One global, `lineCount`, survives from line to line.

The project has four modules:

- `Text` holds the character classes of both patterns, the comma-field
  scanner, `'%d'` formatting, `int()` of a digit string and `str.rstrip()`.
- `GeoJson` holds the envelope and closing lines, the coordinates line, the
  comma-joining of features, and `Values`. `Values` reads back what is printed
  under a property key.
- `RichLog` and `CsvLog` each model one script in three layers:
  - a recogniser for the script's pattern, proved equal to a declarative
    description of a match (`RecordAt`) in both directions;
  - a functional specification, `Step`/`Run` over a `State` of the globals and
    the printed lines, with lemmas about whole runs;
  - a class (`Transducer`, `CsvTransducer`) whose fields are the globals and
    the printed lines. Its methods (`DoLine`, `Geojsonize`, `ProcessLines`,
    `DoFile`) update the fields in the source's order, and each is proved to
    produce the new state that the specification gives.

Printing is modelled as appending one string per `print` call to the
`output` field. The input file is a `seq<string>` of lines as the file
iterator yields them; `ProcessLines` strips each line as the loop does.

### How the patterns are recognised

- **Fields.** No field class of either pattern admits a comma. So field `i`
  of a match is exactly the text up to the next comma. The recogniser reads
  comma-terminated fields (`Text.ScanFields`) and then checks each field
  against its class.
- **Rich pattern `.*` prefix.** The prefix is greedy and may not contain a
  newline. Python's matcher tries the longest prefix first and backs off, so
  the chosen `$SN01,` is the last position, up to the first newline, where
  the rest of the pattern matches. `RichLog.MatchFrom` scans downward in the
  same way. `RichLog.Match` is proved to return a match at the greatest such
  position.
- **Rich altitude.** `(\d+)` is greedy and nothing follows it, so the
  altitude is the longest run of digits. Group 0 ends with that run.
- **CSV match.** The match is anchored at the start of the line. Its final
  `.*` runs to the first newline.

### Where the code and its description differ (the model follows the code)

- **Colour.** `marker-color` is omitted whenever the previous altitude
  `lastAltM` is 0, not only on the first feature. The test at
  `python/xinabox-log-to-geojson.py:66` is about the value, not the position.
- **Counters.** They are never reset per file. `lineCount = 0` inside
  `doFile` assigns a local variable, and `sequence` and `maxAltM` are only
  set at module level. The corrected `doFile` is therefore specified against
  the state it starts from. The whole-run lemmas start from the module's
  initial globals.
- **`rawdata`.** It is group 0: the line from its start through the last
  altitude digit, not the whole line. The fields after the altitude are not
  part of it.

## Model

| member | source | states |
|---|---|---|
| Text.Digits | python/xinabox-log-to-geojson.py:15 | the class `\d+`: a non-empty run of ASCII digits |
| Text.UnsignedDecimal | python/xinabox-log-to-geojson.py:15 | with the fraction required, `\d+\.\d+`: digits, one `.`, digits; with it optional, `\d+(\.\d+)?`, which also admits plain digits |
| Text.SignedDecimal | python/xinabox-log-to-geojson.py:15 | `[-+]?` before an unsigned decimal: an optional `+` or `-` sign, then the decimal |
| Text.OneDecimalPlace | python/xinabox-log-to-geojson.py:15 | `\d+(\.\d)?`: digits, optionally followed by `.` and exactly one digit |
| Text.IsDate | python/xinabox-log-to-geojson.py:15 | `\d{4}-\d{2}-\d{2}`: ten characters, digits at 0-3, 5-6 and 8-9, `-` at 4 and 7 |
| Text.IsClock | python/xinabox-log-to-geojson.py:15 | `\d{2}:\d{2}:\d{2}`: eight characters, digits at 0-1, 3-4 and 6-7, `:` at 2 and 5 |
| Text.ScanFieldsSound | python/xinabox-log-to-geojson.py:15 | the fields read are the requested number of comma-free fields which, each followed by a comma, are exactly the text scanned |
| Text.ScanFieldsComplete | python/xinabox-log-to-geojson.py:15 | conversely, any comma-free fields written out with their commas at a position are exactly what the scanner reads there |
| Text.DigitRunEnd | python/xinabox-log-to-geojson.py:15 | the run a greedy `\d+` consumes is all digits and is followed by a non-digit or the end of the line |
| Text.DigitRunEndIsLongest | python/xinabox-log-to-geojson.py:15 | a digit run that stops at a non-digit or the end is the one the greedy run finds |
| Text.NoNewlineBefore | python/xinabox-log-to-geojson.py:15 | `.*` can cover the text before a position exactly when that position is at most the first newline |
| Text.DecimalFieldChars | python/xinabox-log-to-geojson.py:15 | a decimal of either pattern is made only of digits, `.`, `+`, `-` and `:` |
| Text.FieldCharsExclude | python/xinabox-log-to-geojson.py:15 | such a field holds no comma, no newline and no `$` |
| Text.ScanFields | python/xinabox-log-to-geojson.py:15 | reads a given number of comma-terminated fields from a position, each the text up to the next comma, and the position after the last comma; nothing when a comma is missing (its meaning is stated by ScanFieldsSound and ScanFieldsComplete) |
| Text.DigitsValue | python/xinabox-log-to-geojson.py:60 | `int()` of a digit string, leading zeros allowed (ShowRoundTrip proves it inverts `'%d'`) |
| Text.Show | python/xinabox-log-to-geojson.py:62 | `'%d'` prints a non-empty digit string with no leading zero |
| Text.ShowRoundTrip | python/xinabox-log-to-geojson.py:60-62 | `int()` of the printed number gives the number back |
| Text.ShowInjective | python/xinabox-log-to-geojson.py:73 | distinct numbers print differently |
| Text.IsSpace | python/xinabox-log-to-geojson.py:94 | the characters `rstrip()` removes: space and the code points 9-13 and 28-31 |
| Text.RStrip | python/xinabox-log-to-geojson.py:94 | the result is a prefix of the line that does not end in whitespace, and everything removed is whitespace |
| Text.RStripRemovesLineEnd | python/xinabox-DATA-CSV-to-geojson.py:66 | a line whose only newline is its last character has no newline after stripping |
| Text.StrippedFileLines | python/xinabox-DATA-CSV-to-geojson.py:65-66 | every line the loop hands on is free of newlines |
| Text.Stripped | python/xinabox-log-to-geojson.py:93-94 | what the file loop hands to `doLine`: one line per file line, in order, line `i` being file line `i` after `rstrip()` |
| GeoJson.CoordinatesLine | python/xinabox-log-to-geojson.py:56 | the coordinates line: its first value, a comma, then its second value inside `[` and `]` |
| GeoJson.FeatureHead | python/xinabox-log-to-geojson.py:52-57 | the six lines before a feature's properties, the Point geometry among them |
| GeoJson.Envelope | python/xinabox-log-to-geojson.py:84-86 | the three opening lines `{`, `  "type":"FeatureCollection",` and `  "features":[` |
| GeoJson.Closing | python/xinabox-log-to-geojson.py:97-98 | the two closing lines `  ]` and `}` |
| GeoJson.Closed | python/xinabox-DATA-CSV-to-geojson.py:68-69 | the printed output followed by the two closing lines |
| GeoJson.ParseCoordinates | python/xinabox-log-to-geojson.py:56 | reads a coordinates line back; what it reads, printed again, is the line, and its first member has no comma |
| GeoJson.ParseCoordinatesRoundTrip | python/xinabox-log-to-geojson.py:56 | a coordinates line printed from a comma-free first value reads back as exactly the two values printed |
| GeoJson.CommaSeparated | python/xinabox-log-to-geojson.py:50-51 | the features in order, with a separator line before every one but the first |
| GeoJson.CommaSeparatedSnoc | python/xinabox-log-to-geojson.py:50-51 | one more feature adds a separator line and then its lines, except after no feature, where no separator is added |
| GeoJson.SeparatorCount | python/xinabox-log-to-geojson.py:50-51 | N features with no separator line of their own are joined by exactly N - 1 separator lines |
| GeoJson.NoLeadingOrTrailingSeparator | python/xinabox-log-to-geojson.py:50-51 | the joined output neither starts nor ends with a separator line when the features do not |
| GeoJson.CommaSeparatedLines | python/xinabox-DATA-CSV-to-geojson.py:37-38 | joining adds no line of its own except the separator |
| GeoJson.ValuesAppend | python/xinabox-log-to-geojson.py:73 | the values printed under a key over two runs of lines are those of the first run, then those of the second |
| RichLog.RecordAt | python/xinabox-log-to-geojson.py:15 | a match of the pattern after `.*` at a given marker: the marker, seven comma-terminated fields in their classes, the longest run of altitude digits after them, and group 0 from the line start to the end of that run |
| RichLog.FieldOk | python/xinabox-log-to-geojson.py:15 | the class of each field after `$SN01,`: 0 `\d+(\.\d)?`, 1 `\d+(\.\d+)?`, 2 the date, 3 the clock time, 4 `\d+`, 5 and 6 `[-+]?\d+\.\d+` (groups 3 and 4); no field at index 7 or later |
| RichLog.FieldsOk | python/xinabox-log-to-geojson.py:15 | exactly seven fields, field `i` in the class of index `i` |
| RichLog.FieldsOkHaveNoCommas | python/xinabox-log-to-geojson.py:15 | the seven field classes of the pattern admit no comma and no `$` |
| RichLog.FieldsAt | python/xinabox-log-to-geojson.py:15 | when the marker and seven fields are found at a position, the marker is there and the fields with their commas follow it |
| RichLog.MatchAt | python/xinabox-log-to-geojson.py:15 | the pattern after `.*` tried at one position: the marker, comma-terminated fields checked against their classes, then the greedy altitude run, which must not be empty (MatchAtSound and MatchAtComplete prove it equal to RecordAt) |
| RichLog.MatchAtSound | python/xinabox-log-to-geojson.py:15 | what the recogniser finds at a position is a match of the pattern after `.*` at that position |
| RichLog.MatchAtComplete | python/xinabox-log-to-geojson.py:15 | every such match at a position is the one the recogniser finds there |
| RichLog.MatchFrom | python/xinabox-log-to-geojson.py:15 | backing off from a position finds a match at or before it, and none at a later position up to it is missed |
| RichLog.Match | python/xinabox-log-to-geojson.py:27 | `re.match`: the result is a match of the pattern with no newline before its marker; every such match lies at or before the chosen marker, so a line matches exactly when it holds a record |
| RichLog.MatchIsUnique | python/xinabox-log-to-geojson.py:15 | two matches at the same marker are equal: the groups are determined by the line and the marker |
| RichLog.MatchedFields | python/xinabox-log-to-geojson.py:15 | of a match: the first field has at most one fractional digit, latitude and longitude are decimals with a fractional part and an optional sign, and the altitude is unsigned digits |
| RichLog.AnyPrefix | python/xinabox-log-to-geojson.py:15 | any newline-free text before a record leaves the line matching, at the record's marker or later |
| RichLog.TrailingFieldsIgnored | python/xinabox-log-to-geojson.py:15 | text appended after a match that ends the line leaves the match, and so group 0, as it was, when it does not start with a digit and holds no `$` (a `$` could start a later record, which the greedy `.*` would pick instead) |
| RichLog.RawdataExcludesTrailingFields | python/xinabox-log-to-geojson.py:59 | group 0 is the text before the marker plus the record through its last altitude digit, and the rest of the line comes after it |
| RichLog.AltitudeMeters | python/xinabox-log-to-geojson.py:60 | `int(result.group(5))`: the decimal value of the altitude digits |
| RichLog.AltitudeFeet | python/xinabox-log-to-geojson.py:61 | the feet printed are the floor of the exact quotient of the metres by 0.3048 |
| RichLog.PropertyLines | python/xinabox-log-to-geojson.py:58-63 | the properties opening, group 0 in quotes under `rawdata`, and the altitude in metres and in feet, printed with `'%d'` |
| RichLog.SymbolLines | python/xinabox-log-to-geojson.py:64-65 | the quoted symbol under `marker-symbol`, or no line for an empty symbol |
| RichLog.ColourLines | python/xinabox-log-to-geojson.py:66-71 | green when a nonzero previous altitude is exceeded, red when it is undercut, no line otherwise |
| RichLog.SequenceLines | python/xinabox-log-to-geojson.py:73 | the sequence number under `sequence`, printed with `'%d'` |
| RichLog.FeatureLines | python/xinabox-log-to-geojson.py:52-76 | one feature: the head with the Point geometry, then the properties, symbol, colour and sequence lines, then the two closing lines |
| RichLog.FeatureProperties | python/xinabox-log-to-geojson.py:58-63 | within one feature, `rawdata` carries group 0, `altitudeMeters` carries `int(group(5))` and `altitudeFeet` the feet for it, each exactly once |
| RichLog.FeatureValues | python/xinabox-log-to-geojson.py:64-74 | within one feature: the sequence line carries the feature's number; the colour is rising exactly when a nonzero previous altitude is exceeded, falling exactly when it is undercut, and absent otherwise; the symbol is printed exactly when it is non-empty |
| RichLog.FeatureSequence | python/xinabox-log-to-geojson.py:73 | a feature carries one sequence value, its number |
| RichLog.FeatureColour | python/xinabox-log-to-geojson.py:66-71 | a feature's colour values follow the rising/falling rule against the previous altitude |
| RichLog.FeatureSymbol | python/xinabox-log-to-geojson.py:64-65 | a feature carries the quoted symbol exactly when the symbol is non-empty |
| RichLog.SymbolValues | python/xinabox-log-to-geojson.py:64-65 | the symbol line carries the quoted symbol and nothing under the colour or sequence keys |
| RichLog.ColourValues | python/xinabox-log-to-geojson.py:66-71 | the colour lines carry the rising colour, the falling colour or nothing, as the rule says |
| RichLog.SequenceValues | python/xinabox-log-to-geojson.py:73 | the sequence line carries the number, printed with `'%d'` |
| RichLog.FeatureLinesLong | python/xinabox-log-to-geojson.py:52-76 | every line of a feature is at least five characters long, so none is a separator or a closing line |
| RichLog.FeatureCoordinates | python/xinabox-log-to-geojson.py:56 | the coordinates line reads back as group 4 then group 3: longitude, then latitude |
| RichLog.State | python/xinabox-log-to-geojson.py:18-21 | the globals `lineCount`, `sequence`, `lastAltM` and `maxAltM`, and the lines printed so far |
| RichLog.Start | python/xinabox-log-to-geojson.py:18-21 | all four globals 0 and nothing printed |
| RichLog.Geojsonized | python/xinabox-log-to-geojson.py:36-79 | `geojsonize`: a separator when `lineCount > 0`, the feature coloured against the old `lastAltM` and numbered with the old `sequence`; then `sequence` + 1, the new maximum, and `lastAltM` set to the altitude; `lineCount` untouched |
| RichLog.Step | python/xinabox-log-to-geojson.py:24-33 | `doLine`: a line `re.match` rejects leaves the state as it is; a match is geojsonized with an empty symbol and then counted in `lineCount` |
| RichLog.Run | python/xinabox-log-to-geojson.py:93-95 | the lines fed to `doLine` one after another, in order |
| RichLog.RunSnoc | python/xinabox-log-to-geojson.py:93-95 | running one more line is one more `doLine` step after the earlier lines |
| RichLog.Matches | python/xinabox-log-to-geojson.py:27-28 | the matches of the lines, in input order, are no more than the lines, and each is well formed with fields in their classes |
| RichLog.Blocks | python/xinabox-log-to-geojson.py:36-76 | there is one feature per match |
| RichLog.MaxAltitude | python/xinabox-log-to-geojson.py:77-78 | `maxAltM` after the matches: starting from 0, each altitude above the current maximum replaces it (MaxAltitudeIsMaximum states what it is) |
| RichLog.MaxAltitudeIsMaximum | python/xinabox-log-to-geojson.py:77-78 | the running maximum is at least every matched altitude, and is 0 or one of them |
| RichLog.RunFromStart | python/xinabox-log-to-geojson.py:24-79 | from the initial globals, both counters equal the number of matches, `lastAltM` is that of the last match, `maxAltM` is the running maximum, and the output is the features joined by separators |
| RichLog.MatchedStep | python/xinabox-log-to-geojson.py:29-30 | one more matching line adds one to both counters, sets `lastAltM` to its altitude, updates the maximum and appends its separated feature |
| RichLog.NumbersAt | python/xinabox-log-to-geojson.py:73-74 | the numbers listed are 0 to N - 1 in order, as `'%d'` prints them |
| RichLog.BlocksValues | python/xinabox-log-to-geojson.py:73-74 | over a run, the sequence values printed are 0, 1, ..., N - 1 in the order of the matching lines, and no marker-symbol is printed |
| RichLog.BlocksFeatures | python/xinabox-log-to-geojson.py:66-71 | feature `i` is rising or falling exactly as match `i` exceeds or undercuts a nonzero altitude of match `i - 1`, and is uncoloured otherwise; its coordinates read back as longitude then latitude |
| RichLog.BlocksProperties | python/xinabox-log-to-geojson.py:59-63 | over a run, feature `i` carries group 0 of match `i` under `rawdata` and its altitudes under `altitudeMeters` and `altitudeFeet` |
| RichLog.BlocksSeparators | python/xinabox-log-to-geojson.py:50-51 | N features are joined by exactly N - 1 separator lines, none leading or trailing |
| RichLog.StepIgnoresNonMatching | python/xinabox-log-to-geojson.py:24-33 | a line leaves the state unchanged exactly when it does not match, and a match adds one to `lineCount` and `sequence`, sets `lastAltM` and keeps `maxAltM` the maximum |
| RichLog.RunCounters | python/xinabox-log-to-geojson.py:18-21 | after a run from the initial globals: `lineCount` and `sequence` count the matches, `lastAltM` is the last match's altitude (or 0), and `maxAltM` is the maximum of 0 and all matched altitudes |
| RichLog.RunOutput | python/xinabox-log-to-geojson.py:50-76 | the output of a run is N features with N - 1 separators, none leading or trailing, numbered 0 to N - 1 in order, with no marker-symbol |
| RichLog.AsWrittenNeverCloses | python/xinabox-log-to-geojson.py:96-98 | as written, neither closing line is ever printed, whatever the input |
| RichLog.DocumentShape | python/xinabox-log-to-geojson.py:84-98 | the corrected doFile prints the envelope, the features joined by separators and the closing lines; with no match, only the envelope and the closing lines |
| RichLog.Transducer.constructor | python/xinabox-log-to-geojson.py:18-21 | all four globals start at 0 and nothing is printed |
| RichLog.Transducer.Emit | python/xinabox-log-to-geojson.py:51 | `print` appends one line and changes nothing else |
| RichLog.Transducer.Geojsonize | python/xinabox-log-to-geojson.py:36-79 | the globals and the output after the call are those the specification gives: separator, feature, `sequence` + 1, the new maximum, and `lastAltM` set to the altitude |
| RichLog.Transducer.PrintFeature | python/xinabox-log-to-geojson.py:52-76 | prints the feature's lines and advances `sequence` once; it returns the altitude in metres |
| RichLog.Transducer.PrintHead | python/xinabox-log-to-geojson.py:52-57 | prints the feature opening and the Point geometry |
| RichLog.Transducer.PrintProperties | python/xinabox-log-to-geojson.py:58-63 | prints the properties opening, group 0 and both altitudes; returns `int(group(5))` |
| RichLog.Transducer.PrintColour | python/xinabox-log-to-geojson.py:66-71 | prints the colour line the rule calls for, if any |
| RichLog.Transducer.DoLine | python/xinabox-log-to-geojson.py:24-33 | the new state is one `doLine` step of the specification: unchanged for a non-matching line |
| RichLog.Transducer.ProcessLines | python/xinabox-log-to-geojson.py:93-95 | the loop leaves the state the specification gives for all the stripped lines in order |
| RichLog.Transducer.DoNextLine | python/xinabox-log-to-geojson.py:93-95 | one turn of the file loop: after `doLine` on the next line, the state is the run of the earlier lines extended by that line |
| RichLog.Transducer.DoFileAsWritten | python/xinabox-log-to-geojson.py:82-96 | prints the envelope and the features, then stops with NameError for `addNotable` before the closing lines |
| RichLog.Transducer.DoFile | python/xinabox-log-to-geojson.py:82-98 | without the undefined call: the envelope, the features and the closing lines |
| RichLog.Transducer.PrintEnvelope | python/xinabox-log-to-geojson.py:84-86 | prints the three envelope lines |
| CsvLog.RecordAt | python/xinabox-DATA-CSV-to-geojson.py:18 | a match anchored at the line start: the five comma-terminated fields in their classes, then `.*` up to the first newline or the end, with group 0 everything from the start to there |
| CsvLog.FieldOk | python/xinabox-DATA-CSV-to-geojson.py:18 | the class of each field: 0 the clock time, 1 the date, 2 the clock time, 3 `\d+(\.\d+)?` (group 1, the latitude), 4 `[-+]?\d+(\.\d+)?` (group 3, the longitude); no field at index 5 or later |
| CsvLog.FieldsOk | python/xinabox-DATA-CSV-to-geojson.py:18 | exactly five fields, field `i` in the class of index `i` |
| CsvLog.FieldsOkHaveNoCommas | python/xinabox-DATA-CSV-to-geojson.py:18 | the five field classes of the pattern admit no comma |
| CsvLog.Match | python/xinabox-DATA-CSV-to-geojson.py:25 | `re.match`: a match has five fields in their classes |
| CsvLog.MatchSound | python/xinabox-DATA-CSV-to-geojson.py:18 | what the recogniser finds is a match anchored at the line start, with group 0 running to the first newline after the fields |
| CsvLog.MatchComplete | python/xinabox-DATA-CSV-to-geojson.py:18 | every such match is the one the recogniser finds, so a line matches exactly when it starts with the five fields |
| CsvLog.MatchedFields | python/xinabox-DATA-CSV-to-geojson.py:18 | of a match: the latitude is unsigned and the longitude may carry a sign, each with an optional fractional part |
| CsvLog.LatitudeIsUnsigned | python/xinabox-DATA-CSV-to-geojson.py:18 | a matched latitude starts with a digit, so a line with a signed latitude yields no feature |
| CsvLog.DescriptionIsLine | python/xinabox-DATA-CSV-to-geojson.py:45 | for a line without a newline, group 0 is the whole line |
| CsvLog.DescriptionOfFileLine | python/xinabox-DATA-CSV-to-geojson.py:66 | a file line, once stripped, is described whole |
| CsvLog.FeatureLines | python/xinabox-DATA-CSV-to-geojson.py:39-46 | one feature: the head with the Point geometry, the properties line carrying group 0 under `description`, and the closing line |
| CsvLog.Step | python/xinabox-DATA-CSV-to-geojson.py:22-50 | `doLine`: a line `re.match` rejects leaves the state as it is; a match prints a separator when `lineCount > 0`, then the feature, and adds one to `lineCount` |
| CsvLog.Run | python/xinabox-DATA-CSV-to-geojson.py:65-67 | the lines fed to `doLine` one after another, in order |
| CsvLog.RunSnoc | python/xinabox-DATA-CSV-to-geojson.py:65-67 | running one more line is one more `doLine` step after the earlier lines |
| CsvLog.Matches | python/xinabox-DATA-CSV-to-geojson.py:25-26 | the matches in input order each have five fields in their classes |
| CsvLog.Blocks | python/xinabox-DATA-CSV-to-geojson.py:39-46 | one feature per match, feature `i` being the lines printed for match `i` |
| CsvLog.StepIgnoresNonMatching | python/xinabox-DATA-CSV-to-geojson.py:26-50 | a line leaves the state unchanged exactly when it does not match, and a match adds one to `lineCount` |
| CsvLog.RunFromStart | python/xinabox-DATA-CSV-to-geojson.py:22-50 | from the initial global, `lineCount` counts the matches and the output is their features joined by separators |
| CsvLog.MatchedStep | python/xinabox-DATA-CSV-to-geojson.py:37-46 | one more matching line appends its separated feature |
| CsvLog.FeatureLinesLong | python/xinabox-DATA-CSV-to-geojson.py:39-46 | every line of a feature is at least five characters long, and the feature starts and ends with content |
| CsvLog.FeatureCoordinates | python/xinabox-DATA-CSV-to-geojson.py:43 | the coordinates line reads back as group 3 then group 1: longitude, then latitude |
| CsvLog.FeatureDescription | python/xinabox-DATA-CSV-to-geojson.py:45 | a feature carries one description, its group 0 |
| CsvLog.Descriptions | python/xinabox-DATA-CSV-to-geojson.py:45 | the description values in order, one per match, each group 0 closed by `"}` as printed |
| CsvLog.DescriptionsAt | python/xinabox-DATA-CSV-to-geojson.py:45 | description `i` in the list is group 0 of match `i` |
| CsvLog.BlocksDescriptions | python/xinabox-DATA-CSV-to-geojson.py:45 | the descriptions printed over a run are the matches' group 0, in input order |
| CsvLog.BlocksSeparators | python/xinabox-DATA-CSV-to-geojson.py:37-38 | N features are joined by exactly N - 1 separator lines, none leading or trailing |
| CsvLog.BlocksCoordinates | python/xinabox-DATA-CSV-to-geojson.py:43 | feature `i` is placed at longitude then latitude of match `i` |
| CsvLog.DocumentShape | python/xinabox-DATA-CSV-to-geojson.py:54-69 | doFile from the initial global prints the three envelope lines, the features in input order, and the closing lines; with no match, only the envelope and the closing lines; `lineCount` counts the features |
| CsvLog.RunOutput | python/xinabox-DATA-CSV-to-geojson.py:22-50 | a run prints N features with N - 1 separators, none leading or trailing, whose descriptions are the matches' group 0 in order |
| CsvLog.MatchingLines | python/xinabox-DATA-CSV-to-geojson.py:25-26 | the lines `re.match` accepts, in input order |
| CsvLog.DescriptionsAreLines | python/xinabox-DATA-CSV-to-geojson.py:45 | for newline-free lines, description `i` is matching line `i`, whole |
| CsvLog.CsvTransducer.constructor | python/xinabox-DATA-CSV-to-geojson.py:19 | `lineCount` starts at 0 and nothing is printed |
| CsvLog.CsvTransducer.Emit | python/xinabox-DATA-CSV-to-geojson.py:38 | `print` appends one line and changes nothing else |
| CsvLog.CsvTransducer.DoLine | python/xinabox-DATA-CSV-to-geojson.py:22-50 | the new state is one `doLine` step of the specification: unchanged for a non-matching line |
| CsvLog.CsvTransducer.PrintFeature | python/xinabox-DATA-CSV-to-geojson.py:39-46 | prints the feature's lines |
| CsvLog.CsvTransducer.ProcessLines | python/xinabox-DATA-CSV-to-geojson.py:65-67 | the loop leaves the state the specification gives for all the stripped lines in order |
| CsvLog.CsvTransducer.DoNextLine | python/xinabox-DATA-CSV-to-geojson.py:65-67 | one turn of the file loop: after `doLine` on the next line, the state is the run of the earlier lines extended by that line |
| CsvLog.CsvTransducer.DoFile | python/xinabox-DATA-CSV-to-geojson.py:54-69 | the envelope, the features and the closing lines |
| CsvLog.CsvTransducer.PrintEnvelope | python/xinabox-DATA-CSV-to-geojson.py:56-58 | prints the three envelope lines |

## Left out

- File opening, line iteration and `sys.argv` are I/O. The input is a `seq<string>` of the lines the file iterator yields.
- `print` writes nothing. Each call appends one string to `output`.
- The `if (False)` debug branches are dead code and are not modelled. So are the unused locals `noMatchCount` and `exCount`, and the global `maxAltRaw`, which is never assigned.
- The `n` argument of `doLine` is accepted and ignored, as in the source.
- The local `lineCount = 0` in each `doFile` does not touch the global and is not modelled.
- No JSON escaping is added. Matched text is printed unescaped, as the source prints it.
- `\d` is ASCII `0`-`9`. The `re` module also accepts other Unicode decimal digits in `str` patterns.
- `str.rstrip()` strips the ASCII whitespace `str.isspace` accepts (space, 9-13 and 28-31). Non-ASCII Unicode whitespace is not modelled.
- Universal-newline translation by `open` is not modelled. Lines are taken as the iterator yields them.
- RichLog.AltitudeFeet: computes the floor of the exact quotient `altm * 1250 / 381` rather than the source's floating-point `int(float(altm) / 0.3048)`. Where the two part:
  - The double nearest 0.3048 lies slightly above it, and the division rounds once more. The error this adds to the quotient grows with the altitude.
  - Below about 4.9·10^12 m that error stays under 1/381, the smallest gap between a non-integer exact quotient and an integer, so the two agree.
  - Above that, the floating-point quotient can cross an integer. For `altm = 87768254141881` the double arithmetic gives 287953589704334 where the exact floor is 287953589704333.
  - On Python 3.11 and later, `int(result.group(5))` at `python/xinabox-log-to-geojson.py:60` raises ValueError for a group of more than 4300 digits.
  - For an altitude of about 309 digits or more, `float(altm)` at line 61 raises OverflowError. For altitudes just below that, the quotient overflows to infinity and `int()` of it raises OverflowError.
  - In each error case the source stops after printing the `rawdata` line and before `altitudeMeters`. The model prints both altitude lines and goes on.
- `addNotable` is called but defined nowhere, so its behaviour is not modelled. Reaching the call is modelled as the NameError it raises (see Findings).
- `marker-symbol` is modelled for any symbol, but the scripts only ever pass `''`.

## Findings

| source | as written | input that shows it | evidently intended | confidence | as-written member | corrected member |
|---|---|---|---|---|---|---|
| python/xinabox-log-to-geojson.py:96 | doFile calls `addNotable()`, which is defined nowhere. NameError is raised after the features and before `  ]` and `}`, so the document is never closed (RichLog.AsWrittenNeverCloses) | any input file, including an empty one: the output stops after the envelope and the features | close the FeatureCollection after the features, as the CSV variant does (RichLog.DocumentShape) | high; not executed | RichLog.Transducer.DoFileAsWritten | RichLog.Transducer.DoFile |
