/** The converter for CSV data lines (python/xinabox-DATA-CSV-to-geojson.py).
    A line matches when it starts with a clock time, a date, a UTC time, a
    latitude and a longitude, each followed by a comma; each matching line
    becomes one GeoJSON Point feature whose description is the matched text.
    One counter, `lineCount`, survives from line to line. */
module CsvLog {
  import opened Text
  import opened GeoJson

  // ---------------------------------------------------------------------------
  // Recogniser for `\d{2}:\d{2}:\d{2},\d{4}-\d{2}-\d{2},\d{2}:\d{2}:\d{2},
  //                 (\d+(\.\d+)?),([-+]?\d+(\.\d+)?),.*`
  // ---------------------------------------------------------------------------

  /** A successful match: the five comma-terminated fields at the start of the
      line (clock, date, UTC time, then groups 1 and 3: latitude and longitude)
      and group 0, the line up to its first newline after them. */
  datatype CsvMatch = CsvMatch(fields: seq<string>, description: string)
  {
    /** `result.group(1)` */
    function Latitude(): string
      requires |fields| == 5
    {
      fields[3]
    }

    /** `result.group(3)` */
    function Longitude(): string
      requires |fields| == 5
    {
      fields[4]
    }
  }

  /** Field `i` belongs to the character class the pattern gives it. */
  predicate FieldOk(field: string, i: nat) {
    if i == 0 then IsClock(field)
    else if i == 1 then IsDate(field)
    else if i == 2 then IsClock(field)
    else if i == 3 then UnsignedDecimal(field, false)
    else if i == 4 then SignedDecimal(field, false)
    else false
  }

  /** All five fields belong to their classes. */
  predicate FieldsOk(fields: seq<string>) {
    |fields| == 5 && forall i :: 0 <= i < 5 ==> FieldOk(fields[i], i)
  }

  /** `m` describes a match of the whole pattern at the start of `line`: the
      five fields with their commas, then `.*`, which stretches to the first
      newline or the end of the line. */
  predicate RecordAt(line: string, m: CsvMatch) {
    var q, e := |Terminated(m.fields)|, |m.description|;
    && FieldsOk(m.fields)
    && q <= e <= |line|
    && line[..q] == Terminated(m.fields)
    && m.description == line[..e]
    && '\n' !in line[q..e]
    && (e == |line| || line[e] == '\n')
  }

  lemma FieldsOkHaveNoCommas(fields: seq<string>)
    requires FieldsOk(fields)
    ensures NoCommas(fields)
  {
    forall i | 0 <= i < 5 ensures ',' !in fields[i] {
      assert FieldOk(fields[i], i);
      if i == 3 || i == 4 {
        DecimalFieldChars(fields[i], false);
      } else {
        FieldCharsOfDigits(fields[i]);
      }
      FieldCharsExclude(fields[i]);
    }
  }

  /** `re.match(sn01pat, line)`, anchored at the start of the line. */
  function Match(line: string): (r: Option<CsvMatch>)
    ensures r.Some? ==> FieldsOk(r.value.fields)
  {
    match ScanFields(line, 0, 5)
    case None => None
    case Some((fields, q)) =>
      ScanFieldsSound(line, 0, 5);
      if FieldsOk(fields) then Some(CsvMatch(fields, line[..IndexOf(line, '\n', q)])) else None
  }

  /** What Match finds is a match of the pattern. */
  lemma MatchSound(line: string)
    requires Match(line).Some?
    ensures RecordAt(line, Match(line).value)
  {
    ScanFieldsSound(line, 0, 5);
    var (fields, q) := ScanFields(line, 0, 5).value;
    assert line[..q] == line[0..q];
    DescriptionStops(line, q);
  }

  /** `.*` from `q` stops at the first newline. */
  lemma DescriptionStops(line: string, q: nat)
    requires q <= |line|
    ensures var e := IndexOf(line, '\n', q);
      '\n' !in line[q..e] && (e == |line| || line[e] == '\n')
  {
    var e := IndexOf(line, '\n', q);
    forall k | 0 <= k < e - q ensures line[q..e][k] != '\n' {
      assert line[q..e][k] == line[q + k];
    }
  }

  /** Every match of the pattern is the one Match finds, so a line matches
      exactly when it has the shape RecordAt describes. */
  lemma MatchComplete(line: string, m: CsvMatch)
    requires RecordAt(line, m)
    ensures Match(line) == Some(m)
  {
    var q, e := |Terminated(m.fields)|, |m.description|;
    FieldsOkHaveNoCommas(m.fields);
    FieldsFound(line, m.fields);
    DescriptionEnd(line, q, e);
  }

  lemma FieldsFound(line: string, fields: seq<string>)
    requires NoCommas(fields) && |fields| == 5
    requires |Terminated(fields)| <= |line| && line[..|Terminated(fields)|] == Terminated(fields)
    ensures ScanFields(line, 0, 5) == Some((fields, |Terminated(fields)|))
  {
    assert line[0..|Terminated(fields)|] == Terminated(fields);
    ScanFieldsComplete(line, 0, fields);
  }

  lemma DescriptionEnd(line: string, q: nat, e: nat)
    requires q <= e <= |line| && '\n' !in line[q..e] && (e == |line| || line[e] == '\n')
    ensures IndexOf(line, '\n', q) == e
  {
    forall k | q <= k < e ensures line[k] != '\n' {
      assert line[k] == line[q..e][k - q];
    }
    IndexOfIsFirst(line, '\n', q, e);
  }

  /** Without a newline, group 0 is the whole (stripped) line. */
  lemma DescriptionIsLine(line: string)
    requires '\n' !in line && Match(line).Some?
    ensures Match(line).value.description == line
  {
    MatchSound(line);
    assert forall k :: 0 <= k < |line| ==> line[k] != '\n';
  }

  /** A line read from a file, once stripped, is described whole. */
  lemma DescriptionOfFileLine(raw: string)
    requires '\n' !in raw || IndexOf(raw, '\n', 0) == |raw| - 1
    requires Match(RStrip(raw)).Some?
    ensures Match(RStrip(raw)).value.description == RStrip(raw)
  {
    RStripRemovesLineEnd(raw);
    DescriptionIsLine(RStrip(raw));
  }

  /** What is captured, by class: an unsigned latitude and a longitude with an
      optional sign, each with an optional fractional part. */
  lemma MatchedFields(line: string)
    requires Match(line).Some?
    ensures var m := Match(line).value;
      && |m.fields| == 5
      && UnsignedDecimal(m.Latitude(), false) && SignedDecimal(m.Longitude(), false)
  {
    var m := Match(line).value;
    assert FieldOk(m.fields[3], 3) && FieldOk(m.fields[4], 4);
  }

  /** The latitude is unsigned: a line whose latitude starts with a sign does not match. */
  lemma LatitudeIsUnsigned(line: string)
    requires Match(line).Some?
    ensures IsDigit(Match(line).value.Latitude()[0])
  {
    MatchSound(line);
    var lat := Match(line).value.Latitude();
    assert FieldOk(lat, 3);
    if !Digits(lat) {
      var k :| 0 < k < |lat| - 1 && lat[k] == '.' && DigitsIn(lat, 0, k) && DigitsIn(lat, k + 1, |lat|);
    }
  }

  // ---------------------------------------------------------------------------
  // Feature formatting
  // ---------------------------------------------------------------------------

  const DescriptionKey: string := "      \"properties\":{\"description\":\""

  /** The lines doLine prints for one feature, after the separator. */
  function FeatureLines(m: CsvMatch): (lines: seq<string>)
    requires |m.fields| == 5
  {
    FeatureHead(m.Longitude(), m.Latitude()) + [DescriptionKey + m.description + "\"}", "    }"]
  }

  // ---------------------------------------------------------------------------
  // The counter and the printed output
  // ---------------------------------------------------------------------------

  /** The module-level global `lineCount` and everything printed so far. */
  datatype State = State(lineCount: nat, output: seq<string>)

  const Start: State := State(0, [])

  /** doLine(n, line) */
  function Step(s: State, line: string): State {
    match Match(line)
    case None => s
    case Some(m) => State(s.lineCount + 1, s.output + (if s.lineCount > 0 then [Separator] else []) + FeatureLines(m))
  }

  function Run(s: State, lines: seq<string>): State
    decreases |lines|
  {
    if lines == [] then s else Step(Run(s, lines[..|lines| - 1]), lines[|lines| - 1])
  }

  lemma RunSnoc(s: State, lines: seq<string>, line: string)
    ensures Run(s, lines + [line]) == Step(Run(s, lines), line)
  {
    assert (lines + [line])[..|lines|] == lines;
  }

  /** The matches of the matching lines, in input order. */
  function Matches(lines: seq<string>): (ms: seq<CsvMatch>)
    ensures forall i :: 0 <= i < |ms| ==> FieldsOk(ms[i].fields)
    decreases |lines|
  {
    if lines == [] then []
    else
      var init := Matches(lines[..|lines| - 1]);
      match Match(lines[|lines| - 1])
      case None => init
      case Some(m) => init + [m]
  }

  function Blocks(ms: seq<CsvMatch>): (bs: seq<seq<string>>)
    requires forall j :: 0 <= j < |ms| ==> |ms[j].fields| == 5
    ensures |bs| == |ms|
  {
    seq(|ms|, i requires 0 <= i < |ms| => FeatureLines(ms[i]))
  }

  /** A line yields a feature exactly when it matches; a line that does not
      match leaves `lineCount` and the output as they were. */
  lemma StepIgnoresNonMatching(s: State, line: string)
    ensures Step(s, line) == s <==> Match(line).None?
    ensures Match(line).Some? ==> Step(s, line).lineCount == s.lineCount + 1
  {
  }

  /** Over a whole run from the initial global: `lineCount` counts the
      matching lines and the output is one feature per match, in order,
      separated by commas. */
  lemma {:induction false} RunFromStart(prefix: seq<string>, lines: seq<string>)
    ensures var ms := Matches(lines);
      Run(Start.(output := prefix), lines) == State(|ms|, prefix + CommaSeparated(Blocks(ms)))
    decreases |lines|
  {
    if lines != [] {
      var init, line := lines[..|lines| - 1], lines[|lines| - 1];
      RunFromStart(prefix, init);
      var ms := Matches(init);
      var r := Match(line);
      if r.Some? {
        MatchedStep(prefix, ms, r.value);
      }
    }
  }

  lemma MatchedStep(prefix: seq<string>, ms: seq<CsvMatch>, m: CsvMatch)
    requires forall j :: 0 <= j < |ms| ==> |ms[j].fields| == 5
    requires |m.fields| == 5
    ensures var ms' := ms + [m];
      && (forall j :: 0 <= j < |ms'| ==> |ms'[j].fields| == 5)
      && prefix + CommaSeparated(Blocks(ms)) + (if |ms| > 0 then [Separator] else []) + FeatureLines(m)
        == prefix + CommaSeparated(Blocks(ms'))
  {
    var ms' := ms + [m];
    var b := FeatureLines(m);
    var c, sep := CommaSeparated(Blocks(ms)), if |ms| > 0 then [Separator] else [];
    assert Blocks(ms') == Blocks(ms) + [b] by {
      forall i | 0 <= i < |ms| ensures Blocks(ms')[i] == Blocks(ms)[i] {
        assert ms'[i] == ms[i];
      }
    }
    CommaSeparatedSnoc(Blocks(ms), b);
    AppendAssoc(prefix, c, sep, b);
  }

  /** Every line of a feature is at least five characters long. */
  lemma FeatureLinesLong(m: CsvMatch)
    requires |m.fields| == 5
    ensures LongLines(FeatureLines(m), 5)
    ensures StartsAndEndsWithContent(FeatureLines(m))
  {
    HeadLong(m.Longitude(), m.Latitude());
    var tail := [DescriptionKey + m.description + "\"}", "    }"];
    assert LongLines(tail, 5);
    LongLinesAppend(FeatureHead(m.Longitude(), m.Latitude()), tail, 5);
  }

  /** The coordinates line prints group 3 then group 1, longitude first, and
      reads back as exactly those two values. */
  lemma FeatureCoordinates(m: CsvMatch)
    requires FieldsOk(m.fields)
    ensures |FeatureLines(m)| > 4 && ParseCoordinates(FeatureLines(m)[4]) == Some((m.fields[4], m.fields[3]))
  {
    FieldsOkHaveNoCommas(m.fields);
    ParseCoordinatesRoundTrip(m.Longitude(), m.Latitude());
  }

  /** The description printed for a feature is its group 0 (and the closing `"}`). */
  lemma FeatureDescription(m: CsvMatch)
    requires |m.fields| == 5
    ensures Values(FeatureLines(m), DescriptionKey) == [m.description + "\"}"]
  {
    var d := m.description + "\"}";
    var head := FeatureHead(m.Longitude(), m.Latitude());
    HeadMisses(m.Longitude(), m.Latitude());
    TailMisses();
    AppendAssoc3(DescriptionKey, m.description, "\"}");
    assert FeatureLines(m) == head + [DescriptionKey + d] + ["    }"];
    ValuesKeyed(DescriptionKey, d);
    ValuesAround(head, DescriptionKey + d, ["    }"], DescriptionKey);
  }

  lemma HeadMisses(longitude: string, latitude: string)
    ensures Values(FeatureHead(longitude, latitude), DescriptionKey) == []
  {
    ValuesMiss(FeatureHead(longitude, latitude), DescriptionKey, 7);
  }

  lemma TailMisses()
    ensures Values(["    }"], DescriptionKey) == []
  {
    ValuesMiss(["    }"], DescriptionKey, 7);
  }

  lemma ValuesAround(a: seq<string>, line: string, b: seq<string>, key: string)
    requires Values(a, key) == [] && Values(b, key) == []
    ensures Values(a + [line] + b, key) == Values([line], key)
  {
    ValuesAppend(a + [line], b, key);
    ValuesAppend(a, [line], key);
  }

  /** Group 0 of each match, as printed. */
  function Descriptions(ms: seq<CsvMatch>): seq<string>
    decreases |ms|
  {
    if ms == [] then [] else Descriptions(ms[..|ms| - 1]) + [ms[|ms| - 1].description + "\"}"]
  }

  lemma {:induction false} DescriptionsAt(ms: seq<CsvMatch>)
    ensures |Descriptions(ms)| == |ms|
    ensures forall i :: 0 <= i < |ms| ==> Descriptions(ms)[i] == ms[i].description + "\"}"
    decreases |ms|
  {
    if ms != [] {
      var init := ms[..|ms| - 1];
      DescriptionsAt(init);
      assert forall i :: 0 <= i < |init| ==> init[i] == ms[i];
    }
  }

  /** The descriptions printed over a run are the matched lines' group 0, in input order. */
  lemma {:induction false} BlocksDescriptions(ms: seq<CsvMatch>)
    requires forall j :: 0 <= j < |ms| ==> |ms[j].fields| == 5
    ensures Values(CommaSeparated(Blocks(ms)), DescriptionKey) == Descriptions(ms)
    decreases |ms|
  {
    if ms != [] {
      var init, m := ms[..|ms| - 1], ms[|ms| - 1];
      assert ms == init + [m];
      BlocksDescriptions(init);
      var b := FeatureLines(m);
      var c, sep := CommaSeparated(Blocks(init)), if |init| > 0 then [Separator] else [];
      MatchedStep([], init, m);
      assert [] + c + sep + b == c + sep + b;
      assert [] + CommaSeparated(Blocks(ms)) == CommaSeparated(Blocks(ms));
      assert Descriptions(ms) == Descriptions(init) + [m.description + "\"}"];
      SeparatorCarriesNothing(sep, DescriptionKey);
      ValuesSkip(c, sep, b, DescriptionKey);
      FeatureDescription(m);
    }
  }

  /** N features are joined by exactly N - 1 separator lines, none leading or trailing. */
  lemma BlocksSeparators(ms: seq<CsvMatch>)
    requires forall j :: 0 <= j < |ms| ==> |ms[j].fields| == 5
    ensures CountOf(CommaSeparated(Blocks(ms)), Separator) == if ms == [] then 0 else |ms| - 1
    ensures ms != [] ==> StartsAndEndsWithContent(CommaSeparated(Blocks(ms)))
  {
    var bs := Blocks(ms);
    forall i | 0 <= i < |ms|
      ensures LongLines(bs[i], 5) && StartsAndEndsWithContent(bs[i])
    {
      FeatureLinesLong(ms[i]);
    }
    SeparatorCount(bs);
    NoLeadingOrTrailingSeparator(bs);
  }

  /** Feature `i` is placed at longitude (group 3) then latitude (group 1) of match `i`. */
  lemma BlocksCoordinates(ms: seq<CsvMatch>)
    requires forall j :: 0 <= j < |ms| ==> |ms[j].fields| == 5 && FieldsOk(ms[j].fields)
    ensures forall i :: 0 <= i < |ms| ==>
      |Blocks(ms)[i]| > 4 && ParseCoordinates(Blocks(ms)[i][4]) == Some((ms[i].fields[4], ms[i].fields[3]))
  {
    forall i | 0 <= i < |ms|
      ensures |Blocks(ms)[i]| > 4 && ParseCoordinates(Blocks(ms)[i][4]) == Some((ms[i].fields[4], ms[i].fields[3]))
    {
      FeatureCoordinates(ms[i]);
    }
  }

  /** doFile from the initial global prints the envelope, the features in
      input order joined by separators, and the closing lines; with no match,
      the envelope and the closing lines alone. */
  lemma DocumentShape(lines: seq<string>)
    ensures var ms, r := Matches(lines), Run(Start.(output := Envelope), lines);
      && r.lineCount == |ms|
      && Closed(r.output) == Envelope + CommaSeparated(Blocks(ms)) + Closing
      && (ms == [] ==> Closed(r.output) == Envelope + Closing)
  {
    RunFromStart(Envelope, lines);
    assert CommaSeparated([]) == [];
  }

  /** The output of a run from the initial global: N features joined by
      N - 1 separator lines, none leading or trailing, whose descriptions are
      the matches' group 0 in input order. */
  lemma RunOutput(lines: seq<string>)
    ensures var ms, s := Matches(lines), Run(Start, lines);
      && s.lineCount == |ms|
      && s.output == CommaSeparated(Blocks(ms))
      && CountOf(s.output, Separator) == (if ms == [] then 0 else |ms| - 1)
      && (ms != [] ==> StartsAndEndsWithContent(s.output))
      && Values(s.output, DescriptionKey) == Descriptions(ms)
  {
    var ms := Matches(lines);
    assert Start.(output := []) == Start;
    RunFromStart([], lines);
    assert [] + CommaSeparated(Blocks(ms)) == CommaSeparated(Blocks(ms));
    BlocksSeparators(ms);
    BlocksDescriptions(ms);
  }

  /** The lines that match, in input order. */
  function MatchingLines(lines: seq<string>): seq<string>
    decreases |lines|
  {
    if lines == [] then []
    else
      var init, last := MatchingLines(lines[..|lines| - 1]), lines[|lines| - 1];
      if Match(last).Some? then init + [last] else init
  }

  /** For lines without a newline, match `i` describes matching line `i` whole. */
  lemma {:induction false} DescriptionsAreLines(lines: seq<string>)
    requires forall j :: 0 <= j < |lines| ==> '\n' !in lines[j]
    ensures |Matches(lines)| == |MatchingLines(lines)|
    ensures forall i :: 0 <= i < |Matches(lines)| ==> Matches(lines)[i].description == MatchingLines(lines)[i]
    decreases |lines|
  {
    if lines != [] {
      var init, last := lines[..|lines| - 1], lines[|lines| - 1];
      assert forall j :: 0 <= j < |init| ==> init[j] == lines[j];
      DescriptionsAreLines(init);
      if Match(last).Some? {
        DescriptionIsLine(last);
      }
    }
  }

  // ---------------------------------------------------------------------------
  // The converter as the script runs it
  // ---------------------------------------------------------------------------

  /** The module global and the printed lines. */
  class CsvTransducer {
    var lineCount: nat
    var output: seq<string>

    function Snapshot(): State
      reads this
    {
      State(lineCount, output)
    }

    constructor()
      ensures Snapshot() == Start
    {
      lineCount, output := 0, [];
    }

    /** `print(line)` */
    method Emit(line: string)
      modifies this
      ensures Snapshot() == old(Snapshot()).(output := old(output) + [line])
    {
      output := output + [line];
    }

    /** doLine(n, line): `n` is not used. */
    method DoLine(n: nat, line: string)
      modifies this
      ensures Snapshot() == Step(old(Snapshot()), line)
    {
      var result := Match(line);
      if result.Some? {
        var m := result.value;
        if lineCount > 0 {
          Emit(Separator);
        }
        PrintFeature(m);
        lineCount := lineCount + 1;
      }
    }

    method PrintFeature(m: CsvMatch)
      requires |m.fields| == 5
      modifies this
      ensures Snapshot() == old(Snapshot()).(output := old(output) + FeatureLines(m))
    {
      Emit("    {");
      Emit("      \"type\":\"Feature\",");
      Emit("      \"geometry\": {");
      Emit("        \"type\":\"Point\",");
      Emit(CoordinatesLine(m.Longitude(), m.Latitude()));
      Emit("      },");
      Emit(DescriptionKey + m.description + "\"}");
      Emit("    }");
    }

    /** One more turn of the file loop: `doLine` on the next line. */
    method DoNextLine(ghost start: State, ghost done: seq<string>, n: nat, line: string)
      requires Snapshot() == Run(start, done)
      modifies this
      ensures Snapshot() == Run(start, done + [line])
    {
      DoLine(n, line);
      RunSnoc(start, done, line);
    }

    /** The file loop: every line, stripped, through doLine in order. */
    method ProcessLines(lines: seq<string>)
      modifies this
      ensures Snapshot() == Run(old(Snapshot()), Stripped(lines))
    {
      var n := 0;
      while n < |lines|
        invariant 0 <= n <= |lines|
        invariant Snapshot() == Run(old(Snapshot()), Stripped(lines)[..n])
      {
        StrippedPrefix(lines, n);
        DoNextLine(old(Snapshot()), Stripped(lines)[..n], n, RStrip(lines[n]));
        n := n + 1;
      }
      StrippedWhole(lines);
    }

    /** doFile: the envelope, the features and the closing lines. */
    method DoFile(lines: seq<string>)
      modifies this
      ensures var r := Run(old(Snapshot()).(output := old(output) + Envelope), Stripped(lines));
        Snapshot() == r.(output := Closed(r.output))
    {
      PrintEnvelope();
      ProcessLines(lines);
      Emit(Closing[0]);
      Emit(Closing[1]);
    }

    method PrintEnvelope()
      modifies this
      ensures Snapshot() == old(Snapshot()).(output := old(output) + Envelope)
    {
      Emit(Envelope[0]);
      Emit(Envelope[1]);
      Emit(Envelope[2]);
    }
  }
}
