/** The converter for `$SN01,` telemetry lines (python/xinabox-log-to-geojson.py).
    A line matches the record pattern somewhere after an arbitrary prefix; each
    matching line becomes one GeoJSON Point feature whose properties carry the
    matched text, the altitude in metres and feet, a rising/falling colour and
    a running sequence number. Four counters survive from line to line. */
module RichLog {
  import opened Text
  import opened GeoJson

  // ---------------------------------------------------------------------------
  // Recogniser for `.*\$SN01,\d+(\.\d)?,\d+(\.\d+)?,\d{4}-\d{2}-\d{2},
  //                 \d{2}:\d{2}:\d{2},\d+,([-+]?\d+\.\d+),([-+]?\d+\.\d+),(\d+)`
  // ---------------------------------------------------------------------------

  const Marker: string := "$SN01,"

  /** A successful match: where the marker starts, the seven comma-terminated
      fields after it (a value with at most one decimal, a decimal, the date,
      the UTC time, the fix, then groups 3 and 4: latitude and longitude), the
      altitude digits (group 5), and group 0: the line from its start through
      the last altitude digit. */
  datatype Sn01Match = Sn01Match(marker: nat, fields: seq<string>, altitude: string, rawdata: string)
  {
    /** `result.group(3)` */
    function Latitude(): string
      requires |fields| == 7
    {
      fields[5]
    }

    /** `result.group(4)` */
    function Longitude(): string
      requires |fields| == 7
    {
      fields[6]
    }

    /** The text the pattern matches from the marker on. */
    function Body(): string {
      Marker + Terminated(fields) + altitude
    }

    function End(): nat {
      marker + |Body()|
    }
  }

  /** Field `i` after the marker belongs to the character class the pattern gives it. */
  predicate FieldOk(field: string, i: nat) {
    if i == 0 then OneDecimalPlace(field)
    else if i == 1 then UnsignedDecimal(field, false)
    else if i == 2 then IsDate(field)
    else if i == 3 then IsClock(field)
    else if i == 4 then Digits(field)
    else if i <= 6 then SignedDecimal(field, true)
    else false
  }

  /** All seven fields belong to their classes. */
  predicate FieldsOk(fields: seq<string>) {
    |fields| == 7 && FieldsOkFrom(fields, 0)
  }

  /** Fields `i` to 6 belong to their classes. */
  predicate FieldsOkFrom(fields: seq<string>, i: nat)
    requires |fields| == 7
    decreases 7 - i
  {
    i >= 7 || (FieldOk(fields[i], i) && FieldsOkFrom(fields, i + 1))
  }

  lemma {:induction false} FieldsOkEach(fields: seq<string>, j: nat, i: nat)
    requires |fields| == 7 && FieldsOkFrom(fields, j) && j <= i < 7
    ensures FieldOk(fields[i], i)
    decreases i - j
  {
    if j < i {
      FieldsOkEach(fields, j + 1, i);
    }
  }

  /** What formatting a match needs: seven fields and a digit altitude. */
  predicate WellFormed(m: Sn01Match) {
    |m.fields| == 7 && Digits(m.altitude)
  }

  /** `m` describes a match of the pattern's tail at `m.marker` in `line`: the
      marker, the seven fields, and the longest run of altitude digits, with
      group 0 everything up to the end of that run. */
  predicate RecordAt(line: string, m: Sn01Match) {
    && FieldsOk(m.fields)
    && Digits(m.altitude)
    && m.End() <= |line|
    && line[m.marker..m.End()] == m.Body()
    && (m.End() == |line| || !IsDigit(line[m.End()]))
    && m.rawdata == line[..m.End()]
  }

  lemma FieldsOkHaveNoCommas(fields: seq<string>)
    requires FieldsOk(fields)
    ensures NoCommas(fields)
    ensures forall i :: 0 <= i < 7 ==> '$' !in fields[i]
  {
    forall i | 0 <= i < 7 ensures ',' !in fields[i] && '$' !in fields[i] {
      FieldsOkEach(fields, 0, i);
      if i == 0 || i == 1 {
        DecimalFieldChars(fields[i], false);
      } else if i <= 4 {
        FieldCharsOfDigits(fields[i]);
      } else {
        DecimalFieldChars(fields[i], true);
      }
      FieldCharsExclude(fields[i]);
    }
  }

  /** The marker and the seven comma-terminated fields at `p`, if they are
      there, with the position after the last comma. */
  function FieldsAt(line: string, p: nat): (r: Option<(seq<string>, nat)>)
    requires p <= |line|
    ensures r.Some? ==> var (fields, q) := r.value;
      |fields| == 7 && p + |Marker| <= q <= |line|
      && line[p..p + |Marker|] == Marker && line[p + |Marker|..q] == Terminated(fields)
  {
    if p + |Marker| <= |line| && line[p..p + |Marker|] == Marker then
      ScanFieldsSound(line, p + |Marker|, 7);
      ScanFields(line, p + |Marker|, 7)
    else None
  }

  /** The pattern's tail (from `\$SN01,` on) tried at position `p`. */
  function MatchAt(line: string, p: nat): (r: Option<Sn01Match>)
    requires p <= |line|
  {
    match FieldsAt(line, p)
    case None => None
    case Some((fields, q)) =>
      if FieldsOk(fields) then
        var e := DigitRunEnd(line, q);
        if q < e then Some(Sn01Match(p, fields, line[q..e], line[..e])) else None
      else None
  }

  /** What MatchAt finds is a match of the tail at `p`. */
  lemma MatchAtSound(line: string, p: nat)
    requires p <= |line| && MatchAt(line, p).Some?
    ensures MatchAt(line, p).value.marker == p && RecordAt(line, MatchAt(line, p).value)
  {
    var (fields, q) := FieldsAt(line, p).value;
    TailRecord(line, p, fields, q, DigitRunEnd(line, q));
  }

  lemma TailRecord(line: string, p: nat, fields: seq<string>, q: nat, e: nat)
    requires p + |Marker| <= q < e <= |line|
    requires line[p..p + |Marker|] == Marker && line[p + |Marker|..q] == Terminated(fields)
    requires FieldsOk(fields)
    requires DigitsIn(line, q, e) && (e == |line| || !IsDigit(line[e]))
    ensures RecordAt(line, Sn01Match(p, fields, line[q..e], line[..e]))
  {
    var m := Sn01Match(p, fields, line[q..e], line[..e]);
    assert line[p..e] == line[p..q] + line[q..e];
    assert line[p..q] == line[p..p + |Marker|] + line[p + |Marker|..q];
    assert Digits(m.altitude) by {
      forall k | 0 <= k < e - q ensures IsDigit(m.altitude[k]) {
        assert m.altitude[k] == line[q + k];
      }
    }
  }

  /** The tail match at a position is unique: any description of a match at
      `m.marker` is the one MatchAt finds. */
  lemma MatchAtComplete(line: string, m: Sn01Match)
    requires RecordAt(line, m)
    ensures MatchAt(line, m.marker) == Some(m)
  {
    var p, e := m.marker, m.End();
    var q := p + |Marker| + |Terminated(m.fields)|;
    BodyPieces(line, m);
    FieldsOkHaveNoCommas(m.fields);
    FieldsFound(line, p, m.fields);
    AltitudeRunEnd(line, q, e, m.altitude);
    assert q < e && line[q..e] == m.altitude;
    assert m == Sn01Match(p, m.fields, line[q..e], line[..e]);
  }

  lemma FieldsFound(line: string, p: nat, fields: seq<string>)
    requires |fields| == 7 && NoCommas(fields)
    requires p + |Marker| + |Terminated(fields)| <= |line|
    requires line[p..p + |Marker|] == Marker
    requires line[p + |Marker|..p + |Marker| + |Terminated(fields)|] == Terminated(fields)
    ensures FieldsAt(line, p) == Some((fields, p + |Marker| + |Terminated(fields)|))
  {
    ScanFieldsComplete(line, p + |Marker|, fields);
  }

  lemma AltitudeRunEnd(line: string, q: nat, e: nat, altitude: string)
    requires q <= e <= |line| && line[q..e] == altitude && Digits(altitude)
    requires e == |line| || !IsDigit(line[e])
    ensures DigitRunEnd(line, q) == e
  {
    forall k | q <= k < e ensures IsDigit(line[k]) {
      assert line[k] == altitude[k - q];
    }
    DigitRunEndIsLongest(line, q, e);
  }

  /** Where the marker, the fields and the altitude of a match sit in the line. */
  lemma BodyPieces(line: string, m: Sn01Match)
    requires m.End() <= |line| && line[m.marker..m.End()] == m.Body()
    ensures var p, t := m.marker, Terminated(m.fields);
      && line[p..p + |Marker|] == Marker
      && line[p + |Marker|..p + |Marker| + |t|] == t
      && line[p + |Marker| + |t|..m.End()] == m.altitude
  {
    ThreePieces(line, m.marker, m.End(), Marker, Terminated(m.fields), m.altitude);
  }

  /** A slice made of three pieces holds each piece at its offset. */
  lemma ThreePieces(line: string, lo: nat, hi: nat, x: string, y: string, z: string)
    requires lo <= hi <= |line| && line[lo..hi] == x + y + z
    ensures line[lo..lo + |x|] == x
    ensures line[lo + |x|..lo + |x| + |y|] == y
    ensures line[lo + |x| + |y|..hi] == z
  {
    var w := line[lo..hi];
    assert w[..|x|] == x;
    assert w[|x|..|x| + |y|] == y;
    assert w[|x| + |y|..] == z;
    assert line[lo..lo + |x|] == w[..|x|];
    var u, v := line[lo + |x|..lo + |x| + |y|], w[|x|..|x| + |y|];
    forall k | 0 <= k < |y| ensures u[k] == v[k] {
      assert w[|x| + k] == line[lo + |x| + k];
    }
    assert u == v;
    assert line[lo + |x| + |y|..hi] == w[|x| + |y|..];
  }

  /** The greedy `.*` backs off from the longest prefix: positions `p`, `p - 1`,
      ..., 0 are tried in turn, so the match found is the one at the last
      position up to `p` that holds a match of the tail. */
  function MatchFrom(line: string, p: nat): (r: Option<Sn01Match>)
    requires p <= |line|
    ensures r.Some? ==> r.value.marker <= p && RecordAt(line, r.value)
    ensures forall m :: RecordAt(line, m) && m.marker <= p ==> r.Some? && m.marker <= r.value.marker
    decreases p
  {
    var here := MatchAt(line, p);
    if here.Some? then
      MatchAtSound(line, p);
      here
    else
      NoMatchHere(line, p);
      if p == 0 then None else MatchFrom(line, p - 1)
  }

  /** Where MatchAt finds nothing, no match of the tail starts. */
  lemma NoMatchHere(line: string, p: nat)
    requires p <= |line| && MatchAt(line, p).None?
    ensures forall m :: RecordAt(line, m) ==> m.marker != p
  {
    forall m | RecordAt(line, m) ensures m.marker != p {
      MatchAtComplete(line, m);
    }
  }

  /** `re.match(sn01pat, line)`. A match exists exactly when some position not
      preceded by a newline holds a match of the tail; the one chosen is the
      last such position. */
  function Match(line: string): (r: Option<Sn01Match>)
    ensures r.Some? ==> RecordAt(line, r.value) && '\n' !in line[..r.value.marker]
    ensures forall m :: RecordAt(line, m) && '\n' !in line[..m.marker] ==> r.Some? && m.marker <= r.value.marker
  {
    var limit := IndexOf(line, '\n', 0);
    var r := MatchFrom(line, limit);
    assert r.Some? ==> '\n' !in line[..r.value.marker] by {
      if r.Some? {
        NoNewlineBefore(line, r.value.marker);
      }
    }
    assert forall m :: RecordAt(line, m) && '\n' !in line[..m.marker] ==> m.marker <= limit by {
      forall m | RecordAt(line, m) && '\n' !in line[..m.marker] ensures m.marker <= limit {
        NoNewlineBefore(line, m.marker);
      }
    }
    r
  }

  /** Of two matches at the same position, both are the same: group 0 and the
      captured groups are determined by the line once the marker is fixed. */
  lemma MatchIsUnique(line: string, m: Sn01Match)
    requires Match(line).Some? && RecordAt(line, m) && m.marker == Match(line).value.marker
    ensures m == Match(line).value
  {
    MatchAtComplete(line, m);
    MatchAtComplete(line, Match(line).value);
  }

  /** Group 0 stops at the altitude: it is the prefix before the marker and
      the matched record, and the trailing fields after the altitude are not
      part of it. */
  lemma RawdataExcludesTrailingFields(line: string, m: Sn01Match)
    requires RecordAt(line, m)
    ensures m.rawdata == line[..m.marker] + m.Body()
    ensures line == m.rawdata + line[m.End()..]
  {
    assert line[..m.End()] == line[..m.marker] + line[m.marker..m.End()];
  }

  /** What is captured, by class: the first field has at most one fractional
      digit, latitude and longitude are decimals with a fraction and an
      optional sign, and the altitude is unsigned digits. */
  lemma MatchedFields(line: string)
    requires Match(line).Some?
    ensures var m := Match(line).value;
      && |m.fields| == 7
      && OneDecimalPlace(m.fields[0])
      && SignedDecimal(m.Latitude(), true) && SignedDecimal(m.Longitude(), true)
      && Digits(m.altitude)
  {
    var m := Match(line).value;
    FieldsOkEach(m.fields, 0, 0);
    FieldsOkEach(m.fields, 0, 5);
    FieldsOkEach(m.fields, 0, 6);
  }

  /** Whatever follows the altitude leaves the match, and so group 0, as it
      was, provided it does not extend the altitude (it does not start with a
      digit) and holds no `$` from which a later record could start: the
      greedy `.*` would pick such a later record instead. */
  lemma TrailingFieldsIgnored(line: string, suffix: string)
    requires Match(line).Some? && Match(line).value.End() == |line|
    requires suffix == [] || !IsDigit(suffix[0])
    requires '$' !in suffix
    ensures Match(line + suffix) == Match(line)
  {
    var m, full := Match(line).value, line + suffix;
    assert full[..|line|] == line;
    assert full[m.marker..m.End()] == line[m.marker..m.End()];
    assert full[..m.End()] == line[..m.End()];
    assert full[..m.marker] == line[..m.marker];
    assert RecordAt(full, m);
    var r := Match(full).value;
    NoLaterMarker(line, m, suffix);
    MarkerAt(full, r);
    MatchIsUnique(full, m);
  }

  /** A record starts with `$`. */
  lemma MarkerAt(line: string, m: Sn01Match)
    requires RecordAt(line, m)
    ensures m.marker < |line| && line[m.marker] == '$'
  {
    assert line[m.marker..m.End()][0] == m.Body()[0];
  }

  /** No `$` follows the marker of a record that ends the line, once text free
      of `$` is appended. */
  lemma NoLaterMarker(line: string, m: Sn01Match, suffix: string)
    requires RecordAt(line, m) && m.End() == |line| && '$' !in suffix
    ensures forall k :: m.marker < k < |line + suffix| ==> (line + suffix)[k] != '$'
  {
    var full := line + suffix;
    forall k | m.marker < k < |full| ensures full[k] != '$' {
      if k < |line| {
        assert full[k] == line[m.marker..m.End()][k - m.marker];
        BodyDollarFree(m, k - m.marker);
      } else {
        assert full[k] == suffix[k - |line|];
      }
    }
  }

  /** The only `$` of a record's text is its first character. */
  lemma BodyDollarFree(m: Sn01Match, j: nat)
    requires FieldsOk(m.fields) && Digits(m.altitude) && 0 < j < |m.Body()|
    ensures m.Body()[j] != '$'
  {
    var t := Terminated(m.fields);
    FieldsOkHaveNoCommas(m.fields);
    TerminatedExcludes(m.fields, '$');
    if j < |Marker| {
    } else if j < |Marker| + |t| {
      assert m.Body()[j] == t[j - |Marker|];
    } else {
      assert m.Body()[j] == m.altitude[j - |Marker| - |t|];
    }
  }

  /** Whatever precedes the record (with no newline in it) does not stop the
      line from matching, and the record is matched from its own marker on or later. */
  lemma AnyPrefix(prefix: string, line: string, m: Sn01Match)
    requires '\n' !in prefix && RecordAt(line, m) && m.marker == 0
    ensures Match(prefix + line).Some? && Match(prefix + line).value.marker >= |prefix|
  {
    var full := prefix + line;
    var m' := m.(marker := |prefix|, rawdata := prefix + m.rawdata);
    assert m'.End() == |prefix| + m.End();
    assert full[m'.marker..m'.End()] == line[0..m.End()];
    assert m'.End() < |full| ==> full[m'.End()] == line[m.End()];
    assert full[..m'.End()] == prefix + line[..m.End()];
    assert RecordAt(full, m');
    assert full[..m'.marker] == prefix;
  }

  // ---------------------------------------------------------------------------
  // Feature formatting (geojsonize)
  // ---------------------------------------------------------------------------

  const RawdataKey: string := "        {\"rawdata\":\""
  const AltitudeMetersKey: string := "        ,\"altitudeMeters\":"
  const AltitudeFeetKey: string := "        ,\"altitudeFeet\":"
  const SymbolKey: string := "      ,\"marker-symbol\":"
  const ColourKey: string := "  ,\"marker-color\":"
  const SequenceKey: string := "      ,\"sequence\":"
  const Rising: string := "\"#00ff00\""
  const Falling: string := "\"#ff0000\""

  /** `int(result.group(5))` */
  function AltitudeMeters(m: Sn01Match): nat
    requires WellFormed(m)
  {
    DigitsValue(m.altitude)
  }

  /** Feet for `altm` metres: the exact quotient `altm / 0.3048`, rounded down.
      The source computes it in floating point. */
  function AltitudeFeet(altm: nat): (feet: nat)
    ensures 381 * feet <= 1250 * altm < 381 * (feet + 1)
  {
    altm * 1250 / 381
  }

  /** The marker-color line, if any, for a feature at `altm` after one at `lastAltM`. */
  function ColourLines(lastAltM: nat, altm: nat): seq<string> {
    if lastAltM != 0 then
      if altm > lastAltM then [ColourKey + Rising]
      else if altm < lastAltM then [ColourKey + Falling]
      else []
    else []
  }

  /** `'"%s"' % s` */
  function Quoted(s: string): string {
    "\"" + s + "\""
  }

  /** The marker-symbol line, printed only for a non-empty symbol. */
  function SymbolLines(markerSymbol: string): seq<string> {
    if markerSymbol != "" then [SymbolKey + Quoted(markerSymbol)] else []
  }

  /** The properties opening, group 0 and the two altitudes. */
  function PropertyLines(m: Sn01Match): seq<string>
    requires WellFormed(m)
  {
    var altm := AltitudeMeters(m);
    [ "      \"properties\":",
      RawdataKey + m.rawdata + "\"",
      AltitudeMetersKey + Show(altm),
      AltitudeFeetKey + Show(AltitudeFeet(altm))
    ]
  }

  function SequenceLines(sequence: nat): seq<string> {
    [SequenceKey + Show(sequence)]
  }

  const FeatureTail: seq<string> := ["        }", "      }"]

  /** The lines geojsonize prints for one feature, after the separator. */
  function FeatureLines(m: Sn01Match, markerSymbol: string, lastAltM: nat, sequence: nat): (lines: seq<string>)
    requires WellFormed(m)
  {
    FeatureHead(m.Longitude(), m.Latitude())
    + PropertyLines(m)
    + SymbolLines(markerSymbol)
    + ColourLines(lastAltM, AltitudeMeters(m))
    + SequenceLines(sequence)
    + FeatureTail
  }

  lemma ValuesOfParts(a: seq<string>, b: seq<string>, c: seq<string>, d: seq<string>, e: seq<string>, f: seq<string>, key: string)
    ensures Values(a + b + c + d + e + f, key)
      == Values(a, key) + Values(b, key) + Values(c, key) + Values(d, key) + Values(e, key) + Values(f, key)
  {
    ValuesAppend(a + b + c + d + e, f, key);
    ValuesAppend(a + b + c + d, e, key);
    ValuesAppend(a + b + c, d, key);
    ValuesAppend(a + b, c, key);
    ValuesAppend(a, b, key);
  }

  /** Within one feature: the sequence line carries the feature's number; the
      colour is green exactly when a previous nonzero altitude is exceeded and
      red exactly when it is undercut, and absent otherwise; the symbol is
      printed exactly when it is non-empty. */
  lemma FeatureValues(m: Sn01Match, markerSymbol: string, lastAltM: nat, sequence: nat)
    requires WellFormed(m)
    ensures var lines, altm := FeatureLines(m, markerSymbol, lastAltM, sequence), AltitudeMeters(m);
      && Values(lines, SequenceKey) == [Show(sequence)]
      && Values(lines, ColourKey)
        == (if lastAltM != 0 && altm > lastAltM then [Rising]
            else if lastAltM != 0 && altm < lastAltM then [Falling]
            else [])
      && Values(lines, SymbolKey) == (if markerSymbol != "" then [Quoted(markerSymbol)] else [])
  {
    FeatureSequence(m, markerSymbol, lastAltM, sequence);
    FeatureColour(m, markerSymbol, lastAltM, sequence);
    FeatureSymbol(m, markerSymbol, lastAltM, sequence);
  }

  lemma FeatureSequence(m: Sn01Match, markerSymbol: string, lastAltM: nat, sequence: nat)
    requires WellFormed(m)
    ensures Values(FeatureLines(m, markerSymbol, lastAltM, sequence), SequenceKey) == [Show(sequence)]
  {
    var altm := AltitudeMeters(m);
    HeadMisses(m.Longitude(), m.Latitude());
    PropertiesMiss(m);
    SymbolValues(markerSymbol);
    ColourValues(lastAltM, altm);
    SequenceValues(sequence);
    TailMisses();
    ValuesOfParts(FeatureHead(m.Longitude(), m.Latitude()), PropertyLines(m), SymbolLines(markerSymbol),
      ColourLines(lastAltM, altm), SequenceLines(sequence), FeatureTail, SequenceKey);
  }

  lemma FeatureColour(m: Sn01Match, markerSymbol: string, lastAltM: nat, sequence: nat)
    requires WellFormed(m)
    ensures var altm := AltitudeMeters(m);
      Values(FeatureLines(m, markerSymbol, lastAltM, sequence), ColourKey)
        == (if lastAltM != 0 && altm > lastAltM then [Rising]
            else if lastAltM != 0 && altm < lastAltM then [Falling]
            else [])
  {
    var altm := AltitudeMeters(m);
    HeadMisses(m.Longitude(), m.Latitude());
    PropertiesMiss(m);
    SymbolValues(markerSymbol);
    ColourValues(lastAltM, altm);
    SequenceValues(sequence);
    TailMisses();
    ValuesOfParts(FeatureHead(m.Longitude(), m.Latitude()), PropertyLines(m), SymbolLines(markerSymbol),
      ColourLines(lastAltM, altm), SequenceLines(sequence), FeatureTail, ColourKey);
  }

  lemma FeatureSymbol(m: Sn01Match, markerSymbol: string, lastAltM: nat, sequence: nat)
    requires WellFormed(m)
    ensures Values(FeatureLines(m, markerSymbol, lastAltM, sequence), SymbolKey)
      == if markerSymbol != "" then [Quoted(markerSymbol)] else []
  {
    var altm := AltitudeMeters(m);
    HeadMisses(m.Longitude(), m.Latitude());
    PropertiesMiss(m);
    SymbolValues(markerSymbol);
    ColourValues(lastAltM, altm);
    SequenceValues(sequence);
    TailMisses();
    ValuesOfParts(FeatureHead(m.Longitude(), m.Latitude()), PropertyLines(m), SymbolLines(markerSymbol),
      ColourLines(lastAltM, altm), SequenceLines(sequence), FeatureTail, SymbolKey);
  }

  /** Within one feature: `rawdata` carries group 0 (closed by its quote),
      `altitudeMeters` carries `int(group(5))` and `altitudeFeet` the feet for
      it, each exactly once. */
  lemma FeatureProperties(m: Sn01Match, markerSymbol: string, lastAltM: nat, sequence: nat)
    requires WellFormed(m)
    ensures var lines, altm := FeatureLines(m, markerSymbol, lastAltM, sequence), AltitudeMeters(m);
      && Values(lines, RawdataKey) == [m.rawdata + "\""]
      && Values(lines, AltitudeMetersKey) == [Show(altm)]
      && Values(lines, AltitudeFeetKey) == [Show(AltitudeFeet(altm))]
  {
    FeatureProperty(m, markerSymbol, lastAltM, sequence, RawdataKey);
    FeatureProperty(m, markerSymbol, lastAltM, sequence, AltitudeMetersKey);
    FeatureProperty(m, markerSymbol, lastAltM, sequence, AltitudeFeetKey);
    PropertyValues(m);
  }

  /** One of the three properties: only the property lines carry it. */
  lemma FeatureProperty(m: Sn01Match, markerSymbol: string, lastAltM: nat, sequence: nat, key: string)
    requires WellFormed(m) && PropertyKey(key)
    ensures Values(FeatureLines(m, markerSymbol, lastAltM, sequence), key) == Values(PropertyLines(m), key)
  {
    var altm := AltitudeMeters(m);
    NotPropertyMisses(FeatureHead(m.Longitude(), m.Latitude()));
    NotPropertyMisses(FeatureTail);
    OptionalMissProperties(markerSymbol, lastAltM, altm, sequence, key);
    ValuesOfParts(FeatureHead(m.Longitude(), m.Latitude()), PropertyLines(m), SymbolLines(markerSymbol),
      ColourLines(lastAltM, altm), SequenceLines(sequence), FeatureTail, key);
    PropertyValues(m);
  }

  predicate PropertyKey(key: string) {
    key == RawdataKey || key == AltitudeMetersKey || key == AltitudeFeetKey
  }

  /** A line that is not a `rawdata`, `altitudeMeters` or `altitudeFeet` line:
      position 8 tells those keys from it. */
  predicate NotProperty(line: string) {
    |line| <= 8 || (line[8] != '{' && line[8] != ',')
  }

  lemma NotPropertyMisses(lines: seq<string>)
    requires forall x :: x in lines ==> NotProperty(x)
    ensures Values(lines, RawdataKey) == [] && Values(lines, AltitudeMetersKey) == []
      && Values(lines, AltitudeFeetKey) == []
  {
    ValuesMiss(lines, RawdataKey, 8);
    ValuesMiss(lines, AltitudeMetersKey, 8);
    ValuesMiss(lines, AltitudeFeetKey, 8);
  }

  /** A line printed under a key that differs from the three property keys at position 8. */
  lemma KeyedMissesProperty(key: string, v: string, other: string)
    requires |key| > 8 && key[8] != '{' && key[8] != ',' && PropertyKey(other)
    ensures Values([key + v], other) == []
  {
    KeysDiffer();
    KeyedMisses(key, v, other, 8);
  }

  lemma OptionalMissProperties(markerSymbol: string, lastAltM: nat, altm: nat, sequence: nat, key: string)
    requires PropertyKey(key)
    ensures Values(SymbolLines(markerSymbol), key) == []
    ensures Values(ColourLines(lastAltM, altm), key) == []
    ensures Values(SequenceLines(sequence), key) == []
  {
    SymbolMissesProperty(markerSymbol, key);
    ColourMissesProperty(lastAltM, altm, key);
    SequenceMissesProperty(sequence, key);
  }

  lemma SequenceMissesProperty(sequence: nat, key: string)
    requires PropertyKey(key)
    ensures Values(SequenceLines(sequence), key) == []
  {
    assert SequenceKey[8] == 's';
    KeyedMissesProperty(SequenceKey, Show(sequence), key);
  }

  lemma SymbolMissesProperty(markerSymbol: string, key: string)
    requires PropertyKey(key)
    ensures Values(SymbolLines(markerSymbol), key) == []
  {
    if markerSymbol != "" {
      assert SymbolKey[8] == 'm';
      KeyedMissesProperty(SymbolKey, Quoted(markerSymbol), key);
    }
  }

  lemma ColourMissesProperty(lastAltM: nat, altm: nat, key: string)
    requires PropertyKey(key)
    ensures Values(ColourLines(lastAltM, altm), key) == []
  {
    if lastAltM != 0 && altm != lastAltM {
      var v := if altm > lastAltM then Rising else Falling;
      assert ColourLines(lastAltM, altm) == [ColourKey + v];
      assert ColourKey[8] == 'e';
      KeyedMissesProperty(ColourKey, v, key);
    }
  }

  /** The property lines carry group 0 under `rawdata` and the two altitudes under theirs. */
  lemma PropertyValues(m: Sn01Match)
    requires WellFormed(m)
    ensures var altm := AltitudeMeters(m);
      && Values(PropertyLines(m), RawdataKey) == [m.rawdata + "\""]
      && Values(PropertyLines(m), AltitudeMetersKey) == [Show(altm)]
      && Values(PropertyLines(m), AltitudeFeetKey) == [Show(AltitudeFeet(altm))]
  {
    var altm := AltitudeMeters(m);
    var raw, metres, feet := m.rawdata + "\"", Show(altm), Show(AltitudeFeet(altm));
    var opening := "      \"properties\":";
    assert RawdataKey + m.rawdata + "\"" == RawdataKey + raw;
    assert PropertyLines(m) == [opening] + [RawdataKey + raw] + [AltitudeMetersKey + metres] + [AltitudeFeetKey + feet];
    NotPropertyMisses([opening]);
    KeysDiffer();
    RawdataLineValues(raw);
    MetresLineValues(metres);
    FeetLineValues(feet);
    ValuesOfFour([opening], [RawdataKey + raw], [AltitudeMetersKey + metres], [AltitudeFeetKey + feet], RawdataKey);
    ValuesOfFour([opening], [RawdataKey + raw], [AltitudeMetersKey + metres], [AltitudeFeetKey + feet], AltitudeMetersKey);
    ValuesOfFour([opening], [RawdataKey + raw], [AltitudeMetersKey + metres], [AltitudeFeetKey + feet], AltitudeFeetKey);
  }

  lemma KeysDiffer()
    ensures RawdataKey[8] == '{' && AltitudeMetersKey[8] == ',' && AltitudeFeetKey[8] == ','
    ensures AltitudeMetersKey[18] == 'M' && AltitudeFeetKey[18] == 'F'
  {
  }

  lemma RawdataLineValues(v: string)
    ensures Values([RawdataKey + v], RawdataKey) == [v]
    ensures Values([RawdataKey + v], AltitudeMetersKey) == [] && Values([RawdataKey + v], AltitudeFeetKey) == []
  {
    KeysDiffer();
    ValuesKeyed(RawdataKey, v);
    KeyedMisses(RawdataKey, v, AltitudeMetersKey, 8);
    KeyedMisses(RawdataKey, v, AltitudeFeetKey, 8);
  }

  lemma MetresLineValues(v: string)
    ensures Values([AltitudeMetersKey + v], AltitudeMetersKey) == [v]
    ensures Values([AltitudeMetersKey + v], RawdataKey) == [] && Values([AltitudeMetersKey + v], AltitudeFeetKey) == []
  {
    KeysDiffer();
    ValuesKeyed(AltitudeMetersKey, v);
    KeyedMisses(AltitudeMetersKey, v, RawdataKey, 8);
    KeyedMisses(AltitudeMetersKey, v, AltitudeFeetKey, 18);
  }

  lemma FeetLineValues(v: string)
    ensures Values([AltitudeFeetKey + v], AltitudeFeetKey) == [v]
    ensures Values([AltitudeFeetKey + v], RawdataKey) == [] && Values([AltitudeFeetKey + v], AltitudeMetersKey) == []
  {
    KeysDiffer();
    ValuesKeyed(AltitudeFeetKey, v);
    KeyedMisses(AltitudeFeetKey, v, RawdataKey, 8);
    KeyedMisses(AltitudeFeetKey, v, AltitudeMetersKey, 18);
  }

  lemma ValuesOfFour(a: seq<string>, b: seq<string>, c: seq<string>, d: seq<string>, key: string)
    ensures Values(a + b + c + d, key) == Values(a, key) + Values(b, key) + Values(c, key) + Values(d, key)
  {
    ValuesAppend(a + b + c, d, key);
    ValuesAppend(a + b, c, key);
    ValuesAppend(a, b, key);
  }

  /** A line that carries none of the three keyed properties: position 2
      tells the colour key from it, position 8 the sequence and symbol keys. */
  predicate Plain(line: string) {
    (|line| <= 2 || line[2] != ',') && (|line| <= 8 || (line[8] != 's' && line[8] != 'm'))
  }

  lemma PlainMisses(lines: seq<string>)
    requires forall x :: x in lines ==> Plain(x)
    ensures Values(lines, SequenceKey) == [] && Values(lines, ColourKey) == [] && Values(lines, SymbolKey) == []
  {
    ValuesMiss(lines, SequenceKey, 8);
    ValuesMiss(lines, ColourKey, 2);
    ValuesMiss(lines, SymbolKey, 8);
  }

  lemma HeadMisses(longitude: string, latitude: string)
    ensures var lines := FeatureHead(longitude, latitude);
      Values(lines, SequenceKey) == [] && Values(lines, ColourKey) == [] && Values(lines, SymbolKey) == []
  {
    PlainMisses(FeatureHead(longitude, latitude));
  }

  lemma PropertiesMiss(m: Sn01Match)
    requires WellFormed(m)
    ensures var lines := PropertyLines(m);
      Values(lines, SequenceKey) == [] && Values(lines, ColourKey) == [] && Values(lines, SymbolKey) == []
  {
    PlainMisses(PropertyLines(m));
  }

  lemma TailMisses()
    ensures Values(FeatureTail, SequenceKey) == [] && Values(FeatureTail, ColourKey) == []
      && Values(FeatureTail, SymbolKey) == []
  {
    PlainMisses(FeatureTail);
  }

  lemma SymbolValues(markerSymbol: string)
    ensures var lines := SymbolLines(markerSymbol);
      && Values(lines, SequenceKey) == [] && Values(lines, ColourKey) == []
      && Values(lines, SymbolKey) == (if markerSymbol != "" then [Quoted(markerSymbol)] else [])
  {
    if markerSymbol != "" {
      var v := Quoted(markerSymbol);
      assert SymbolKey[8] == 'm' && SequenceKey[8] == 's' && SymbolKey[2] == ' ' && ColourKey[2] == ',';
      KeyedMisses(SymbolKey, v, SequenceKey, 8);
      KeyedMisses(SymbolKey, v, ColourKey, 2);
      ValuesKeyed(SymbolKey, v);
    }
  }

  lemma ColourValues(lastAltM: nat, altm: nat)
    ensures var lines := ColourLines(lastAltM, altm);
      && Values(lines, SequenceKey) == [] && Values(lines, SymbolKey) == []
      && Values(lines, ColourKey)
        == (if lastAltM != 0 && altm > lastAltM then [Rising]
            else if lastAltM != 0 && altm < lastAltM then [Falling]
            else [])
  {
    if lastAltM != 0 && altm != lastAltM {
      var v := if altm > lastAltM then Rising else Falling;
      assert ColourLines(lastAltM, altm) == [ColourKey + v];
      assert ColourKey[2] == ',' && SequenceKey[2] == ' ' && SymbolKey[2] == ' ';
      KeyedMisses(ColourKey, v, SequenceKey, 2);
      KeyedMisses(ColourKey, v, SymbolKey, 2);
      ValuesKeyed(ColourKey, v);
    }
  }

  lemma SequenceValues(sequence: nat)
    ensures var lines := SequenceLines(sequence);
      && Values(lines, SequenceKey) == [Show(sequence)]
      && Values(lines, ColourKey) == [] && Values(lines, SymbolKey) == []
  {
    var v := Show(sequence);
    assert SequenceKey[2] == ' ' && ColourKey[2] == ',' && SequenceKey[8] == 's' && SymbolKey[8] == 'm';
    KeyedMisses(SequenceKey, v, ColourKey, 2);
    KeyedMisses(SequenceKey, v, SymbolKey, 8);
    ValuesKeyed(SequenceKey, v);
  }

  /** Every line of a feature is at least five characters long, so neither
      the separator nor either closing line can be mistaken for one. */
  lemma FeatureLinesLong(m: Sn01Match, markerSymbol: string, lastAltM: nat, sequence: nat)
    requires WellFormed(m)
    ensures LongLines(FeatureLines(m, markerSymbol, lastAltM, sequence), 5)
    ensures StartsAndEndsWithContent(FeatureLines(m, markerSymbol, lastAltM, sequence))
  {
    HeadLong(m.Longitude(), m.Latitude());
    PropertiesLong(m);
    OptionalLinesLong(markerSymbol, lastAltM, AltitudeMeters(m), sequence);
    LongLinesOfParts(FeatureHead(m.Longitude(), m.Latitude()), PropertyLines(m), SymbolLines(markerSymbol),
      ColourLines(lastAltM, AltitudeMeters(m)), SequenceLines(sequence), FeatureTail, 5);
    FirstAndLast(FeatureHead(m.Longitude(), m.Latitude()), PropertyLines(m) + SymbolLines(markerSymbol)
      + ColourLines(lastAltM, AltitudeMeters(m)) + SequenceLines(sequence), FeatureTail);
  }

  lemma LongLinesOfParts(a: seq<string>, b: seq<string>, c: seq<string>, d: seq<string>, e: seq<string>, f: seq<string>, n: nat)
    requires LongLines(a, n) && LongLines(b, n) && LongLines(c, n) && LongLines(d, n) && LongLines(e, n) && LongLines(f, n)
    ensures LongLines(a + b + c + d + e + f, n)
  {
    LongLinesAppend(a, b, n);
    LongLinesAppend(a + b, c, n);
    LongLinesAppend(a + b + c, d, n);
    LongLinesAppend(a + b + c + d, e, n);
    LongLinesAppend(a + b + c + d + e, f, n);
  }

  lemma FirstAndLast(head: seq<string>, middle: seq<string>, tail: seq<string>)
    requires |head| > 0 && |tail| > 0
    ensures (head + middle + tail)[0] == head[0]
    ensures (head + middle + tail)[|head + middle + tail| - 1] == tail[|tail| - 1]
  {
  }

  lemma OptionalLinesLong(markerSymbol: string, lastAltM: nat, altm: nat, sequence: nat)
    ensures LongLines(SymbolLines(markerSymbol), 5) && LongLines(ColourLines(lastAltM, altm), 5)
    ensures LongLines(SequenceLines(sequence), 5) && LongLines(FeatureTail, 5)
  {
    SymbolLong(markerSymbol);
    ColourLong(lastAltM, altm);
    SequenceLong(sequence);
  }

  /** Helpers for FeatureLinesLong: each part of a feature has long lines. */
  lemma SymbolLong(markerSymbol: string)
    ensures LongLines(SymbolLines(markerSymbol), 5)
  {
  }

  lemma ColourLong(lastAltM: nat, altm: nat)
    ensures LongLines(ColourLines(lastAltM, altm), 5)
  {
  }

  lemma SequenceLong(sequence: nat)
    ensures LongLines(SequenceLines(sequence), 5)
  {
  }

  lemma PropertiesLong(m: Sn01Match)
    requires WellFormed(m)
    ensures LongLines(PropertyLines(m), 5)
  {
  }

  /** The coordinates line prints group 4 then group 3, longitude first, and
      reads back as exactly those two values. */
  lemma FeatureCoordinates(m: Sn01Match, markerSymbol: string, lastAltM: nat, sequence: nat)
    requires WellFormed(m) && FieldsOk(m.fields)
    ensures var lines := FeatureLines(m, markerSymbol, lastAltM, sequence);
      |lines| > 4 && ParseCoordinates(lines[4]) == Some((m.fields[6], m.fields[5]))
  {
    FieldsOkHaveNoCommas(m.fields);
    ParseCoordinatesRoundTrip(m.Longitude(), m.Latitude());
  }

  // ---------------------------------------------------------------------------
  // The counters and the printed output
  // ---------------------------------------------------------------------------

  /** The module-level globals `lineCount`, `sequence`, `lastAltM`, `maxAltM`
      and everything printed so far. */
  datatype State = State(lineCount: nat, sequence: nat, lastAltM: nat, maxAltM: nat, output: seq<string>)

  /** The globals as the module defines them, before anything is printed. */
  const Start: State := State(0, 0, 0, 0, [])

  /** geojsonize(result, markerSymbol) */
  function Geojsonized(s: State, m: Sn01Match, markerSymbol: string): State
    requires WellFormed(m)
  {
    var altm := AltitudeMeters(m);
    State(
      s.lineCount,
      s.sequence + 1,
      altm,
      if altm > s.maxAltM then altm else s.maxAltM,
      s.output + (if s.lineCount > 0 then [Separator] else []) + FeatureLines(m, markerSymbol, s.lastAltM, s.sequence))
  }

  /** doLine(n, line) */
  function Step(s: State, line: string): State {
    match Match(line)
    case None => s
    case Some(m) => Geojsonized(s, m, "").(lineCount := s.lineCount + 1)
  }

  /** The lines fed to doLine in order. */
  function Run(s: State, lines: seq<string>): State
    decreases |lines|
  {
    if lines == [] then s else Step(Run(s, lines[..|lines| - 1]), lines[|lines| - 1])
  }

  lemma RunSnoc(s: State, lines: seq<string>, line: string)
    ensures Run(s, lines + [line]) == Step(Run(s, lines), line)
  {
    assert (lines + [line])[..|lines|] == lines;
  }

  /** The matches of the matching lines, in input order. */
  function Matches(lines: seq<string>): (ms: seq<Sn01Match>)
    ensures |ms| <= |lines|
    ensures forall i :: 0 <= i < |ms| ==> WellFormed(ms[i]) && FieldsOk(ms[i].fields)
    decreases |lines|
  {
    if lines == [] then []
    else
      var init := Matches(lines[..|lines| - 1]);
      match Match(lines[|lines| - 1])
      case None => init
      case Some(m) => init + [m]
  }

  /** The altitude before feature `i`: that of the previous match, or the initial 0. */
  function PreviousAltitude(ms: seq<Sn01Match>, i: nat): nat
    requires i <= |ms| && forall j :: 0 <= j < |ms| ==> WellFormed(ms[j])
  {
    if i == 0 then 0 else AltitudeMeters(ms[i - 1])
  }

  /** Feature `i` of a run, on its own: it depends only on its match, the one before it and `i`. */
  function Blocks(ms: seq<Sn01Match>): (bs: seq<seq<string>>)
    requires forall j :: 0 <= j < |ms| ==> WellFormed(ms[j])
    ensures |bs| == |ms|
  {
    seq(|ms|, i requires 0 <= i < |ms| => FeatureLines(ms[i], "", PreviousAltitude(ms, i), i))
  }

  /** The running maximum, seeded with 0. */
  function MaxAltitude(ms: seq<Sn01Match>): nat
    requires forall j :: 0 <= j < |ms| ==> WellFormed(ms[j])
    decreases |ms|
  {
    if ms == [] then 0
    else
      var m, a := MaxAltitude(ms[..|ms| - 1]), AltitudeMeters(ms[|ms| - 1]);
      if a > m then a else m
  }

  /** The running maximum is the largest of 0 and all matched altitudes. */
  lemma {:induction false} MaxAltitudeIsMaximum(ms: seq<Sn01Match>)
    requires forall j :: 0 <= j < |ms| ==> WellFormed(ms[j])
    ensures forall i :: 0 <= i < |ms| ==> AltitudeMeters(ms[i]) <= MaxAltitude(ms)
    ensures MaxAltitude(ms) == 0 || exists i :: 0 <= i < |ms| && AltitudeMeters(ms[i]) == MaxAltitude(ms)
    decreases |ms|
  {
    if ms != [] {
      var init := ms[..|ms| - 1];
      MaxAltitudeIsMaximum(init);
      assert forall i :: 0 <= i < |init| ==> init[i] == ms[i];
    }
  }

  /** Over a whole run from the initial globals, the counters and output are
      described by the matches alone: one feature per match, in order, feature
      `i` numbered `i` and coloured against match `i - 1`, separated by commas. */
  lemma {:induction false} RunFromStart(prefix: seq<string>, lines: seq<string>)
    ensures var ms := Matches(lines);
      Run(Start.(output := prefix), lines)
        == State(|ms|, |ms|, PreviousAltitude(ms, |ms|), MaxAltitude(ms), prefix + CommaSeparated(Blocks(ms)))
    decreases |lines|
  {
    if lines != [] {
      var init, line := lines[..|lines| - 1], lines[|lines| - 1];
      RunFromStart(prefix, init);
      var ms := Matches(init);
      var r := Match(line);
      if r.Some? {
        MatchedStep(prefix, ms, r.value);
      }
    }
  }

  /** One more matching line adds one block to the run's description. */
  lemma MatchedStep(prefix: seq<string>, ms: seq<Sn01Match>, m: Sn01Match)
    requires forall j :: 0 <= j < |ms| ==> WellFormed(ms[j])
    requires WellFormed(m)
    ensures var s := State(|ms|, |ms|, PreviousAltitude(ms, |ms|), MaxAltitude(ms), prefix + CommaSeparated(Blocks(ms)));
      var ms' := ms + [m];
      Geojsonized(s, m, "").(lineCount := |ms| + 1)
        == State(|ms'|, |ms'|, PreviousAltitude(ms', |ms'|), MaxAltitude(ms'), prefix + CommaSeparated(Blocks(ms')))
  {
    MatchedOutput(prefix, ms, m);
    MatchedAltitudes(ms, m);
  }

  lemma MatchedAltitudes(ms: seq<Sn01Match>, m: Sn01Match)
    requires forall j :: 0 <= j < |ms| ==> WellFormed(ms[j])
    requires WellFormed(m)
    ensures var ms', altm := ms + [m], AltitudeMeters(m);
      && PreviousAltitude(ms', |ms'|) == altm
      && MaxAltitude(ms') == if altm > MaxAltitude(ms) then altm else MaxAltitude(ms)
  {
    assert (ms + [m])[..|ms|] == ms;
  }

  lemma MatchedOutput(prefix: seq<string>, ms: seq<Sn01Match>, m: Sn01Match)
    requires forall j :: 0 <= j < |ms| ==> WellFormed(ms[j])
    requires WellFormed(m)
    ensures prefix + CommaSeparated(Blocks(ms)) + (if |ms| > 0 then [Separator] else [])
        + FeatureLines(m, "", PreviousAltitude(ms, |ms|), |ms|)
      == prefix + CommaSeparated(Blocks(ms + [m]))
  {
    var b := FeatureLines(m, "", PreviousAltitude(ms, |ms|), |ms|);
    var c, sep := CommaSeparated(Blocks(ms)), if |ms| > 0 then [Separator] else [];
    BlocksSnoc(ms, m);
    CommaSeparatedSnoc(Blocks(ms), b);
    AppendAssoc(prefix, c, sep, b);
  }

  lemma BlocksSnoc(ms: seq<Sn01Match>, m: Sn01Match)
    requires forall j :: 0 <= j < |ms| ==> WellFormed(ms[j])
    requires WellFormed(m)
    ensures Blocks(ms + [m]) == Blocks(ms) + [FeatureLines(m, "", PreviousAltitude(ms, |ms|), |ms|)]
  {
    var ms' := ms + [m];
    var bs, b := Blocks(ms), FeatureLines(m, "", PreviousAltitude(ms, |ms|), |ms|);
    forall i | 0 <= i < |ms'| ensures Blocks(ms')[i] == (bs + [b])[i] {
      if i < |ms| {
        SameBlock(ms', ms, i);
      } else {
        assert ms'[i] == m && PreviousAltitude(ms', i) == PreviousAltitude(ms, |ms|);
      }
    }
    assert |Blocks(ms')| == |bs + [b]|;
  }

  /** Feature `i` is the same in two runs that agree up to and including match `i`. */
  lemma SameBlock(ms: seq<Sn01Match>, ns: seq<Sn01Match>, i: nat)
    requires forall j :: 0 <= j < |ms| ==> WellFormed(ms[j])
    requires forall j :: 0 <= j < |ns| ==> WellFormed(ns[j])
    requires i < |ms| && i < |ns| && ms[..i + 1] == ns[..i + 1]
    ensures Blocks(ms)[i] == Blocks(ns)[i]
  {
    assert ms[i] == ms[..i + 1][i] == ns[..i + 1][i] == ns[i];
    if i > 0 {
      assert ms[i - 1] == ms[..i + 1][i - 1] == ns[..i + 1][i - 1] == ns[i - 1];
    }
  }

  /** The numbers 0 to `n - 1` as `'%d'` prints them. */
  function Numbers(n: nat): seq<string>
    decreases n
  {
    if n == 0 then [] else Numbers(n - 1) + [Show(n - 1)]
  }

  lemma {:induction false} NumbersAt(n: nat)
    ensures |Numbers(n)| == n && forall i :: 0 <= i < n ==> Numbers(n)[i] == Show(i)
    decreases n
  {
    if n > 0 {
      NumbersAt(n - 1);
    }
  }

  /** From the initial globals, the printed sequence numbers are 0, 1, ...,
      N - 1 in order, and no marker-symbol is ever printed. */
  lemma {:induction false} BlocksValues(ms: seq<Sn01Match>)
    requires forall j :: 0 <= j < |ms| ==> WellFormed(ms[j])
    ensures Values(CommaSeparated(Blocks(ms)), SequenceKey) == Numbers(|ms|)
    ensures Values(CommaSeparated(Blocks(ms)), SymbolKey) == []
    decreases |ms|
  {
    if ms != [] {
      var init, m := ms[..|ms| - 1], ms[|ms| - 1];
      assert ms == init + [m];
      BlocksValues(init);
      var b := FeatureLines(m, "", PreviousAltitude(init, |init|), |init|);
      var c, sep := CommaSeparated(Blocks(init)), if init == [] then [] else [Separator];
      BlocksSnoc(init, m);
      CommaSeparatedSnoc(Blocks(init), b);
      ValuesSnoc(c, sep, b);
      FeatureValues(m, "", PreviousAltitude(init, |init|), |init|);
    }
  }

  lemma ValuesSnoc(c: seq<string>, sep: seq<string>, b: seq<string>)
    requires sep == [] || sep == [Separator]
    ensures Values(c + sep + b, SequenceKey) == Values(c, SequenceKey) + Values(b, SequenceKey)
    ensures Values(c + sep + b, SymbolKey) == Values(c, SymbolKey) + Values(b, SymbolKey)
  {
    SeparatorCarriesNothing(sep, SequenceKey);
    SeparatorCarriesNothing(sep, SymbolKey);
    ValuesSkip(c, sep, b, SequenceKey);
    ValuesSkip(c, sep, b, SymbolKey);
  }

  /** Feature `i` is green exactly when it rises above a nonzero altitude of
      feature `i - 1`, red exactly when it falls below one, and uncoloured
      otherwise (so the first feature never is); its coordinates read back as
      its longitude (group 4) then its latitude (group 3). */
  lemma BlocksFeatures(ms: seq<Sn01Match>)
    requires forall j :: 0 <= j < |ms| ==> WellFormed(ms[j]) && FieldsOk(ms[j].fields)
    ensures forall i :: 0 <= i < |ms| ==>
      var last, altm := if i == 0 then 0 else AltitudeMeters(ms[i - 1]), AltitudeMeters(ms[i]);
      Values(Blocks(ms)[i], ColourKey)
        == (if last != 0 && altm > last then [Rising] else if last != 0 && altm < last then [Falling] else [])
    ensures forall i :: 0 <= i < |ms| ==>
      |Blocks(ms)[i]| > 4 && ParseCoordinates(Blocks(ms)[i][4]) == Some((ms[i].fields[6], ms[i].fields[5]))
  {
    forall i | 0 <= i < |ms|
      ensures var last, altm := if i == 0 then 0 else AltitudeMeters(ms[i - 1]), AltitudeMeters(ms[i]);
        Values(Blocks(ms)[i], ColourKey)
          == (if last != 0 && altm > last then [Rising] else if last != 0 && altm < last then [Falling] else [])
      ensures |Blocks(ms)[i]| > 4 && ParseCoordinates(Blocks(ms)[i][4]) == Some((ms[i].fields[6], ms[i].fields[5]))
    {
      FeatureValues(ms[i], "", PreviousAltitude(ms, i), i);
      FeatureCoordinates(ms[i], "", PreviousAltitude(ms, i), i);
    }
  }

  /** Over a run, feature `i` carries group 0 of match `i` under `rawdata` and
      its altitudes under `altitudeMeters` and `altitudeFeet`. */
  lemma BlocksProperties(ms: seq<Sn01Match>)
    requires forall j :: 0 <= j < |ms| ==> WellFormed(ms[j])
    ensures forall i :: 0 <= i < |ms| ==>
      && Values(Blocks(ms)[i], RawdataKey) == [ms[i].rawdata + "\""]
      && Values(Blocks(ms)[i], AltitudeMetersKey) == [Show(AltitudeMeters(ms[i]))]
      && Values(Blocks(ms)[i], AltitudeFeetKey) == [Show(AltitudeFeet(AltitudeMeters(ms[i])))]
  {
    forall i | 0 <= i < |ms|
      ensures && Values(Blocks(ms)[i], RawdataKey) == [ms[i].rawdata + "\""]
        && Values(Blocks(ms)[i], AltitudeMetersKey) == [Show(AltitudeMeters(ms[i]))]
        && Values(Blocks(ms)[i], AltitudeFeetKey) == [Show(AltitudeFeet(AltitudeMeters(ms[i])))]
    {
      FeatureProperties(ms[i], "", PreviousAltitude(ms, i), i);
    }
  }

  lemma BlocksLong(ms: seq<Sn01Match>)
    requires forall j :: 0 <= j < |ms| ==> WellFormed(ms[j])
    ensures forall i :: 0 <= i < |ms| ==> LongLines(Blocks(ms)[i], 5) && StartsAndEndsWithContent(Blocks(ms)[i])
  {
    forall i | 0 <= i < |ms|
      ensures LongLines(Blocks(ms)[i], 5) && StartsAndEndsWithContent(Blocks(ms)[i])
    {
      FeatureLinesLong(ms[i], "", PreviousAltitude(ms, i), i);
    }
  }

  /** N features are joined by exactly N - 1 separator lines, none leading or trailing. */
  lemma BlocksSeparators(ms: seq<Sn01Match>)
    requires forall j :: 0 <= j < |ms| ==> WellFormed(ms[j])
    ensures CountOf(CommaSeparated(Blocks(ms)), Separator) == if ms == [] then 0 else |ms| - 1
    ensures ms != [] ==> StartsAndEndsWithContent(CommaSeparated(Blocks(ms)))
    ensures LongOrSeparator(CommaSeparated(Blocks(ms)), 5)
  {
    var bs := Blocks(ms);
    BlocksLong(ms);
    SeparatorCount(bs);
    NoLeadingOrTrailingSeparator(bs);
    CommaSeparatedLines(bs, 5);
  }

  /** A line yields a feature exactly when it matches; a line that does not
      match leaves the four counters and the output as they were. */
  lemma StepIgnoresNonMatching(s: State, line: string)
    ensures Step(s, line) == s <==> Match(line).None?
    ensures Match(line).Some? ==>
      var t, altm := Step(s, line), AltitudeMeters(Match(line).value);
      && t.lineCount == s.lineCount + 1 && t.sequence == s.sequence + 1
      && t.lastAltM == altm && t.maxAltM == (if altm > s.maxAltM then altm else s.maxAltM)
      && |t.output| > |s.output|
  {
  }

  /** After a run from the initial globals: `lineCount` and `sequence` count
      the matching lines; `lastAltM` is the altitude of the last match (0 with
      none); `maxAltM` is the largest of 0 and every matched altitude. */
  lemma RunCounters(lines: seq<string>)
    ensures var ms, s := Matches(lines), Run(Start, lines);
      && s.lineCount == |ms| && s.sequence == |ms|
      && s.lastAltM == (if ms == [] then 0 else AltitudeMeters(ms[|ms| - 1]))
      && (forall i :: 0 <= i < |ms| ==> AltitudeMeters(ms[i]) <= s.maxAltM)
      && (s.maxAltM == 0 || exists i :: 0 <= i < |ms| && AltitudeMeters(ms[i]) == s.maxAltM)
  {
    var ms, s := Matches(lines), Run(Start, lines);
    assert s == Run(Start.(output := []), lines) by {
      assert Start.(output := []) == Start;
    }
    RunFromStart([], lines);
    assert s.lastAltM == PreviousAltitude(ms, |ms|) && s.maxAltM == MaxAltitude(ms);
    MaxAltitudeIsMaximum(ms);
  }

  /** The output of a run from the initial globals: N features joined by N - 1
      separator lines, none leading or trailing, numbered 0 to N - 1 in order,
      with no marker-symbol, and feature `i` coloured and placed as
      BlocksFeatures says. */
  lemma RunOutput(lines: seq<string>)
    ensures var ms, out := Matches(lines), Run(Start, lines).output;
      && out == CommaSeparated(Blocks(ms))
      && CountOf(out, Separator) == (if ms == [] then 0 else |ms| - 1)
      && (ms != [] ==> StartsAndEndsWithContent(out))
      && Values(out, SequenceKey) == Numbers(|ms|)
      && Values(out, SymbolKey) == []
  {
    var ms := Matches(lines);
    assert Start.(output := []) == Start;
    RunFromStart([], lines);
    assert [] + CommaSeparated(Blocks(ms)) == CommaSeparated(Blocks(ms));
    BlocksValues(ms);
    BlocksSeparators(ms);
  }

  // ---------------------------------------------------------------------------
  // doFile
  // ---------------------------------------------------------------------------

  /** How doFile ends. */
  datatype Outcome = Finished | NameError(name: string)

  /** What doFile prints from the initial globals as written: the envelope and
      the features, but never the closing lines, so the document is never
      completed. */
  lemma AsWrittenNeverCloses(lines: seq<string>)
    ensures var out := Run(Start.(output := Envelope), lines).output;
      Closing[0] !in out && Closing[1] !in out
  {
    var ms := Matches(lines);
    RunFromStart(Envelope, lines);
    BodyIsNotClosing(ms);
    EnvelopeThenBody(CommaSeparated(Blocks(ms)));
  }

  lemma EnvelopeThenBody(body: seq<string>)
    requires Closing[0] !in body && Closing[1] !in body
    ensures Closing[0] !in Envelope + body && Closing[1] !in Envelope + body
  {
  }

  lemma BodyIsNotClosing(ms: seq<Sn01Match>)
    requires forall j :: 0 <= j < |ms| ==> WellFormed(ms[j])
    ensures Closing[0] !in CommaSeparated(Blocks(ms)) && Closing[1] !in CommaSeparated(Blocks(ms))
  {
    BlocksSeparators(ms);
  }

  /** The corrected doFile from the initial globals prints a whole
      FeatureCollection: the envelope, one feature per matching line joined by
      separators, and the closing lines; with no match, the envelope and the
      closing lines alone. */
  lemma DocumentShape(lines: seq<string>)
    ensures var ms := Matches(lines);
      && Closed(Run(Start.(output := Envelope), lines).output) == Envelope + CommaSeparated(Blocks(ms)) + Closing
      && (ms == [] ==> Closed(Run(Start.(output := Envelope), lines).output) == Envelope + Closing)
  {
    RunFromStart(Envelope, lines);
    assert CommaSeparated([]) == [];
  }

  // ---------------------------------------------------------------------------
  // The converter as the script runs it
  // ---------------------------------------------------------------------------

  /** The module globals and the printed lines. */
  class Transducer {
    var lineCount: nat
    var sequence: nat
    var lastAltM: nat
    var maxAltM: nat
    var output: seq<string>

    function Snapshot(): State
      reads this
    {
      State(lineCount, sequence, lastAltM, maxAltM, output)
    }

    /** The globals as the module initialises them. */
    constructor()
      ensures Snapshot() == Start
    {
      lineCount, sequence, lastAltM, maxAltM, output := 0, 0, 0, 0, [];
    }

    /** `print(line)` */
    method Emit(line: string)
      modifies this
      ensures Snapshot() == old(Snapshot()).(output := old(output) + [line])
    {
      output := output + [line];
    }

    /** geojsonize(result, markerSymbol): prints one feature and updates
        `sequence`, `maxAltM` and `lastAltM`. */
    method Geojsonize(m: Sn01Match, markerSymbol: string)
      requires WellFormed(m)
      modifies this
      ensures Snapshot() == Geojsonized(old(Snapshot()), m, markerSymbol)
    {
      if lineCount > 0 {
        Emit(Separator);
      }
      var altm := PrintFeature(m, markerSymbol);
      assert output == Geojsonized(old(Snapshot()), m, markerSymbol).output;
      if altm > maxAltM {
        maxAltM := altm;
      }
      lastAltM := altm;
    }

    /** The feature's lines after the separator; `sequence` is advanced once
        the sequence line is printed. Gives the altitude in metres. */
    method PrintFeature(m: Sn01Match, markerSymbol: string) returns (altm: nat)
      requires WellFormed(m)
      modifies this
      ensures altm == AltitudeMeters(m)
      ensures Snapshot() == old(Snapshot()).(sequence := old(sequence) + 1,
        output := old(output) + FeatureLines(m, markerSymbol, old(lastAltM), old(sequence)))
    {
      ghost var o0 := output;
      PrintHead(m.Longitude(), m.Latitude());
      ghost var o1 := output;
      altm := PrintProperties(m);
      ghost var o2 := output;
      if markerSymbol != "" {
        Emit(SymbolKey + Quoted(markerSymbol));
      }
      ghost var o3 := output;
      PrintColour(altm);
      ghost var o4 := output;
      Emit(SequenceKey + Show(sequence));
      sequence := sequence + 1;
      ghost var o5 := output;
      Emit(FeatureTail[0]);
      Emit(FeatureTail[1]);
      FeatureParts(o0, o1, o2, o3, o4, o5, output,
        FeatureHead(m.Longitude(), m.Latitude()), PropertyLines(m), SymbolLines(markerSymbol),
        ColourLines(old(lastAltM), altm), SequenceLines(old(sequence)), FeatureTail);
    }

    method PrintHead(longitude: string, latitude: string)
      modifies this
      ensures Snapshot() == old(Snapshot()).(output := old(output) + FeatureHead(longitude, latitude))
    {
      Emit("    {");
      Emit("      \"type\":\"Feature\",");
      Emit("      \"geometry\": {");
      Emit("        \"type\":\"Point\",");
      Emit(CoordinatesLine(longitude, latitude));
      Emit("      },");
    }

    /** Prints the properties opening, group 0 and both altitudes; gives the metres. */
    method PrintProperties(m: Sn01Match) returns (altm: nat)
      requires WellFormed(m)
      modifies this
      ensures altm == AltitudeMeters(m)
      ensures Snapshot() == old(Snapshot()).(output := old(output) + PropertyLines(m))
    {
      Emit("      \"properties\":");
      Emit(RawdataKey + m.rawdata + "\"");
      altm := AltitudeMeters(m);
      var altf := AltitudeFeet(altm);
      Emit(AltitudeMetersKey + Show(altm));
      Emit(AltitudeFeetKey + Show(altf));
    }

    /** The rising/falling colour against `lastAltM`. */
    method PrintColour(altm: nat)
      modifies this
      ensures Snapshot() == old(Snapshot()).(output := old(output) + ColourLines(lastAltM, altm))
    {
      if lastAltM != 0 {
        if altm > lastAltM {
          Emit(ColourKey + Rising);
        } else if altm < lastAltM {
          Emit(ColourKey + Falling);
        }
      }
    }

    /** doLine(n, line): `n` is not used. */
    method DoLine(n: nat, line: string)
      modifies this
      ensures Snapshot() == Step(old(Snapshot()), line)
    {
      var result := Match(line);
      if result.Some? {
        Geojsonize(result.value, "");
        lineCount := lineCount + 1;
      }
    }

    /** The file loop: every line, stripped, through doLine in order. */
    method ProcessLines(lines: seq<string>)
      modifies this
      ensures Snapshot() == Run(old(Snapshot()), Stripped(lines))
    {
      var n := 0;
      while n < |lines|
        invariant 0 <= n <= |lines|
        invariant Snapshot() == Run(old(Snapshot()), Stripped(lines)[..n])
      {
        StrippedPrefix(lines, n);
        DoNextLine(old(Snapshot()), Stripped(lines)[..n], n, RStrip(lines[n]));
        n := n + 1;
      }
      StrippedWhole(lines);
    }

    /** One more turn of the file loop: `doLine` on the next line. */
    method DoNextLine(ghost start: State, ghost done: seq<string>, n: nat, line: string)
      requires Snapshot() == Run(start, done)
      modifies this
      ensures Snapshot() == Run(start, done + [line])
    {
      DoLine(n, line);
      RunSnoc(start, done, line);
    }

    /** doFile as written: the envelope and the features are printed, then the
        call of the undefined `addNotable` raises NameError before the closing
        lines. */
    method DoFileAsWritten(lines: seq<string>) returns (outcome: Outcome)
      modifies this
      ensures outcome == NameError("addNotable")
      ensures Snapshot() == Run(old(Snapshot()).(output := old(output) + Envelope), Stripped(lines))
    {
      PrintEnvelope();
      ProcessLines(lines);
      outcome := NameError("addNotable");
    }

    /** doFile without the undefined call: the envelope, the features and the closing lines. */
    method DoFile(lines: seq<string>)
      modifies this
      ensures var r := Run(old(Snapshot()).(output := old(output) + Envelope), Stripped(lines));
        Snapshot() == r.(output := Closed(r.output))
    {
      PrintEnvelope();
      ProcessLines(lines);
      Emit(Closing[0]);
      Emit(Closing[1]);
      assert output == old(Run(Snapshot().(output := output + Envelope), Stripped(lines))).output + Closing;
    }

    method PrintEnvelope()
      modifies this
      ensures Snapshot() == old(Snapshot()).(output := old(output) + Envelope)
    {
      Emit(Envelope[0]);
      Emit(Envelope[1]);
      Emit(Envelope[2]);
    }
  }

  lemma FeatureParts(o0: seq<string>, o1: seq<string>, o2: seq<string>, o3: seq<string>, o4: seq<string>,
                     o5: seq<string>, o6: seq<string>, a: seq<string>,
                     b: seq<string>, c: seq<string>, d: seq<string>, e: seq<string>, f: seq<string>)
    requires o1 == o0 + a && o2 == o1 + b && o3 == o2 + c
    requires o4 == o3 + d && o5 == o4 + e && o6 == o5 + f
    ensures o6 == o0 + (a + b + c + d + e + f)
  {
  }
}
