/** The GeoJSON text both converters print line by line: the FeatureCollection
    envelope (RFC 7946, section 3.3), the Point geometry of a feature (section
    3.1.2) and the comma lines that separate features. Printed output is a
    sequence of lines, one per `print` call. */
module GeoJson {
  import opened Text

  /** Printed before the first feature. */
  const Envelope: seq<string> := ["{", "  \"type\":\"FeatureCollection\",", "  \"features\":["]

  /** Printed after the last feature. */
  const Closing: seq<string> := ["  ]", "}"]

  /** The document completed by the closing lines. */
  function Closed(output: seq<string>): (doc: seq<string>) {
    output + Closing
  }

  /** The separator line printed before every feature but the first. */
  const Separator: string := ","

  const CoordinatesKey: string := "        \"coordinates\":["

  /** `'        "coordinates":[%s,%s]' % (longitude, latitude)` */
  function CoordinatesLine(longitude: string, latitude: string): (line: string) {
    CoordinatesKey + longitude + "," + latitude + "]"
  }

  /** The lines both converters print for a feature before its properties. */
  function FeatureHead(longitude: string, latitude: string): (lines: seq<string>) {
    [ "    {",
      "      \"type\":\"Feature\",",
      "      \"geometry\": {",
      "        \"type\":\"Point\",",
      CoordinatesLine(longitude, latitude),
      "      },"
    ]
  }

  /** Reads the two members of a printed coordinates array back: the text
      before the first comma and the text after it. */
  function ParseCoordinates(line: string): (r: Option<(string, string)>)
    ensures r.Some? ==> CoordinatesLine(r.value.0, r.value.1) == line && ',' !in r.value.0
  {
    if HasPrefix(line, CoordinatesKey) && |line| > |CoordinatesKey| && line[|line| - 1] == ']' then
      var body := line[|CoordinatesKey|..|line| - 1];
      var c := IndexOf(body, ',', 0);
      if c < |body| then
        assert ',' !in body[..c] by {
          forall k | 0 <= k < c ensures body[..c][k] != ',' {
            assert body[..c][k] == body[k];
          }
        }
        assert line == line[..|CoordinatesKey|] + body[..c] + "," + body[c + 1..] + "]";
        Some((body[..c], body[c + 1..]))
      else None
    else None
  }

  /** The first coordinate printed is the first argument, provided it has no comma. */
  lemma ParseCoordinatesRoundTrip(longitude: string, latitude: string)
    requires ',' !in longitude
    ensures ParseCoordinates(CoordinatesLine(longitude, latitude)) == Some((longitude, latitude))
  {
    var line := CoordinatesLine(longitude, latitude);
    var n := |CoordinatesKey|;
    assert line[..n] == CoordinatesKey;
    var body := line[n..|line| - 1];
    assert body == longitude + "," + latitude;
    forall k | 0 <= k < |longitude| ensures body[k] != ',' {
      assert body[k] == longitude[k];
    }
    IndexOfIsFirst(body, ',', 0, |longitude|);
    assert body[..|longitude|] == longitude;
    assert body[|longitude| + 1..] == latitude;
  }

  /** The blocks in order, with a separator line before every block but the first. */
  function CommaSeparated(blocks: seq<seq<string>>): (joined: seq<string>)
    decreases |blocks|
  {
    if blocks == [] then []
    else
      var init := blocks[..|blocks| - 1];
      CommaSeparated(init) + (if init == [] then [] else [Separator]) + blocks[|blocks| - 1]
  }

  lemma CommaSeparatedSnoc(blocks: seq<seq<string>>, b: seq<string>)
    ensures CommaSeparated(blocks + [b]) == CommaSeparated(blocks) + (if blocks == [] then [] else [Separator]) + b
  {
    assert (blocks + [b])[..|blocks|] == blocks;
  }

  /** Number of lines equal to `x`. */
  function CountOf(lines: seq<string>, x: string): (count: nat)
  {
    if lines == [] then 0 else (if lines[0] == x then 1 else 0) + CountOf(lines[1..], x)
  }

  lemma {:induction false} CountOfAppend(a: seq<string>, b: seq<string>, x: string)
    ensures CountOf(a + b, x) == CountOf(a, x) + CountOf(b, x)
    decreases |a|
  {
    if a == [] {
      assert a + b == b;
    } else {
      assert (a + b)[0] == a[0];
      assert (a + b)[1..] == a[1..] + b;
      CountOfAppend(a[1..], b, x);
    }
  }

  lemma {:induction false} CountOfAbsent(a: seq<string>, x: string)
    requires x !in a
    ensures CountOf(a, x) == 0
    decreases |a|
  {
    if a != [] {
      assert x !in a[1..] by {
        forall k | 0 <= k < |a[1..]| ensures a[1..][k] != x {
          assert a[1..][k] == a[k + 1];
        }
      }
      CountOfAbsent(a[1..], x);
    }
  }

  /** N blocks that print no separator line of their own are joined by exactly N - 1 separators. */
  lemma {:induction false} SeparatorCount(blocks: seq<seq<string>>)
    requires forall i :: 0 <= i < |blocks| ==> Separator !in blocks[i]
    ensures CountOf(CommaSeparated(blocks), Separator) == if blocks == [] then 0 else |blocks| - 1
    decreases |blocks|
  {
    if blocks != [] {
      var init, last := blocks[..|blocks| - 1], blocks[|blocks| - 1];
      assert blocks == init + [last];
      CommaSeparatedSnoc(init, last);
      SeparatorCount(init);
      var sep := if init == [] then [] else [Separator];
      CountOfAppend(CommaSeparated(init) + sep, last, Separator);
      CountOfAppend(CommaSeparated(init), sep, Separator);
      CountOfAbsent(last, Separator);
    }
  }

  /** No separator leads or trails when every block starts and ends with a non-separator line. */
  lemma {:induction false} NoLeadingOrTrailingSeparator(blocks: seq<seq<string>>)
    requires forall i :: 0 <= i < |blocks| ==> StartsAndEndsWithContent(blocks[i])
    ensures blocks != [] ==> StartsAndEndsWithContent(CommaSeparated(blocks))
    decreases |blocks|
  {
    if blocks != [] {
      var init, last := blocks[..|blocks| - 1], blocks[|blocks| - 1];
      assert blocks == init + [last];
      CommaSeparatedSnoc(init, last);
      if init != [] {
        assert forall i :: 0 <= i < |init| ==> init[i] == blocks[i];
        NoLeadingOrTrailingSeparator(init);
        var out := CommaSeparated(init);
        assert CommaSeparated(blocks) == out + [Separator] + last;
      }
    }
  }

  predicate StartsAndEndsWithContent(lines: seq<string>) {
    |lines| > 0 && lines[0] != Separator && lines[|lines| - 1] != Separator
  }

  /** What is printed under `key`: the rest of every line that starts with `key`, in order. */
  function Values(lines: seq<string>, key: string): (values: seq<string>)
  {
    if lines == [] then []
    else (if HasPrefix(lines[0], key) then [lines[0][|key|..]] else []) + Values(lines[1..], key)
  }

  lemma {:induction false} ValuesAppend(a: seq<string>, b: seq<string>, key: string)
    ensures Values(a + b, key) == Values(a, key) + Values(b, key)
    decreases |a|
  {
    if a == [] {
      assert a + b == b;
    } else {
      var head := if HasPrefix(a[0], key) then [a[0][|key|..]] else [];
      assert (a + b)[0] == a[0];
      assert (a + b)[1..] == a[1..] + b;
      assert Values(a + b, key) == head + Values(a[1..] + b, key);
      ValuesAppend(a[1..], b, key);
      assert Values(a, key) == head + Values(a[1..], key);
    }
  }

  /** Lines that all differ from `key` at its position `k` carry no value under `key`. */
  lemma {:induction false} ValuesMiss(lines: seq<string>, key: string, k: nat)
    requires k < |key|
    requires forall x :: x in lines ==> |x| <= k || x[k] != key[k]
    ensures Values(lines, key) == []
    decreases |lines|
  {
    if lines != [] {
      assert lines[0] in lines;
      assert !HasPrefix(lines[0], key) by {
        if |key| <= |lines[0]| {
          assert lines[0][..|key|][k] == lines[0][k];
        }
      }
      assert forall x :: x in lines[1..] ==> x in lines;
      ValuesMiss(lines[1..], key, k);
    }
  }

  /** A line printed as `key` followed by `v` carries `v` under `key`. */
  lemma ValuesKeyed(key: string, v: string)
    ensures Values([key + v], key) == [v]
  {
    var line := key + v;
    assert line[..|key|] == key;
    assert line[|key|..] == v;
    var lines: seq<string> := [line];
    assert lines[1..] == [];
  }

  /** A line printed under `key` carries nothing under a key that differs from it at `k`. */
  lemma KeyedMisses(key: string, v: string, other: string, k: nat)
    requires k < |key| && k < |other| && key[k] != other[k]
    ensures Values([key + v], other) == []
  {
    var x := key + v;
    assert x[k] == key[k];
    ValuesMiss([x], other, k);
  }

  /** Every line is at least `n` characters long. */
  predicate LongLines(lines: seq<string>, n: nat) {
    forall x :: x in lines ==> |x| >= n
  }

  lemma LongLinesAppend(a: seq<string>, b: seq<string>, n: nat)
    requires LongLines(a, n) && LongLines(b, n)
    ensures LongLines(a + b, n)
  {
    forall x | x in a + b ensures |x| >= n {
      assert x in a || x in b;
    }
  }

  /** Helper for the feature-length lemmas: the six head lines are long. */
  lemma HeadLong(longitude: string, latitude: string)
    ensures LongLines(FeatureHead(longitude, latitude), 5)
  {
  }

  /** Every line is the separator or at least `n` characters long. */
  predicate LongOrSeparator(lines: seq<string>, n: nat) {
    forall x :: x in lines ==> x == Separator || |x| >= n
  }

  lemma LongOrSeparatorAppend(a: seq<string>, b: seq<string>, n: nat)
    requires LongOrSeparator(a, n) && LongOrSeparator(b, n)
    ensures LongOrSeparator(a + b, n)
  {
    forall x | x in a + b ensures x == Separator || |x| >= n {
      assert x in a || x in b;
    }
  }

  /** Joining blocks adds no line but the separator. */
  lemma {:induction false} CommaSeparatedLines(blocks: seq<seq<string>>, n: nat)
    requires forall i :: 0 <= i < |blocks| ==> LongLines(blocks[i], n)
    ensures LongOrSeparator(CommaSeparated(blocks), n)
    decreases |blocks|
  {
    if blocks != [] {
      var init, last := blocks[..|blocks| - 1], blocks[|blocks| - 1];
      assert forall i :: 0 <= i < |init| ==> init[i] == blocks[i];
      CommaSeparatedLines(init, n);
      assert blocks == init + [last];
      CommaSeparatedSnoc(init, last);
      var sep: seq<string> := if init == [] then [] else [Separator];
      assert LongOrSeparator(sep, n);
      assert LongOrSeparator(last, n) by {
        assert LongLines(blocks[|blocks| - 1], n);
      }
      LongOrSeparatorAppend(CommaSeparated(init), sep, n);
      LongOrSeparatorAppend(CommaSeparated(init) + sep, last, n);
    }
  }

  /** A separator line, or none, between two runs of lines adds no value. */
  lemma ValuesSkip(c: seq<string>, sep: seq<string>, b: seq<string>, key: string)
    requires Values(sep, key) == []
    ensures Values(c + sep + b, key) == Values(c, key) + Values(b, key)
  {
    ValuesAppend(c + sep, b, key);
    ValuesAppend(c, sep, key);
  }

  lemma SeparatorCarriesNothing(sep: seq<string>, key: string)
    requires sep == [] || sep == [Separator]
    requires |key| > 1
    ensures Values(sep, key) == []
  {
    if sep != [] {
      ValuesMiss(sep, key, 1);
    }
  }
}
