/** Character classes, field scanning and decimal formatting shared by both
    log formats. Strings are `seq<char>`; a "digit" is an ASCII digit. */
module Text {

  datatype Option<+T> = None | Some(value: T)

  predicate IsDigit(c: char) {
    '0' <= c <= '9'
  }

  /** Every character of `s[lo..hi]` is a digit (and `hi` is inside `s`). */
  predicate DigitsIn(s: string, lo: nat, hi: nat) {
    hi <= |s| && forall k :: lo <= k < hi ==> IsDigit(s[k])
  }

  /** `s` is matched entirely by the regular expression `\d+`. */
  predicate Digits(s: string) {
    |s| > 0 && DigitsIn(s, 0, |s|)
  }

  /** `\d+\.\d+`, or also a plain `\d+` when the fraction is optional (`\d+(\.\d+)?`). */
  predicate UnsignedDecimal(s: string, fractionRequired: bool) {
    (!fractionRequired && Digits(s))
    || exists k :: 0 < k < |s| - 1 && s[k] == '.' && DigitsIn(s, 0, k) && DigitsIn(s, k + 1, |s|)
  }

  /** `[-+]?` followed by an unsigned decimal. */
  predicate SignedDecimal(s: string, fractionRequired: bool) {
    UnsignedDecimal(s, fractionRequired)
    || (|s| > 0 && (s[0] == '+' || s[0] == '-') && UnsignedDecimal(s[1..], fractionRequired))
  }

  /** `\d+(\.\d)?`: digits with at most one fractional digit. */
  predicate OneDecimalPlace(s: string) {
    Digits(s) || (|s| >= 3 && s[|s| - 2] == '.' && DigitsIn(s, 0, |s| - 2) && IsDigit(s[|s| - 1]))
  }

  /** `\d{4}-\d{2}-\d{2}` */
  predicate IsDate(s: string) {
    |s| == 10 && DigitsIn(s, 0, 4) && s[4] == '-' && DigitsIn(s, 5, 7) && s[7] == '-' && DigitsIn(s, 8, 10)
  }

  /** `\d{2}:\d{2}:\d{2}` */
  predicate IsClock(s: string) {
    |s| == 8 && DigitsIn(s, 0, 2) && s[2] == ':' && DigitsIn(s, 3, 5) && s[5] == ':' && DigitsIn(s, 6, 8)
  }

  /** The characters any field of either record layout is made of. */
  predicate FieldChars(s: string) {
    forall k :: 0 <= k < |s| ==> IsDigit(s[k]) || s[k] == '.' || s[k] == '+' || s[k] == '-' || s[k] == ':'
  }

  lemma DecimalFieldChars(s: string, fractionRequired: bool)
    requires SignedDecimal(s, fractionRequired) || OneDecimalPlace(s)
    ensures FieldChars(s)
  {
    if UnsignedDecimal(s, fractionRequired) {
      UnsignedFieldChars(s, fractionRequired);
    } else if OneDecimalPlace(s) {
    } else {
      UnsignedFieldChars(s[1..], fractionRequired);
      assert forall k :: 1 <= k < |s| ==> s[k] == s[1..][k - 1];
    }
  }

  lemma UnsignedFieldChars(s: string, fractionRequired: bool)
    requires UnsignedDecimal(s, fractionRequired)
    ensures FieldChars(s)
  {
    if !(!fractionRequired && Digits(s)) {
      var k :| 0 < k < |s| - 1 && s[k] == '.' && DigitsIn(s, 0, k) && DigitsIn(s, k + 1, |s|);
    }
  }

  /** Fields made of field characters contain no comma, no newline and no `$`. */
  lemma FieldCharsExclude(s: string)
    requires FieldChars(s)
    ensures ',' !in s && '\n' !in s && '$' !in s
  {
    assert forall k :: 0 <= k < |s| ==> s[k] != ',' && s[k] != '\n' && s[k] != '$';
  }

  /** Index of the first `c` at or after `i`, or `|s|` when there is none. */
  function IndexOf(s: string, c: char, i: nat): (j: nat)
    requires i <= |s|
    ensures i <= j <= |s|
    ensures forall k :: i <= k < j ==> s[k] != c
    ensures j < |s| ==> s[j] == c
    decreases |s| - i
  {
    if i == |s| || s[i] == c then i else IndexOf(s, c, i + 1)
  }

  lemma IndexOfIsFirst(s: string, c: char, i: nat, j: nat)
    requires i <= j <= |s|
    requires forall k :: i <= k < j ==> s[k] != c
    requires j == |s| || s[j] == c
    ensures IndexOf(s, c, i) == j
  {
  }

  /** End of the longest run of digits starting at `i`: what a greedy `\d+` or `\d*` consumes. */
  function DigitRunEnd(s: string, i: nat): (j: nat)
    requires i <= |s|
    ensures i <= j <= |s| && DigitsIn(s, i, j)
    ensures j < |s| ==> !IsDigit(s[j])
    decreases |s| - i
  {
    if i == |s| || !IsDigit(s[i]) then i else DigitRunEnd(s, i + 1)
  }

  /** A greedy digit run stops exactly where the digits stop. */
  lemma {:induction false} DigitRunEndIsLongest(s: string, i: nat, j: nat)
    requires i <= j <= |s| && DigitsIn(s, i, j)
    requires j == |s| || !IsDigit(s[j])
    ensures DigitRunEnd(s, i) == j
    decreases j - i
  {
    if i < j {
      DigitRunEndIsLongest(s, i + 1, j);
    }
  }

  /** `.` in a regular expression matches any character but a newline, so `.*`
      can stretch over `s[..p]` exactly when `p` is at most the first newline. */
  lemma NoNewlineBefore(s: string, p: nat)
    requires p <= |s|
    ensures '\n' !in s[..p] <==> p <= IndexOf(s, '\n', 0)
  {
    var limit := IndexOf(s, '\n', 0);
    if p <= limit {
      forall k | 0 <= k < p ensures s[..p][k] != '\n' {
        assert s[..p][k] == s[k];
      }
    } else {
      assert s[..p][limit] == '\n';
    }
  }

  /** The fields, each followed by a comma: `f0,f1,...,fk,`. */
  function Terminated(fields: seq<string>): string
  {
    if fields == [] then "" else fields[0] + "," + Terminated(fields[1..])
  }

  /** A character other than the comma that no field holds is not in the fields written out. */
  lemma {:induction false} TerminatedExcludes(fields: seq<string>, c: char)
    requires c != ',' && forall i :: 0 <= i < |fields| ==> c !in fields[i]
    ensures c !in Terminated(fields)
    decreases |fields|
  {
    if fields != [] {
      assert c !in fields[0];
      TerminatedExcludes(fields[1..], c);
      assert Terminated(fields) == fields[0] + "," + Terminated(fields[1..]);
    }
  }

  predicate NoCommas(fields: seq<string>) {
    forall i :: 0 <= i < |fields| ==> ',' !in fields[i]
  }

  /** Reads `count` comma-terminated fields of `s` starting at `i`; gives them
      and the position just after the last comma. */
  function ScanFields(s: string, i: nat, count: nat): (r: Option<(seq<string>, nat)>)
    requires i <= |s|
    decreases count
  {
    if count == 0 then Some(([], i))
    else
      var c := IndexOf(s, ',', i);
      if c == |s| then None
      else
        match ScanFields(s, c + 1, count - 1)
        case None => None
        case Some((rest, end)) => Some(([s[i..c]] + rest, end))
  }

  /** The fields read are `count` comma-free fields that, each followed by its
      comma, are exactly the text between `i` and the position returned. */
  lemma {:induction false} ScanFieldsSound(s: string, i: nat, count: nat)
    requires i <= |s|
    ensures var r := ScanFields(s, i, count);
      r.Some? ==> var (fields, end) := r.value;
      |fields| == count && NoCommas(fields) && i <= end <= |s| && s[i..end] == Terminated(fields)
    decreases count
  {
    if count > 0 {
      var c := IndexOf(s, ',', i);
      if c < |s| {
        ScanFieldsSound(s, c + 1, count - 1);
        var r := ScanFields(s, c + 1, count - 1);
        if r.Some? {
          FieldThenRest(s, i, c, r.value.0, r.value.1);
        }
      }
    }
  }

  /** The text up to the first comma, then comma-free fields read after it. */
  lemma FieldThenRest(s: string, i: nat, c: nat, rest: seq<string>, end: nat)
    requires i <= c < |s| && c == IndexOf(s, ',', i)
    requires NoCommas(rest) && c + 1 <= end <= |s| && s[c + 1..end] == Terminated(rest)
    ensures NoCommas([s[i..c]] + rest) && s[i..end] == Terminated([s[i..c]] + rest)
  {
    var fields := [s[i..c]] + rest;
    assert ',' !in s[i..c] by {
      forall k | 0 <= k < c - i ensures s[i..c][k] != ',' {
        assert s[i..c][k] == s[i + k];
      }
    }
    assert fields[0] == s[i..c] && fields[1..] == rest;
    assert s[i..end] == s[i..c] + "," + s[c + 1..end];
    forall j | 0 <= j < |fields| ensures ',' !in fields[j] {
      if j > 0 {
        assert fields[j] == rest[j - 1];
      }
    }
  }

  /** Conversely, comma-free fields at `i` are exactly what ScanFields reads there. */
  lemma {:induction false} ScanFieldsComplete(s: string, i: nat, fields: seq<string>)
    requires NoCommas(fields)
    requires i + |Terminated(fields)| <= |s| && s[i..i + |Terminated(fields)|] == Terminated(fields)
    ensures ScanFields(s, i, |fields|) == Some((fields, i + |Terminated(fields)|))
    decreases |fields|
  {
    if fields != [] {
      var f, rest := fields[0], fields[1..];
      var t := Terminated(rest);
      var w := Terminated(fields);
      FieldsCons(fields);
      FirstField(s, i, w, f, t);
      var c := i + |f|;
      assert c + 1 + |t| == i + |w|;
      ScanFieldsComplete(s, c + 1, rest);
      assert |fields| - 1 == |rest|;
      ScanFieldsCons(s, i, |fields|, c, rest, c + 1 + |t|);
      assert [s[i..c]] + rest == fields;
    } else {
      assert Terminated(fields) == "";
    }
  }

  /** The first field, the rest, and the text they print as. */
  lemma FieldsCons(fields: seq<string>)
    requires NoCommas(fields) && fields != []
    ensures fields == [fields[0]] + fields[1..]
    ensures ',' !in fields[0] && NoCommas(fields[1..])
    ensures Terminated(fields) == fields[0] + "," + Terminated(fields[1..])
    ensures |Terminated(fields)| == |fields[0]| + 1 + |Terminated(fields[1..])|
  {
    var rest := fields[1..];
    forall j | 0 <= j < |rest| ensures ',' !in rest[j] {
      assert rest[j] == fields[j + 1];
    }
  }

  /** One field, then the rest as read from just after its comma. */
  lemma ScanFieldsCons(s: string, i: nat, count: nat, c: nat, rest: seq<string>, end: nat)
    requires 0 < count && i <= c < |s| && IndexOf(s, ',', i) == c
    requires ScanFields(s, c + 1, count - 1) == Some((rest, end))
    ensures ScanFields(s, i, count) == Some(([s[i..c]] + rest, end))
  {
  }

  /** A comma-free field followed by a comma at `i` ends at the first comma. */
  lemma FirstField(s: string, i: nat, w: string, f: string, t: string)
    requires ',' !in f && w == f + "," + t
    requires i + |w| <= |s| && s[i..i + |w|] == w
    ensures IndexOf(s, ',', i) == i + |f|
    ensures s[i..i + |f|] == f && s[i + |f| + 1..i + |w|] == t
  {
    var c := i + |f|;
    forall k | i <= k < c ensures s[k] != ',' {
      assert s[k] == w[k - i];
      assert w[k - i] == f[k - i];
      assert f[k - i] in f;
    }
    assert s[c] == w[|f|] == ',';
    IndexOfIsFirst(s, ',', i, c);
    assert s[i..c] == w[..|f|] == f;
    assert s[c + 1..i + |w|] == w[|f| + 1..] == t;
  }

  function DigitChar(d: nat): (c: char)
    requires d < 10
    ensures IsDigit(c)
  {
    (48 + d) as char
  }

  function DigitValue(c: char): nat
    requires IsDigit(c)
  {
    (c as int) - 48
  }

  /** Decimal rendering of `n` as Python's `'%d' % n` prints it: digits, no leading zero. */
  function Show(n: nat): (s: string)
    ensures Digits(s)
    ensures s[0] == '0' ==> n == 0
    decreases n
  {
    if n < 10 then [DigitChar(n)] else Show(n / 10) + [DigitChar(n % 10)]
  }

  lemma FieldCharsOfDigits(s: string)
    requires Digits(s) || IsDate(s) || IsClock(s)
    ensures FieldChars(s)
  {
  }

  /** Python's `int(s)` on a string of digits (leading zeros allowed). */
  function DigitsValue(s: string): nat
    requires DigitsIn(s, 0, |s|)
  {
    if s == [] then 0 else 10 * DigitsValue(s[..|s| - 1]) + DigitValue(s[|s| - 1])
  }

  /** `int('%d' % n) == n`. */
  lemma {:induction false} ShowRoundTrip(n: nat)
    ensures DigitsValue(Show(n)) == n
    decreases n
  {
    if n >= 10 {
      ShowRoundTrip(n / 10);
      var s := Show(n);
      assert s[..|s| - 1] == Show(n / 10);
    }
  }

  /** `'%d'` is injective, so distinct numbers print differently. */
  lemma ShowInjective(m: nat, n: nat)
    requires Show(m) == Show(n)
    ensures m == n
  {
    ShowRoundTrip(m);
    ShowRoundTrip(n);
  }

  /** `s` starts with `p`. */
  predicate HasPrefix(s: string, p: string) {
    |p| <= |s| && s[..|p|] == p
  }

  /** The ASCII characters Python's `str.isspace` accepts. */
  predicate IsSpace(c: char) {
    c == ' ' || 9 <= c as int <= 13 || 28 <= c as int <= 31
  }

  /** `s.rstrip()`: `s` without its trailing whitespace. */
  function RStrip(s: string): (r: string)
    ensures |r| <= |s| && r == s[..|r|]
    ensures r == [] || !IsSpace(r[|r| - 1])
    ensures forall k :: |r| <= k < |s| ==> IsSpace(s[k])
    decreases |s|
  {
    if s == [] || !IsSpace(s[|s| - 1]) then s else RStrip(s[..|s| - 1])
  }

  /** A line read from a file ends at its first newline, which rstrip removes. */
  lemma RStripRemovesLineEnd(s: string)
    requires '\n' !in s || IndexOf(s, '\n', 0) == |s| - 1
    ensures '\n' !in RStrip(s)
  {
    var r := RStrip(s);
    forall k | 0 <= k < |r| ensures r[k] != '\n' {
      assert r[k] == s[k];
      assert k < |s| - 1 || k == |r| - 1;
    }
  }

  /** Helpers that regroup concatenations for the callers' asserts. */
  lemma AppendAssoc3<T>(a: seq<T>, b: seq<T>, c: seq<T>)
    ensures a + b + c == a + (b + c)
  {
  }

  lemma AppendAssoc<T>(a: seq<T>, b: seq<T>, c: seq<T>, d: seq<T>)
    ensures a + b + c + d == a + (b + c + d)
  {
  }

  /** Each line as a file loop hands it on after `lineX.rstrip()`. */
  function Stripped(lines: seq<string>): seq<string> {
    seq(|lines|, i requires 0 <= i < |lines| => RStrip(lines[i]))
  }

  /** The first `n + 1` stripped lines are the first `n` and the next one, stripped. */
  lemma StrippedPrefix(lines: seq<string>, n: nat)
    requires n < |lines|
    ensures Stripped(lines)[..n + 1] == Stripped(lines)[..n] + [RStrip(lines[n])]
  {
  }

  lemma StrippedWhole(lines: seq<string>)
    ensures Stripped(lines)[..|lines|] == Stripped(lines)
  {
  }

  /** Lines read from a file carry a newline only at their end, so once
      stripped they carry none. */
  lemma StrippedFileLines(lines: seq<string>)
    requires forall j :: 0 <= j < |lines| ==> '\n' !in lines[j] || IndexOf(lines[j], '\n', 0) == |lines[j]| - 1
    ensures forall j :: 0 <= j < |lines| ==> '\n' !in Stripped(lines)[j]
  {
    forall j | 0 <= j < |lines| ensures '\n' !in Stripped(lines)[j] {
      RStripRemovesLineEnd(lines[j]);
    }
  }
}
