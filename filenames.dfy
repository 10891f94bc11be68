/** The file-name conventions of the provenance step. An acquired spectrum is named
    `<role>_..._<sequence>.txt`; once matched to the scan plan its last `_`-segment is
    replaced by the comma-joined angles, `<role>_..._<a>,<b>.txt`. This module holds the
    tests and the rewriting on names: the extension strip and tag test of
    `exclude_files`, the sequence-number key, the new name, and `_parse_filename`
    with its angle pattern `-?\d+(?:\.\d+)?,-?\d+(?:\.\d+)?`.

    Regular-expression classes are taken over ASCII: `\w` is a letter, a digit or `_`, and
    `\d` a decimal digit; `str.lower` folds ASCII letters only. */
module FileNames {
  import opened Text

  // ---------------------------------------------------------------- extension and tag

  /** `\w` */
  predicate IsWord(c: char) {
    'a' <= c <= 'z' || 'A' <= c <= 'Z' || IsDigit(c) || c == '_'
  }

  /** What `\.\w{3}` matches. */
  predicate IsExtension(t: string) {
    |t| == 4 && t[0] == '.' && IsWord(t[1]) && IsWord(t[2]) && IsWord(t[3])
  }

  /** `re.sub(r'\.\w{3}$', '', name)`: `$` matches at the end or before a final newline,
      and at most one of the two can hold a match. */
  function StripExtension(name: string): string {
    var n := |name|;
    if n >= 4 && IsExtension(name[n - 4..]) then name[..n - 4]
    else if n >= 5 && name[n - 1] == '\n' && IsExtension(name[n - 5..n - 1]) then name[..n - 5] + "\n"
    else name
  }

  /** `basename.split('_')[-1]`: the last `_`-segment once the extension is gone. */
  function EndSegment(name: string): string {
    Last(Split(StripExtension(name), '_'))
  }

  /** The test of `exclude_files`: the end segment splits at commas into two or more
      pieces, i.e. the name already carries its angles. */
  predicate Tagged(name: string) {
    |Split(EndSegment(name), ',')| > 1
  }

  lemma SplitSingleIff(s: string, sep: char)
    ensures |Split(s, sep)| == 1 <==> sep !in s
  {
    if sep in s {
      var i := IndexOf(s, sep);
      assert Split(s, sep) == [s[..i]] + Split(s[i + 1..], sep);
    }
  }

  /** A name is tagged exactly when its end segment holds a comma. */
  lemma TaggedIffComma(name: string)
    ensures Tagged(name) <==> ',' in EndSegment(name)
  {
    SplitSingleIff(EndSegment(name), ',');
  }

  // ---------------------------------------------------------------- sequence numbers

  /** Why a sort key could not be computed: too few `_`-segments (IndexError) or a
      segment that is not an integer (ValueError). */
  datatype KeyError = MissingSegment | NotAnInteger

  datatype Key = Key(n: int) | NoKey(error: KeyError)

  /** `int(name.split('_')[seg].split('.')[0])` */
  function SequenceKey(name: string, seg: nat): Key {
    var parts := Split(name, '_');
    if |parts| <= seg then NoKey(MissingSegment)
    else
      var n := ParseInt(Split(parts[seg], '.')[0]);
      if n.None? then NoKey(NotAnInteger) else Key(n.value)
  }

  /** A name built as `<segments>_<number>.<ext>`, with `seg` segments before the number,
      has that number as its key. */
  lemma SequenceKeyOf(segments: seq<string>, n: nat, ext: string)
    requires |segments| >= 1 && forall k :: 0 <= k < |segments| ==> '_' !in segments[k]
    requires '_' !in ext
    ensures SequenceKey(Join(segments + [Digits(n) + "." + ext], '_'), |segments|) == Key(n)
  {
    var last := Digits(n) + "." + ext;
    var parts := segments + [last];
    assert forall k :: 0 <= k < |Digits(n)| ==> Digits(n)[k] != '_' by {
      assert forall k :: 0 <= k < |Digits(n)| ==> IsDigit(Digits(n)[k]);
    }
    assert '_' !in last by {
      assert forall k :: 0 <= k < |last| ==> last[k] != '_' by {
        forall k | 0 <= k < |last| ensures last[k] != '_' {
          if k < |Digits(n)| {
            assert last[k] == Digits(n)[k];
          } else if k > |Digits(n)| {
            assert last[k] == ext[k - |Digits(n)| - 1];
          }
        }
      }
    }
    assert forall k :: 0 <= k < |parts| ==> '_' !in parts[k];
    SplitJoin(parts, '_');
    var d := Digits(n);
    assert last == d + "." + ext;
    assert forall k :: 0 <= k < |d| ==> d[k] != '.' by {
      assert forall k :: 0 <= k < |d| ==> IsDigit(d[k]);
    }
    DigitsThenDot(d, ext);
    ParseFormatInt(n);
  }

  lemma DigitsThenDot(d: string, ext: string)
    requires '.' !in d
    ensures Split(d + "." + ext, '.')[0] == d
  {
    var s := d + "." + ext;
    IndexOfAt(s, '.', |d|);
    assert s[..|d|] == d;
  }

  // ---------------------------------------------------------------- renaming

  /** The angle tag: each angle's text, joined by commas; `show` stands for `str` of a
      float. */
  function AngleTag(angles: seq<real>, show: real -> string): string {
    Join(Texts(angles, show), ',')
  }

  function Texts(angles: seq<real>, show: real -> string): (r: seq<string>)
    ensures |r| == |angles| && forall i :: 0 <= i < |angles| ==> r[i] == show(angles[i])
  {
    seq(|angles|, i requires 0 <= i < |angles| => show(angles[i]))
  }

  /** `'_'.join(name.split('_')[:-1]) + f"_{tag}.txt"` */
  function NewName(name: string, tag: string): string {
    var parts := Split(name, '_');
    Join(parts[..|parts| - 1], '_') + "_" + tag + ".txt"
  }

  /** A joined string holds only characters of its parts and the separator. */
  lemma {:induction false} JoinAvoids(parts: seq<string>, sep: char, c: char)
    requires c != sep && forall k :: 0 <= k < |parts| ==> c !in parts[k]
    ensures c !in Join(parts, sep)
    decreases |parts|
  {
    if |parts| > 1 {
      JoinAvoids(parts[1..], sep, c);
    }
  }

  /** The part of a name before its last `_` avoids every character the name avoids
      but `_`. */
  lemma JoinPrefixAvoidsAll(name: string, c: char)
    requires c != '_' && c !in name
    ensures var parts := Split(name, '_');
      c !in Join(parts[..|parts| - 1], '_')
  {
    var parts := Split(name, '_');
    var init := parts[..|parts| - 1];
    if init != [] {
      JoinSplit(name, '_');
      JoinPrefixOfSplit(init, parts[|parts| - 1], '_');
      assert init + [parts[|parts| - 1]] == parts;
    }
  }

  /** After the last separator comes `b` when `b` holds no separator. */
  lemma {:induction false} LastOfSplit(a: string, b: string, sep: char)
    requires sep !in b
    ensures Last(Split(a + [sep] + b, sep)) == b
    decreases |a|
  {
    var s := a + [sep] + b;
    var i := if sep in a then IndexOf(a, sep) else |a|;
    assert sep in s && IndexOf(s, sep) == i by {
      assert s[..i] == a[..i] && s[i] == sep;
      IndexOfAt(s, sep, i);
    }
    LastOfSplitStep(s, sep);
    if sep in a {
      assert s[i + 1..] == a[i + 1..] + [sep] + b;
      LastOfSplit(a[i + 1..], b, sep);
    } else {
      assert s[i + 1..] == b;
    }
  }

  /** The last piece of a split is the last piece of what follows the first separator. */
  lemma LastOfSplitStep(s: string, sep: char)
    requires sep in s
    ensures Last(Split(s, sep)) == Last(Split(s[IndexOf(s, sep) + 1..], sep))
  {
    var rest := Split(s[IndexOf(s, sep) + 1..], sep);
    assert Split(s, sep) == [s[..IndexOf(s, sep)]] + rest;
    assert ([s[..IndexOf(s, sep)]] + rest)[|rest|] == rest[|rest| - 1];
  }

  /** A renamed file counts as tagged when its tag holds a comma and no `_`, so a second
      run of `exclude_files` drops it. */
  lemma NewNameTagged(name: string, tag: string)
    requires ',' in tag && '_' !in tag
    ensures EndSegment(NewName(name, tag)) == tag
    ensures Tagged(NewName(name, tag))
  {
    var parts := Split(name, '_');
    var head := Join(parts[..|parts| - 1], '_');
    var n := NewName(name, tag);
    assert n == head + "_" + tag + ".txt";
    assert n[|n| - 4..] == ".txt";
    assert StripExtension(n) == head + ['_'] + tag;
    LastOfSplit(head, tag, '_');
    TaggedIffComma(n);
  }

  /** The tag of two or more angles holds a comma, and holds no `_` when no angle text
      does. */
  lemma AngleTagShape(angles: seq<real>, show: real -> string)
    requires |angles| >= 2
    requires forall a :: '_' !in show(a)
    ensures ',' in AngleTag(angles, show) && '_' !in AngleTag(angles, show)
  {
    var ts := Texts(angles, show);
    JoinHead(ts, ',');
    assert forall k :: 0 <= k < |ts| ==> '_' !in ts[k] by {
      forall k | 0 <= k < |ts| ensures '_' !in ts[k] {
        var x := angles[k];
        assert '_' !in show(x);
        assert ts[k] == show(x);
      }
    }
    assert AngleTag(angles, show)[|ts[0]|] == ',';
    JoinAvoids(ts, ',', '_');
  }

  // ---------------------------------------------------------------- the angle pattern

  predicate IsNumberChar(c: char) {
    IsDigit(c) || c == '-' || c == '.'
  }

  /** The end of the run of digits from `i`. */
  function DigitEnd(s: string, i: nat): (e: nat)
    requires i <= |s|
    ensures i <= e <= |s| && (e < |s| ==> !IsDigit(s[e]))
    ensures forall k {:trigger IsDigit(s[k])} :: i <= k < e ==> IsDigit(s[k])
    decreases |s| - i
  {
    if i < |s| && IsDigit(s[i]) then DigitEnd(s, i + 1) else i
  }

  /** Where `-?\d+(?:\.\d+)?` matched at `i` ends. Each part is greedy, and backtracking
      never helps the rest of the angle pattern: a shorter match is always followed by a
      digit or a `.`, never by the `,` the pattern needs next. */
  function NumberEnd(s: string, i: nat): (r: Option<nat>)
    requires i <= |s|
    ensures r.Some? ==> i < r.value <= |s| && forall k {:trigger IsNumberChar(s[k])} :: i <= k < r.value ==> IsNumberChar(s[k])
  {
    var j := if i < |s| && s[i] == '-' then i + 1 else i;
    var d := DigitEnd(s, j);
    if d == j then None
    else if d + 1 < |s| && s[d] == '.' && IsDigit(s[d + 1]) then Some(DigitEnd(s, d + 1))
    else Some(d)
  }

  /** A match of the angle pattern: the first number from `start` to `comma`, the second
      from `comma + 1` to `end`. */
  datatype Match = Match(start: nat, comma: nat, end: nat)

  /** The angle pattern tried at position `i`. */
  function MatchAt(s: string, i: nat): (r: Option<Match>)
    requires i <= |s|
    ensures r.Some? ==> r.value.start == i < r.value.comma < r.value.end <= |s| && s[r.value.comma] == ','
  {
    var e1 := NumberEnd(s, i);
    if e1.None? || e1.value == |s| || s[e1.value] != ',' then None
    else
      var e2 := NumberEnd(s, e1.value + 1);
      if e2.None? then None else Some(Match(i, e1.value, e2.value))
  }

  /** `re.findall(pattern, s)[0]`: the leftmost match from `i` on. */
  function FirstMatch(s: string, i: nat): (r: Option<Match>)
    requires i <= |s|
    ensures r.Some? ==> i <= r.value.start <= |s| && MatchAt(s, r.value.start) == r
    decreases |s| - i
  {
    var m := MatchAt(s, i);
    if m.Some? then m else if i == |s| then None else FirstMatch(s, i + 1)
  }

  /** The leftmost match is the one at `j` when none starts between `i` and `j`. */
  lemma {:induction false} FirstMatchAt(s: string, i: nat, j: nat)
    requires i <= j <= |s| && MatchAt(s, j).Some? && NoMatchBetween(s, i, j)
    ensures FirstMatch(s, i) == MatchAt(s, j)
    decreases j - i
  {
    if i < j {
      FirstMatchSkips(s, i);
      FirstMatchAt(s, i + 1, j);
    } else {
      FirstMatchHere(s, i);
    }
  }

  /** A match at `i` is the leftmost one from `i`. */
  lemma FirstMatchHere(s: string, i: nat)
    requires i <= |s| && MatchAt(s, i).Some?
    ensures FirstMatch(s, i) == MatchAt(s, i)
  {
  }

  /** The pattern matches at none of the positions from `i` up to `j`. */
  ghost predicate NoMatchBetween(s: string, i: nat, j: nat)
    requires i <= j <= |s|
    decreases j - i
  {
    i == j || (MatchAt(s, i).None? && NoMatchBetween(s, i + 1, j))
  }

  /** No match at `i`: the search goes on from `i + 1`. */
  lemma FirstMatchSkips(s: string, i: nat)
    requires i < |s| && MatchAt(s, i).None?
    ensures FirstMatch(s, i) == FirstMatch(s, i + 1)
  {
  }

  // ---------------------------------------------------------------- _parse_filename

  datatype Role = Reference | Sample

  /** The text before the first newline (`.` does not match a newline). */
  function FirstLine(s: string): string {
    if '\n' in s then s[..IndexOf(s, '\n')] else s
  }

  /** `re.match(r'.*ref.*', name.split('_')[0].lower())` decides the role: reference when
      the first line of the lower-cased first segment holds "ref", sample otherwise. */
  function RoleOf(filename: string): Role {
    if Contains(FirstLine(Lower(Split(filename, '_')[0])), "ref") then Reference else Sample
  }

  /** The angles of `_parse_filename`: the two numbers of the first match, each through
      `float`. None stands for the IndexError raised when nothing matches. */
  function AnglesOf(filename: string): Option<(real, real)> {
    AnglesAt(filename, FirstMatch(filename, 0))
  }

  /** The two numbers of the match `m`, each through `float`. */
  function AnglesAt(s: string, m: Option<Match>): Option<(real, real)>
    requires m.Some? ==> m.value.start <= m.value.comma < m.value.end <= |s|
  {
    if m.None? then None
    else
      var a := ParseFloat(s[m.value.start..m.value.comma]);
      var b := ParseFloat(s[m.value.comma + 1..m.value.end]);
      if a.None? || b.None? then None else Some((a.value, b.value))
  }

  /** `_parse_filename(filename)`: the role and, if the pattern matches, the angles. */
  datatype ParsedName = ParsedName(role: Role, angles: Option<(real, real)>)

  function ParseFilename(filename: string): ParsedName {
    ParsedName(RoleOf(filename), AnglesOf(filename))
  }

  // ---------------------------------------------------------------- decimal angle texts

  /** An angle written in plain decimal notation, such as "10.0" or "-2.5": an optional
      minus sign, one or more digits, and optionally a `.` and one or more digits. */
  datatype Decimal = Decimal(negative: bool, whole: string, frac: string)

  predicate ValidDecimal(d: Decimal) {
    d.whole != "" && AllDigits(d.whole) && AllDigits(d.frac)
  }

  function DecimalText(d: Decimal): string {
    (if d.negative then "-" else "") + d.whole + (if d.frac == "" then "" else "." + d.frac)
  }

  function DecimalValue(d: Decimal): real
    requires ValidDecimal(d)
  {
    var v := UnsignedDecimal(d.whole, d.frac);
    if d.negative then -v else v
  }

  /** `float` reads a decimal text as its value. */
  lemma ParseDecimal(d: Decimal)
    requires ValidDecimal(d)
    ensures ParseFloat(DecimalText(d)) == Some(DecimalValue(d))
  {
    var t := DecimalText(d);
    var body := DecimalBody(d);
    assert t == (if d.negative then "-" else "") + body;
    DecimalEnds(d);
    StripUnchanged(t);
    assert (if d.negative then t[1..] else t) == body;
    assert IsDigit(d.whole[0]);
    ParseDecimalBody(d);
  }

  /** The text after the sign. */
  function DecimalBody(d: Decimal): string {
    d.whole + (if d.frac == "" then "" else "." + d.frac)
  }

  lemma DecimalEnds(d: Decimal)
    requires ValidDecimal(d)
    ensures var t := DecimalText(d); !IsSpace(t[0]) && !IsSpace(t[|t| - 1])
  {
    var t := DecimalText(d);
    assert IsDigit(d.whole[0]) && IsDigit(d.whole[|d.whole| - 1]);
    assert t[0] == '-' || t[0] == d.whole[0];
    if d.frac == "" {
      assert t[|t| - 1] == d.whole[|d.whole| - 1];
    } else {
      assert IsDigit(d.frac[|d.frac| - 1]);
      assert t[|t| - 1] == d.frac[|d.frac| - 1];
    }
  }

  lemma ParseDecimalBody(d: Decimal)
    requires ValidDecimal(d)
    ensures ParseSignedDecimal(d.negative, DecimalBody(d)) == Some(DecimalValue(d))
  {
    var body := DecimalBody(d);
    assert '.' !in d.whole by {
      assert forall k :: 0 <= k < |d.whole| ==> IsDigit(d.whole[k]);
    }
    if d.frac == "" {
      assert body == d.whole;
    } else {
      assert '.' in body && IndexOf(body, '.') == |d.whole| && body[|d.whole| + 1..] == d.frac by {
        assert body == d.whole + ("." + d.frac);
        assert body[..|d.whole|] == d.whole && body[|d.whole|] == '.';
        IndexOfAt(body, '.', |d.whole|);
      }
    }
    ParseSignedParts(d.negative, body, d.whole, d.frac);
  }

  /** A body that splits at its first `.` into the digits `w` and `f`, or is `w` alone when
      `f` is empty, reads as the value of those digits. */
  lemma ParseSignedParts(neg: bool, body: string, w: string, f: string)
    requires w != "" && AllDigits(w) && AllDigits(f)
    requires '.' in body ==> body[..IndexOf(body, '.')] == w && body[IndexOf(body, '.') + 1..] == f
    requires '.' !in body ==> body == w && f == ""
    ensures ParseSignedDecimal(neg, body) == Some(if neg then -UnsignedDecimal(w, f) else UnsignedDecimal(w, f))
  {
  }

  /** The run of digits that occupies `s[i..e]` and is followed by a non-digit ends at
      `e`. */
  lemma {:induction false} DigitEndAt(s: string, i: nat, e: nat)
    requires i <= e <= |s|
    requires forall k :: i <= k < e ==> IsDigit(s[k])
    requires e < |s| ==> !IsDigit(s[e])
    ensures DigitEnd(s, i) == e
    decreases e - i
  {
    if i < e {
      DigitEndAt(s, i + 1, e);
    }
  }

  /** Sign, whole digits and fraction digits laid out in `s` from `i`: the sign ends at
      `j`, the whole digits at `w`, and the number at `e`. */
  predicate NumberLayout(s: string, i: nat, j: nat, w: nat, e: nat) {
    && i <= j <= i + 1 && j < w <= e <= |s|
    && (s[i] == '-' <==> j == i + 1)
    && (forall k :: j <= k < w ==> IsDigit(s[k]))
    && (w < e ==> w + 1 < e && s[w] == '.' && forall k :: w + 1 <= k < e ==> IsDigit(s[k]))
  }

  /** A laid-out number is matched whole by `-?\d+(?:\.\d+)?` when the character after it
      is not a digit, and when it has no fraction, not a `.` followed by a digit either. */
  lemma NumberEndOfLayout(s: string, i: nat, j: nat, w: nat, e: nat)
    requires NumberLayout(s, i, j, w, e)
    requires w < |s| && w == e ==> !IsDigit(s[w]) && !(s[w] == '.' && w + 1 < |s| && IsDigit(s[w + 1]))
    requires w < e < |s| ==> !IsDigit(s[e])
    ensures NumberEnd(s, i) == Some(e)
  {
    assert IsDigit(s[j]);
    if w < e {
      assert s[w] == '.' && IsDigit(s[w + 1]);
      DigitEndAt(s, j, w);
      DigitEndAt(s, w + 1, e);
    } else {
      DigitEndAt(s, j, w);
    }
  }

  /** The layout of a decimal text placed at `i`. */
  lemma DecimalLayout(s: string, i: nat, d: Decimal)
    requires ValidDecimal(d)
    requires i + |DecimalText(d)| <= |s| && s[i..i + |DecimalText(d)|] == DecimalText(d)
    ensures var j := if d.negative then i + 1 else i;
      NumberLayout(s, i, j, j + |d.whole|, i + |DecimalText(d)|)
  {
    var t := DecimalText(d);
    var e := i + |t|;
    var j := if d.negative then i + 1 else i;
    var w := j + |d.whole|;
    var sign := if d.negative then "-" else "";
    var rest := if d.frac == "" then "" else "." + d.frac;
    assert t == sign + d.whole + rest;
    assert forall k :: 0 <= k < |t| ==> s[i + k] == t[k] by {
      forall k | 0 <= k < |t| ensures s[i + k] == t[k] {
        assert s[i..e][k] == s[i + k];
      }
    }
    assert |sign| == j - i && w - i == |sign| + |d.whole|;
    assert IsDigit(d.whole[0]);
    assert s[i] == t[0];
    forall k | j <= k < w ensures IsDigit(s[k]) {
      assert s[i + (k - i)] == t[k - i];
      assert t[k - i] == d.whole[k - j];
    }
    if d.frac != "" {
      assert s[i + (w - i)] == t[w - i];
      assert t[w - i] == rest[0] == '.';
      forall k | w + 1 <= k < e ensures IsDigit(s[k]) {
        assert s[i + (k - i)] == t[k - i];
        assert t[k - i] == rest[k - w] == d.frac[k - w - 1];
      }
    }
  }

  /** Where no match can start before the `_` at `p`: any match from `i <= p` would need
      its comma before that `_`, inside a part that holds no comma. */
  lemma NoMatchBefore(s: string, p: nat, i: nat)
    requires i <= p < |s| && s[p] == '_' && ',' !in s[..p]
    ensures MatchAt(s, i).None?
  {
    var e1 := NumberEnd(s, i);
    if e1.Some? {
      assert !IsNumberChar(s[p]);
      assert e1.value <= p;
      if e1.value < p {
        assert s[e1.value] == s[..p][e1.value];
      }
    }
  }

  /** Hence none from `i` up to the `_`. */
  lemma {:induction false} NoMatchUpTo(s: string, p: nat, i: nat)
    requires i <= p + 1 <= |s| && s[p] == '_' && ',' !in s[..p]
    ensures NoMatchBetween(s, i, p + 1)
    decreases p + 1 - i
  {
    if i <= p {
      NoMatchBefore(s, p, i);
      NoMatchUpTo(s, p, i + 1);
    }
  }

  /** A decimal text at `i` is matched whole by the number pattern when what follows it
      is neither a digit nor a `.` and a digit. */
  lemma NumberEndOfDecimal(s: string, i: nat, d: Decimal)
    requires ValidDecimal(d)
    requires i + |DecimalText(d)| <= |s| && s[i..i + |DecimalText(d)|] == DecimalText(d)
    requires var e := i + |DecimalText(d)|;
      e < |s| ==> !IsDigit(s[e]) && !(s[e] == '.' && e + 1 < |s| && IsDigit(s[e + 1]))
    ensures NumberEnd(s, i) == Some(i + |DecimalText(d)|)
  {
    DecimalLayout(s, i, d);
    var j := if d.negative then i + 1 else i;
    NumberEndOfLayout(s, i, j, j + |d.whole|, i + |DecimalText(d)|);
  }

  /** Two decimal texts joined by a comma at `i` make a match of the angle pattern. */
  lemma MatchOfPair(s: string, i: nat, a: Decimal, b: Decimal)
    requires ValidDecimal(a) && ValidDecimal(b)
    requires var c := i + |DecimalText(a)|; var e := c + 1 + |DecimalText(b)|;
      && e <= |s| && s[i..c] == DecimalText(a) && s[c] == ',' && s[c + 1..e] == DecimalText(b)
      && (e < |s| ==> !IsDigit(s[e]) && !(s[e] == '.' && e + 1 < |s| && IsDigit(s[e + 1])))
    ensures var c := i + |DecimalText(a)|;
      MatchAt(s, i) == Some(Match(i, c, c + 1 + |DecimalText(b)|))
  {
    var c := i + |DecimalText(a)|;
    var e := c + 1 + |DecimalText(b)|;
    NumberBeforeComma(s, i, a);
    NumberEndOfDecimal(s, c + 1, b);
    MatchAtOfEnds(s, i, c, e);
  }

  /** A decimal text at `i` followed by a comma is matched whole by the number pattern. */
  lemma NumberBeforeComma(s: string, i: nat, a: Decimal)
    requires ValidDecimal(a)
    requires var c := i + |DecimalText(a)|; c < |s| && s[i..c] == DecimalText(a) && s[c] == ','
    ensures NumberEnd(s, i) == Some(i + |DecimalText(a)|)
  {
    var c := i + |DecimalText(a)|;
    assert !IsDigit(s[c]) && s[c] != '.';
    NumberEndOfDecimal(s, i, a);
  }

  /** The angle pattern matches at `i` when a number runs from `i` to a comma at `c` and
      another from `c + 1` to `e`. */
  lemma MatchAtOfEnds(s: string, i: nat, c: nat, e: nat)
    requires i <= c < |s| && s[c] == ','
    requires NumberEnd(s, i) == Some(c) && NumberEnd(s, c + 1) == Some(e)
    ensures MatchAt(s, i) == Some(Match(i, c, e))
  {
  }

  /** The name of a renamed file: a prefix, `_`, two decimal angle texts joined by a
      comma, and `.txt`. */
  function TaggedName(prefix: string, a: Decimal, b: Decimal): string {
    prefix + "_" + DecimalText(a) + "," + DecimalText(b) + ".txt"
  }

  lemma TaggedLayout(prefix: string, ta: string, tb: string)
    ensures var s := prefix + "_" + ta + "," + tb + ".txt";
      var p := |prefix|; var c := p + 1 + |ta|; var e := c + 1 + |tb|;
      && s[p] == '_' && s[..p] == prefix
      && s[p + 1..c] == ta && s[c] == ',' && s[c + 1..e] == tb && s[e] == '.' && s[e + 1] == 't' && |s| == e + 4
  {
  }

  /** A comma-free part up to the `_` at `p`, then two decimal texts, ending at `c` and
      `e`, joined by a comma and followed by a `.` and a non-digit. */
  predicate PairLayout(s: string, p: nat, c: nat, e: nat, a: Decimal, b: Decimal) {
    && c == p + 1 + |DecimalText(a)| && e == c + 1 + |DecimalText(b)|
    && e + 1 < |s| && s[p] == '_' && ',' !in s[..p]
    && s[p + 1..c] == DecimalText(a) && s[c] == ',' && s[c + 1..e] == DecimalText(b)
    && s[e] == '.' && !IsDigit(s[e + 1])
  }

  /** In that layout the leftmost match is the pair of angle texts. */
  lemma FirstMatchOfLayout(s: string, p: nat, c: nat, e: nat, a: Decimal, b: Decimal)
    requires ValidDecimal(a) && ValidDecimal(b) && PairLayout(s, p, c, e, a, b)
    ensures FirstMatch(s, 0) == Some(Match(p + 1, c, e))
  {
    NoMatchUpTo(s, p, 0);
    assert MatchAt(s, p + 1) == Some(Match(p + 1, c, e)) by {
      MatchOfPair(s, p + 1, a, b);
    }
    FirstMatchAt(s, 0, p + 1);
  }

  lemma FloatAt(s: string, i: nat, j: nat, d: Decimal)
    requires ValidDecimal(d) && i <= j <= |s| && s[i..j] == DecimalText(d)
    ensures ParseFloat(s[i..j]) == Some(DecimalValue(d))
  {
    ParseDecimal(d);
  }

  /** A tagged name whose prefix holds no comma gives back exactly its two angles. */
  lemma AnglesOfTaggedName(prefix: string, a: Decimal, b: Decimal)
    requires ValidDecimal(a) && ValidDecimal(b) && ',' !in prefix
    ensures AnglesOf(TaggedName(prefix, a, b)) == Some((DecimalValue(a), DecimalValue(b)))
  {
    TaggedFirstMatch(prefix, a, b);
    TaggedAnglesAt(prefix, a, b);
  }

  /** Where the angle texts sit in a tagged name. */
  function TaggedMatch(prefix: string, a: Decimal, b: Decimal): Match {
    var c := |prefix| + 1 + |DecimalText(a)|;
    Match(|prefix| + 1, c, c + 1 + |DecimalText(b)|)
  }

  lemma TaggedFirstMatch(prefix: string, a: Decimal, b: Decimal)
    requires ValidDecimal(a) && ValidDecimal(b) && ',' !in prefix
    ensures FirstMatch(TaggedName(prefix, a, b), 0) == Some(TaggedMatch(prefix, a, b))
  {
    var m := TaggedMatch(prefix, a, b);
    TaggedLayout(prefix, DecimalText(a), DecimalText(b));
    FirstMatchOfLayout(TaggedName(prefix, a, b), |prefix|, m.comma, m.end, a, b);
  }

  lemma TaggedAnglesAt(prefix: string, a: Decimal, b: Decimal)
    requires ValidDecimal(a) && ValidDecimal(b)
    ensures var m := TaggedMatch(prefix, a, b);
      m.end <= |TaggedName(prefix, a, b)| &&
      AnglesAt(TaggedName(prefix, a, b), Some(m)) == Some((DecimalValue(a), DecimalValue(b)))
  {
    var m := TaggedMatch(prefix, a, b);
    var s := TaggedName(prefix, a, b);
    TaggedLayout(prefix, DecimalText(a), DecimalText(b));
    FloatAt(s, m.start, m.comma, a);
    FloatAt(s, m.comma + 1, m.end, b);
  }

  /** The part of a name before its last `_`. */
  function Head(name: string): string {
    var parts := Split(name, '_');
    Join(parts[..|parts| - 1], '_')
  }

  /** A renamed file parses back to the angles of its tag, when the tag is two decimal
      angle texts and the original name holds no comma. */
  lemma ParseRenamedFile(name: string, a: Decimal, b: Decimal)
    requires ValidDecimal(a) && ValidDecimal(b) && ',' !in name
    ensures ParseFilename(NewName(name, DecimalText(a) + "," + DecimalText(b))).angles
      == Some((DecimalValue(a), DecimalValue(b)))
  {
    JoinPrefixAvoidsAll(name, ',');
    RenamedIsTagged(name, a, b);
    AnglesOfTaggedName(Head(name), a, b);
  }

  lemma RenamedIsTagged(name: string, a: Decimal, b: Decimal)
    ensures NewName(name, DecimalText(a) + "," + DecimalText(b)) == TaggedName(Head(name), a, b)
  {
  }

  /** The first piece of a split is what comes before the first separator. */
  lemma SplitFirst(x: string, y: string, sep: char)
    requires sep !in x
    ensures Split(x + [sep] + y, sep)[0] == x
  {
    var s := x + [sep] + y;
    assert s[..|x|] == x;
    IndexOfAt(s, sep, |x|);
  }

  /** A join followed by a separator starts with the first part and that separator. */
  lemma JoinedFirst(init: seq<string>, t: string, sep: char)
    requires |init| >= 1 && sep !in init[0]
    ensures Split(Join(init, sep) + [sep] + t, sep)[0] == init[0]
  {
    var rest := if |init| == 1 then t else Join(init[1..], sep) + [sep] + t;
    assert Join(init, sep) + [sep] + t == init[0] + [sep] + rest by {
      if |init| > 1 {
        JoinHead(init, sep);
      }
    }
    SplitFirst(init[0], rest, sep);
  }

  /** Renaming keeps the first `_`-segment of a name that has at least two segments. */
  lemma NewNameKeepsFirst(name: string, tag: string)
    requires |Split(name, '_')| >= 2
    ensures Split(NewName(name, tag), '_')[0] == Split(name, '_')[0]
  {
    var parts := Split(name, '_');
    var renamed := Join(parts[..|parts| - 1], '_') + "_" + tag + ".txt";
    SegmentsKeepFirst(parts, tag);
    assert NewName(name, tag) == renamed;
  }

  /** Joining all but the last segment and appending a new last one keeps the first. */
  lemma SegmentsKeepFirst(parts: seq<string>, tag: string)
    requires |parts| >= 2 && forall k :: 0 <= k < |parts| ==> '_' !in parts[k]
    ensures Split(Join(parts[..|parts| - 1], '_') + "_" + tag + ".txt", '_')[0] == parts[0]
  {
    var init := parts[..|parts| - 1];
    assert Join(init, '_') + "_" + tag + ".txt" == Join(init, '_') + ['_'] + (tag + ".txt");
    assert init[0] == parts[0];
    JoinedFirst(init, tag + ".txt", '_');
  }

  /** ... and with it the role. */
  lemma NewNameKeepsRole(name: string, tag: string)
    requires |Split(name, '_')| >= 2
    ensures RoleOf(NewName(name, tag)) == RoleOf(name)
  {
    NewNameKeepsFirst(name, tag);
  }
}
