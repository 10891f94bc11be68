/** The older analysis script (`anlge_resolved_new.py`): files are picked by the fixed
    words `reference` and `sample` with no exclusion of renamed files, sorted by the number
    in segment 3, and renamed after the lines of `scan_list.dat`, each carrying the first
    angle of its line only; names are read back with the angle taken from segment 3.
    Nothing is caught: the first error ends the call. */
module ProvenanceV0 {
  import opened Text
  import opened FileNames
  import opened PyDict
  import Scan
  import Provenance
  import Analysis

  /** The exceptions `rename_files` can raise; a missing `scan_list.dat` and a missing
      rename source both raise FileNotFoundError, an OSError. */
  datatype Error = IndexError | ValueError | OSError

  /** How `rename_files(dataDir)` ends: "Files renamed." or an exception. */
  datatype End = Renamed | Raised(error: Error)

  /** The exception a failed sort key raises. */
  function KeyFailure(e: KeyError): Error {
    if e == MissingSegment then IndexError else ValueError
  }

  // ---------------------------------------------------------------- scan_list.dat

  /** `file.readlines()` with each line's newline left off: the pieces between newlines,
      without the empty piece after a final newline. */
  function ReadLines(text: string): (r: seq<string>)
    ensures forall i :: 0 <= i < |r| ==> '\n' !in r[i]
  {
    var pieces := Split(text, '\n');
    if Last(pieces) == "" then pieces[..|pieces| - 1] else pieces
  }

  /** `angle_list`: each line stripped and split at commas, in file order. */
  function AngleList(text: string): (r: seq<seq<string>>)
    ensures |r| == |ReadLines(text)|
    ensures forall i :: 0 <= i < |r| ==> r[i] == Split(Strip(ReadLines(text)[i]), ',')
  {
    var lines := ReadLines(text);
    seq(|lines|, i requires 0 <= i < |lines| => Split(Strip(lines[i]), ','))
  }

  /** The loop reading `scan_list.dat` (lines 14-18). */
  method ReadAngleList(text: string) returns (angleList: seq<seq<string>>)
    ensures angleList == AngleList(text)
  {
    var lines := ReadLines(text);
    angleList := [];
    for i := 0 to |lines|
      invariant |angleList| == i && forall k :: 0 <= k < i ==> angleList[k] == Split(Strip(lines[k]), ',')
    {
      var line := Strip(lines[i]);
      angleList := angleList + [Split(line, ',')];
    }
  }

  /** A plan written as `export_scan_list` writes it reads back as its points' angle
      texts, point by point, when no angle text holds a comma or a newline or starts or
      ends with whitespace. */
  lemma ScanListRoundTrip(plan: seq<(real, real)>, show: real -> string)
    requires forall a :: ',' !in show(a) && '\n' !in show(a)
    requires forall a :: show(a) != [] && !IsSpace(show(a)[0]) && !IsSpace(show(a)[|show(a)| - 1])
    ensures |AngleList(Scan.PlanText(plan, show))| == |plan|
    ensures forall i :: 0 <= i < |plan| ==> AngleList(Scan.PlanText(plan, show))[i] == [show(plan[i].0), show(plan[i].1)]
  {
    var text := Scan.PlanText(plan, show);
    Scan.PlanTextRoundTrip(plan, show);
    var pieces := Split(text, '\n');
    var lines := ReadLines(text);
    assert lines == pieces[..|plan|];
    forall i | 0 <= i < |plan| ensures Split(Strip(lines[i]), ',') == [show(plan[i].0), show(plan[i].1)] {
      var a, b := show(plan[i].0), show(plan[i].1);
      Scan.PlanLineSplits(plan[i].0, plan[i].1, show);
      var line := Scan.PlanLine(plan[i], show);
      assert Join(Split(lines[i], ','), ',') == lines[i] by {
        JoinSplit(lines[i], ',');
      }
      assert lines[i] == Join([a, b], ',');
      assert Join([a, b], ',') == a + [','] + b by {
        JoinHead([a, b], ',');
        assert [a, b][1..] == [b];
      }
      assert lines[i][0] == a[0] && lines[i][|lines[i]| - 1] == b[|b| - 1];
      StripUnchanged(lines[i]);
    }
  }

  // ---------------------------------------------------------------- rename_files

  /** The new name of round `idx` for `file`: its segments but the last, then `_`, the
      first angle text of the line, and `.txt`. */
  function NewNameV0(file: string, angles: seq<string>): string
    requires |angles| > 0
  {
    NewName(file, angles[0])
  }

  /** The loop from round `idx` on, over the directory `names`: the reference file and
      the first angle are read, then the sample file; then the reference file is renamed,
      then the sample file, a missing source raising OSError. */
  function LoopV0(idx: nat, plan: seq<seq<string>>, r: seq<string>, s: seq<string>, names: set<string>): (End, set<string>)
    decreases |plan| - idx
  {
    if idx >= |plan| then (Renamed, names)
    else if idx >= |r| || |plan[idx]| == 0 || idx >= |s| then (Raised(IndexError), names)
    else if r[idx] !in names then (Raised(OSError), names)
    else
      var once := Provenance.Moved(names, r[idx], NewNameV0(r[idx], plan[idx]));
      if s[idx] !in once then (Raised(OSError), once)
      else LoopV0(idx + 1, plan, r, s, Provenance.Moved(once, s[idx], NewNameV0(s[idx], plan[idx])))
  }

  /** `rename_files(dataDir)` with `listing` from `os.listdir`, `text` the contents of
      `scan_list.dat` (`None` when there is no such file) and `names` the directory: how
      it ends and the directory after. Both sorts run before the scan list is opened. */
  function RenameFilesV0Spec(listing: seq<string>, text: Option<string>, names: set<string>): (End, set<string>) {
    var r := Provenance.SortBySequence(Provenance.WithId(listing, "reference"), 3);
    if r.SortFailed? then (Raised(KeyFailure(r.error)), names)
    else
      var s := Provenance.SortBySequence(Provenance.WithId(listing, "sample"), 3);
      if s.SortFailed? then (Raised(KeyFailure(s.error)), names)
      else if text.None? then (Raised(OSError), names)
      else LoopV0(0, AngleList(text.value), r.names, s.names, names)
  }

  /** `rename_files(dataDir)` */
  method RenameFilesV0(dir: Provenance.Directory, listing: seq<string>, text: Option<string>) returns (end: End)
    modifies dir
    ensures (end, dir.names) == RenameFilesV0Spec(listing, text, old(dir.names))
  {
    var r := Provenance.SortBySequence(Provenance.WithId(listing, "reference"), 3);
    if r.SortFailed? {
      return Raised(KeyFailure(r.error));
    }
    var s := Provenance.SortBySequence(Provenance.WithId(listing, "sample"), 3);
    if s.SortFailed? {
      return Raised(KeyFailure(s.error));
    }
    if text.None? {
      return Raised(OSError);
    }
    var angleList := ReadAngleList(text.value);
    var sortedRef, sortedSample := r.names, s.names;
    for idx := 0 to |angleList|
      invariant LoopV0(0, angleList, sortedRef, sortedSample, old(dir.names)) ==
                LoopV0(idx, angleList, sortedRef, sortedSample, dir.names)
    {
      var angles := angleList[idx];
      if idx >= |sortedRef| || |angles| == 0 || idx >= |sortedSample| {
        return Raised(IndexError);
      }
      var refNew := NewNameV0(sortedRef[idx], angles);
      var sampleNew := NewNameV0(sortedSample[idx], angles);
      var ok := dir.Rename(sortedRef[idx], refNew);
      if !ok {
        return Raised(OSError);
      }
      ok := dir.Rename(sortedSample[idx], sampleNew);
      if !ok {
        return Raised(OSError);
      }
    }
    return Renamed;
  }

  /** What the rounds from `idx` on read: a reference file, a sample file and a first
      angle for each line. */
  predicate Enough(idx: nat, plan: seq<seq<string>>, r: seq<string>, s: seq<string>) {
    (idx < |plan| ==> |plan| <= |r| && |plan| <= |s|) && forall i :: idx <= i < |plan| ==> |plan[i]| > 0
  }

  /** A run that prints "Files renamed." had a reference file, a sample file and a first
      angle for every line of the scan list. */
  lemma {:induction false} RenamedHadEnough(idx: nat, plan: seq<seq<string>>, r: seq<string>, s: seq<string>, names: set<string>)
    requires idx <= |plan|
    requires LoopV0(idx, plan, r, s, names).0 == Renamed
    ensures Enough(idx, plan, r, s)
    decreases |plan| - idx
  {
    if idx < |plan| {
      var next := RenamedRound(idx, plan, r, s, names);
      RenamedHadEnough(idx + 1, plan, r, s, next);
    }
  }

  /** A round of a run that prints "Files renamed." found its two files and its angle, and
      the rounds after it print the same. */
  lemma RenamedRound(idx: nat, plan: seq<seq<string>>, r: seq<string>, s: seq<string>, names: set<string>)
    returns (next: set<string>)
    requires idx < |plan| && LoopV0(idx, plan, r, s, names).0 == Renamed
    ensures idx < |r| && |plan[idx]| > 0 && idx < |s|
    ensures LoopV0(idx + 1, plan, r, s, next).0 == Renamed
  {
    assert idx < |r| && |plan[idx]| > 0 && idx < |s| && r[idx] in names;
    var once := Provenance.Moved(names, r[idx], NewNameV0(r[idx], plan[idx]));
    next := Provenance.Moved(once, s[idx], NewNameV0(s[idx], plan[idx]));
    assert s[idx] in once && LoopV0(idx, plan, r, s, names) == LoopV0(idx + 1, plan, r, s, next);
  }

  /** The files the rounds from `idx` on rename. */
  function Sources(idx: nat, plan: seq<seq<string>>, r: seq<string>, s: seq<string>): set<string>
    requires Enough(idx, plan, r, s)
    decreases |plan| - idx
  {
    if idx >= |plan| then {} else {r[idx], s[idx]} + Sources(idx + 1, plan, r, s)
  }

  /** The names they are given. */
  function Targets(idx: nat, plan: seq<seq<string>>, r: seq<string>, s: seq<string>): set<string>
    requires Enough(idx, plan, r, s)
    decreases |plan| - idx
  {
    if idx >= |plan| then {}
    else {NewNameV0(r[idx], plan[idx]), NewNameV0(s[idx], plan[idx])} + Targets(idx + 1, plan, r, s)
  }

  /** A file of a round after `idx` is one of the rounds' files from `idx + 1` on. */
  lemma {:induction false} LaterSources(idx: nat, plan: seq<seq<string>>, r: seq<string>, s: seq<string>, x: string)
    requires Enough(idx, plan, r, s) && x in Sources(idx, plan, r, s)
    ensures exists i :: idx <= i < |plan| && (x == r[i] || x == s[i])
    decreases |plan| - idx
  {
    if x != r[idx] && x != s[idx] {
      LaterSources(idx + 1, plan, r, s, x);
    }
  }

  /** When the files of the rounds are all in the directory and all different, and no new
      name is one of them, the run prints "Files renamed." and the directory has every such
      file replaced by its new name. */
  lemma {:induction false} LoopV0Completes(idx: nat, plan: seq<seq<string>>, r: seq<string>, s: seq<string>, names: set<string>)
    requires idx <= |plan| && Enough(idx, plan, r, s)
    requires Sources(idx, plan, r, s) <= names
    requires forall i, j :: idx <= i < |plan| && idx <= j < |plan| ==> r[i] != s[j] && (i != j ==> r[i] != r[j] && s[i] != s[j])
    requires Targets(idx, plan, r, s) !! Sources(idx, plan, r, s)
    ensures LoopV0(idx, plan, r, s, names).0 == Renamed
    ensures LoopV0(idx, plan, r, s, names).1 == names - Sources(idx, plan, r, s) + Targets(idx, plan, r, s)
    decreases |plan| - idx
  {
    if idx < |plan| {
      var t, u := NewNameV0(r[idx], plan[idx]), NewNameV0(s[idx], plan[idx]);
      var src, src' := Sources(idx, plan, r, s), Sources(idx + 1, plan, r, s);
      var once := names - {r[idx]} + {t};
      var twice := once - {s[idx]} + {u};
      assert r[idx] !in src' && s[idx] !in src' by {
        if r[idx] in src' {
          LaterSources(idx + 1, plan, r, s, r[idx]);
        }
        if s[idx] in src' {
          LaterSources(idx + 1, plan, r, s, s[idx]);
        }
      }
      assert src == {r[idx], s[idx]} + src';
      assert LoopV0(idx, plan, r, s, names) == LoopV0(idx + 1, plan, r, s, twice) by {
        assert r[idx] in names && r[idx] != s[idx];
        assert Provenance.Moved(names, r[idx], t) == once;
        assert Provenance.Moved(once, s[idx], u) == twice;
      }
      var tgt' := Targets(idx + 1, plan, r, s);
      assert twice - src' == names - src + {t, u} by {
        assert {t, u} !! src;
      }
      assert Targets(idx, plan, r, s) == {t, u} + tgt';
      LoopV0Completes(idx + 1, plan, r, s, twice);
    } else {
      assert Sources(idx, plan, r, s) == {} && Targets(idx, plan, r, s) == {};
    }
  }

  // ---------------------------------------------------------------- _parse_filename

  /** `filename[:-4]`: the name without its last four characters (empty when shorter). */
  function Stem(filename: string): string {
    if |filename| >= 4 then filename[..|filename| - 4] else ""
  }

  /** `(data_type, angle)`, or the exception `_parse_filename` raises. */
  datatype NameParse = ParsedV0(dataType: string, angle: real) | ParseFailed(error: Error)

  /** `_parse_filename` as written: segment 1 of the stem is the data type, and the angle
      is the text of segment 3 before its first `.`, through `float`. */
  function ParseFilenameAsWritten(filename: string): NameParse {
    var parts := Split(Stem(filename), '_');
    if |parts| < 4 then ParseFailed(IndexError)
    else
      var angle := ParseFloat(Split(parts[3], '.')[0]);
      if angle.None? then ParseFailed(ValueError) else ParsedV0(parts[1], angle.value)
  }

  /** As written, whatever the name, a parsed angle is a whole number: it is read from
      text that holds no `.`. */
  lemma AsWrittenAngleIsWhole(filename: string)
    ensures var p := ParseFilenameAsWritten(filename);
      p.ParsedV0? ==> p.angle == p.angle.Floor as real
  {
    var parts := Split(Stem(filename), '_');
    if |parts| >= 4 {
      ParseFloatNoDotIsWhole(Split(parts[3], '.')[0]);
    }
  }

  /** `_parse_filename` as evidently intended: the extension is already gone, so segment 3
      is the angle text `rename_files` wrote, read whole. */
  function ParseFilenameV0(filename: string): NameParse {
    var parts := Split(Stem(filename), '_');
    if |parts| < 4 then ParseFailed(IndexError)
    else
      var angle := ParseFloat(parts[3]);
      if angle.None? then ParseFailed(ValueError) else ParsedV0(parts[1], angle.value)
  }

  /** A file `<p0>_<p1>_<p2>_<n>.txt` renamed for the angle text `tag` is split back into
      the same three segments and `tag`. */
  lemma RenamedStemParts(segments: seq<string>, last: string, tag: string)
    requires |segments| == 3 && forall k :: 0 <= k < 3 ==> '_' !in segments[k]
    requires '_' !in last && '_' !in tag
    ensures Split(Stem(NewName(Join(segments + [last], '_'), tag)), '_') == segments + [tag]
  {
    var name := NewName(Join(segments + [last], '_'), tag);
    var stem := Join(segments, '_') + "_" + tag;
    assert name == stem + ".txt" by {
      SplitJoin(segments + [last], '_');
      assert (segments + [last])[..3] == segments;
    }
    assert Stem(name) == stem;
    assert stem == Join(segments + [tag], '_') by {
      JoinPrefixOfSplit(segments, tag, '_');
    }
    SplitJoin(segments + [tag], '_');
  }

  /** Digits are neither `_`, `.` nor `-`. */
  lemma DigitsAvoid(s: string)
    requires AllDigits(s)
    ensures '_' !in s && '.' !in s && '-' !in s
  {
    forall k | 0 <= k < |s| ensures s[k] != '_' && s[k] != '.' && s[k] != '-' {
      assert IsDigit(s[k]);
    }
  }

  /** A decimal text holds no `_`, and its part before the `.` is the text of its whole
      part. */
  lemma DecimalChars(d: Decimal)
    requires ValidDecimal(d)
    ensures '_' !in DecimalText(d)
    ensures Split(DecimalText(d), '.')[0] == DecimalText(Decimal(d.negative, d.whole, ""))
  {
    var sign := if d.negative then "-" else "";
    var w := sign + d.whole;
    DigitsAvoid(d.whole);
    DigitsAvoid(d.frac);
    assert '.' !in w && '_' !in w;
    assert DecimalText(Decimal(d.negative, d.whole, "")) == w;
    if d.frac != "" {
      DigitsThenDot(w, d.frac);
      assert DecimalText(d) == w + "." + d.frac;
    } else {
      assert DecimalText(d) == w;
      SplitSingleIff(w, '.');
    }
  }

  /** As written, a renamed file reads back the whole part of its angle only: the
      fraction is dropped. */
  lemma AsWrittenDropsFraction(segments: seq<string>, last: string, d: Decimal)
    requires |segments| == 3 && forall k :: 0 <= k < 3 ==> '_' !in segments[k]
    requires '_' !in last && ValidDecimal(d)
    ensures ParseFilenameAsWritten(NewName(Join(segments + [last], '_'), DecimalText(d))) ==
      ParsedV0(segments[1], DecimalValue(Decimal(d.negative, d.whole, "")))
  {
    DecimalChars(d);
    RenamedStemParts(segments, last, DecimalText(d));
    ParseDecimal(Decimal(d.negative, d.whole, ""));
  }

  /** Two files of one data type renamed for angles with the same whole part, one
      written with a fraction and one without (12 and 12.5, say), read back at the same
      angle, so `load_data` keeps only one of them. */
  lemma AsWrittenCollides(segments: seq<string>, last: string, last': string, d: Decimal)
    requires |segments| == 3 && forall k :: 0 <= k < 3 ==> '_' !in segments[k]
    requires '_' !in last && '_' !in last'
    requires ValidDecimal(d) && d.frac != ""
    ensures var a := NewName(Join(segments + [last], '_'), DecimalText(Decimal(d.negative, d.whole, "")));
      var b := NewName(Join(segments + [last'], '_'), DecimalText(d));
      a != b && ParseFilenameAsWritten(a) == ParseFilenameAsWritten(b)
  {
    var w := Decimal(d.negative, d.whole, "");
    AsWrittenDropsFraction(segments, last, w);
    AsWrittenDropsFraction(segments, last', d);
    DecimalChars(w);
    DecimalChars(d);
    RenamedStemParts(segments, last, DecimalText(w));
    RenamedStemParts(segments, last', DecimalText(d));
    assert |DecimalText(w)| < |DecimalText(d)|;
    assert (segments + [DecimalText(w)])[3] != (segments + [DecimalText(d)])[3];
  }

  /** The angles of the example: 12 and 12.5 differ. */
  lemma HalfDegreeApart()
    ensures DecimalValue(Decimal(false, "12", "")) == 12.0
    ensures DecimalValue(Decimal(false, "12", "5")) == 12.5
  {
  }

  /** Corrected, a renamed file reads back its data type and the angle it was renamed
      for. */
  lemma RenamedNameReadsBack(segments: seq<string>, last: string, d: Decimal)
    requires |segments| == 3 && forall k :: 0 <= k < 3 ==> '_' !in segments[k]
    requires '_' !in last && ValidDecimal(d)
    ensures ParseFilenameV0(NewName(Join(segments + [last], '_'), DecimalText(d))) == ParsedV0(segments[1], DecimalValue(d))
  {
    DecimalChars(d);
    RenamedStemParts(segments, last, DecimalText(d));
    ParseDecimal(d);
  }

  // ---------------------------------------------------------------- load_data

  /** `ReflectionFile(file)` as far as its name goes, the name read by `parse`: None
      where that raises. */
  function Loader(parse: string -> NameParse): string -> Option<Analysis.Loaded<string, real>> {
    name => var p := parse(name); if p.ParseFailed? then None else Some(Analysis.Loaded(name, p.dataType, p.angle))
  }

  /** `load_data` with names read by `parse`: the `.txt` names parsed, then grouped by
      data type and angle. */
  function LoadDataWith(listing: seq<string>, parse: string -> NameParse): Option<Analysis.Grouping<string, real>> {
    var loaded := Analysis.MapAll(Analysis.TextFiles(listing), Loader(parse));
    if loaded.None? then None else Some(Analysis.Group(loaded.value))
  }

  /** `load_data` as written, reading names with `_parse_filename` as written. */
  method LoadDataV0(listing: seq<string>) returns (d: Option<Analysis.Grouping<string, real>>)
    ensures d == LoadDataWith(listing, ParseFilenameAsWritten)
  {
    d := LoadDataUsing(listing, ParseFilenameAsWritten);
  }

  /** `load_data`, reading names with the corrected `_parse_filename`. */
  method LoadDataV0Corrected(listing: seq<string>) returns (d: Option<Analysis.Grouping<string, real>>)
    ensures d == LoadDataWith(listing, ParseFilenameV0)
  {
    d := LoadDataUsing(listing, ParseFilenameV0);
  }

  /** The body of `load_data`, with names read by `parse`. */
  method LoadDataUsing(listing: seq<string>, parse: string -> NameParse) returns (d: Option<Analysis.Grouping<string, real>>)
    ensures d == LoadDataWith(listing, parse)
  {
    var loaded := Analysis.ReadFiles(Analysis.TextFiles(listing), Loader(parse));
    if loaded.None? {
      return None;
    }
    var angleDict := Analysis.GroupFiles(loaded.value);
    return Some(angleDict);
  }

  /** `load_data` fails exactly when some `.txt` name does not parse. */
  lemma LoadDataFails(listing: seq<string>, parse: string -> NameParse)
    ensures LoadDataWith(listing, parse).None? <==>
      exists f :: f in Analysis.TextFiles(listing) && parse(f).ParseFailed?
  {
    var files := Analysis.TextFiles(listing);
    if exists f :: f in files && parse(f).ParseFailed? {
      var f :| f in files && parse(f).ParseFailed?;
      var i :| 0 <= i < |files| && files[i] == f;
      assert Loader(parse)(files[i]).None?;
    } else {
      forall i | 0 <= i < |files| ensures Loader(parse)(files[i]).Some? {
        assert files[i] in files;
      }
    }
  }

  /** The file grouped under a loaded file's role and angles is a loaded file with that
      role and those angles. */
  lemma GroupedIsLoaded<R, A>(l: seq<Analysis.Loaded<R, A>>, i: nat)
    requires i < |l|
    ensures var inner := Get(Analysis.Group(l), l[i].role);
      inner.Some? && Get(inner.value, l[i].angles).Some? &&
      exists k :: 0 <= k < |l| && l[k] == Analysis.Loaded(Get(inner.value, l[i].angles).value, l[i].role, l[i].angles)
  {
    Analysis.GroupHasRole(l, l[i].role);
    Analysis.GroupReads(l, l[i].role, l[i].angles);
    Analysis.LastFileIsLast(l, l[i].role, l[i].angles);
  }

  /** In the grouping `d`, the data type and angle of `p` lead to a file whose name
      `parse` reads as `p` again. */
  predicate FiledAt(d: Analysis.Grouping<string, real>, p: NameParse, parse: string -> NameParse) {
    && p.ParsedV0?
    && Get(d, p.dataType).Some?
    && Get(Get(d, p.dataType).value, p.angle).Some?
    && parse(Get(Get(d, p.dataType).value, p.angle).value) == p
  }

  /** When `load_data` succeeds, every `.txt` name is reached through its data type and
      angle, and what is found there is a file with that same data type and angle: the
      last one, when several share them. */
  lemma LoadDataFiles(listing: seq<string>, parse: string -> NameParse, name: string)
    requires name in Analysis.TextFiles(listing) && LoadDataWith(listing, parse).Some?
    ensures FiledAt(LoadDataWith(listing, parse).value, parse(name), parse)
  {
    var files := Analysis.TextFiles(listing);
    var l := Analysis.MapAll(files, Loader(parse)).value;
    var i :| 0 <= i < |files| && files[i] == name;
    LoadedFiledAt(files, parse, l, i);
  }

  /** The grouping of files loaded through `parse` files each of them where `parse` puts it. */
  lemma LoadedFiledAt(files: seq<string>, parse: string -> NameParse, l: seq<Analysis.Loaded<string, real>>, i: nat)
    requires |l| == |files| && i < |l|
    requires forall j :: 0 <= j < |files| ==> Some(l[j]) == Loader(parse)(files[j])
    ensures FiledAt(Analysis.Group(l), parse(files[i]), parse)
  {
    assert parse(files[i]) == ParsedV0(l[i].role, l[i].angles) by {
      assert Some(l[i]) == Loader(parse)(files[i]);
    }
    GroupedIsLoaded(l, i);
    var inner := Get(Analysis.Group(l), l[i].role).value;
    var k :| 0 <= k < |l| && l[k] == Analysis.Loaded(Get(inner, l[i].angles).value, l[i].role, l[i].angles);
    assert parse(l[k].name) == ParsedV0(l[k].role, l[k].angles) by {
      assert Some(l[k]) == Loader(parse)(files[k]);
    }
  }
}
