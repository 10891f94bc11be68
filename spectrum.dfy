/** A spectrum file as both analysis scripts read it (`ReflectionFile.load_file` and
    `_parse_header`, written identically in the two): the lines before the first marker
    line are the header, every later line that is not itself a marker is data, and each
    header line holding a `:` gives a key and a value. Lines are the items of
    `readlines()`, each with its newline if it had one. */
module SpectrumFile {
  import opened Text
  import opened PyDict

  const Marker: string := ">>>>>Begin Spectral Data<<<<<"

  /** A line starting with the marker text `mark`. The partition below is stated for any
      marker text; `load_file` uses `Marker`. */
  predicate IsMarker(line: string, mark: string) {
    StartsWith(line, mark)
  }

  // ---------------------------------------------------------------- partition

  /** The index of the first marker line, or the number of lines when there is none. */
  function FirstMarker(lines: seq<string>, mark: string): (m: nat)
    ensures m <= |lines| && (m < |lines| ==> IsMarker(lines[m], mark))
    ensures forall k :: 0 <= k < m ==> !IsMarker(lines[k], mark)
  {
    if lines == [] then 0
    else if IsMarker(lines[0], mark) then 0
    else 1 + FirstMarker(lines[1..], mark)
  }

  /** The lines that are not marker lines, in order. */
  function NonMarkers(lines: seq<string>, mark: string): (r: seq<string>)
    ensures forall k :: 0 <= k < |r| ==> !IsMarker(r[k], mark)
  {
    if lines == [] then []
    else
      var last := lines[|lines| - 1];
      NonMarkers(lines[..|lines| - 1], mark) + (if IsMarker(last, mark) then [] else [last])
  }

  /** The header: the lines before the first marker. */
  function HeaderPart(lines: seq<string>, mark: string): seq<string> {
    lines[..FirstMarker(lines, mark)]
  }

  /** The data: the non-marker lines after the first marker. */
  function DataPart(lines: seq<string>, mark: string): seq<string> {
    var m := FirstMarker(lines, mark);
    if m == |lines| then [] else NonMarkers(lines[m + 1..], mark)
  }

  lemma SliceSnoc<T>(xs: seq<T>, x: T, i: nat)
    requires i < |xs|
    ensures (xs + [x])[..i] == xs[..i] && (xs + [x])[i + 1..] == xs[i + 1..] + [x]
  {
  }

  /** The first marker of a longer list is the old one, if there was one; otherwise the new
      line's place if it is a marker, and past it if not. */
  lemma {:induction false} FirstMarkerSnoc(lines: seq<string>, line: string, mark: string)
    ensures FirstMarker(lines + [line], mark) ==
      if FirstMarker(lines, mark) < |lines| then FirstMarker(lines, mark)
      else if IsMarker(line, mark) then |lines| else |lines| + 1
    decreases |lines|
  {
    if lines != [] && !IsMarker(lines[0], mark) {
      FirstMarkerSnoc(lines[1..], line, mark);
      SliceSnoc(lines, line, 0);
    }
  }

  lemma NonMarkersSnoc(lines: seq<string>, line: string, mark: string)
    ensures NonMarkers(lines + [line], mark) == NonMarkers(lines, mark) + (if IsMarker(line, mark) then [] else [line])
  {
    assert (lines + [line])[..|lines|] == lines;
  }

  /** After the first marker, one more line changes only the data. */
  lemma PartsSnocFound(lines: seq<string>, line: string, m: nat, mark: string)
    requires m < |lines| && FirstMarker(lines, mark) == m && FirstMarker(lines + [line], mark) == m
    ensures HeaderPart(lines + [line], mark) == HeaderPart(lines, mark)
    ensures DataPart(lines + [line], mark) == DataPart(lines, mark) + (if IsMarker(line, mark) then [] else [line])
  {
    var all := lines + [line];
    assert HeaderPart(all, mark) == HeaderPart(lines, mark) by {
      SliceSnoc(lines, line, m);
    }
    assert DataPart(all, mark) == NonMarkers(lines[m + 1..] + [line], mark) by {
      SliceSnoc(lines, line, m);
    }
    NonMarkersSnoc(lines[m + 1..], line, mark);
  }

  /** One more line: before the first marker it joins the header, the first marker itself
      joins neither part, and after it every non-marker line joins the data. */
  lemma PartsSnoc(lines: seq<string>, line: string, mark: string)
    ensures var found := FirstMarker(lines, mark) < |lines|;
      && HeaderPart(lines + [line], mark) ==
        (if found || IsMarker(line, mark) then HeaderPart(lines, mark) else HeaderPart(lines, mark) + [line])
      && DataPart(lines + [line], mark) ==
        (if found && !IsMarker(line, mark) then DataPart(lines, mark) + [line] else DataPart(lines, mark))
  {
    FirstMarkerSnoc(lines, line, mark);
    var m := FirstMarker(lines, mark);
    var all := lines + [line];
    if m < |lines| {
      PartsSnocFound(lines, line, m, mark);
    } else {
      assert HeaderPart(lines, mark) == lines && DataPart(lines, mark) == [];
      if IsMarker(line, mark) {
        assert HeaderPart(all, mark) == lines by {
          assert all[..|lines|] == lines;
        }
        assert DataPart(all, mark) == [] by {
          assert all[|lines| + 1..] == [];
        }
      } else {
        assert HeaderPart(all, mark) == all by {
          assert all[..|lines| + 1] == all;
        }
        assert DataPart(all, mark) == [];
      }
    }
  }

  /** `load_file`'s partition, as the method walks the lines with its `found_data` flag. */
  method Partition(lines: seq<string>, mark: string) returns (header: seq<string>, data: seq<string>)
    ensures header == HeaderPart(lines, mark) && data == DataPart(lines, mark)
  {
    header, data := [], [];
    var found := false;
    for i := 0 to |lines|
      invariant found <==> FirstMarker(lines[..i], mark) < i
      invariant header == HeaderPart(lines[..i], mark) && data == DataPart(lines[..i], mark)
    {
      var line := lines[i];
      assert FirstMarker(lines[..i + 1], mark) < i + 1 <==> found || IsMarker(line, mark) by {
        assert lines[..i + 1] == lines[..i] + [line];
        FirstMarkerSnoc(lines[..i], line, mark);
      }
      assert HeaderPart(lines[..i + 1], mark) == (if found || IsMarker(line, mark) then header else header + [line]) &&
             DataPart(lines[..i + 1], mark) == (if found && !IsMarker(line, mark) then data + [line] else data) by {
        assert lines[..i + 1] == lines[..i] + [line];
        PartsSnoc(lines[..i], line, mark);
      }
      if IsMarker(line, mark) {
        found := true;
        continue;
      }
      if found {
        data := data + [line];
      } else {
        header := header + [line];
      }
    }
    assert lines[..|lines|] == lines;
  }

  /** `load_file`: the header lines parsed into the header dictionary, and the data lines
      (their numbers are not modelled). */
  method LoadFile(lines: seq<string>) returns (header: Dict<string, string>, data: seq<string>)
    ensures header == HeaderDict(HeaderPart(lines, Marker)) && data == DataPart(lines, Marker)
  {
    var headerLines;
    headerLines, data := Partition(lines, Marker);
    header := ParseHeader(headerLines);
  }

  /** A file written as header lines, a marker line, then data lines, none of them a
      marker, is read back as exactly that header and that data. */
  lemma PartitionRoundTrip(header: seq<string>, markerLine: string, data: seq<string>, mark: string)
    requires IsMarker(markerLine, mark)
    requires forall k :: 0 <= k < |header| ==> !IsMarker(header[k], mark)
    requires forall k :: 0 <= k < |data| ==> !IsMarker(data[k], mark)
    ensures HeaderPart(header + [markerLine] + data, mark) == header
    ensures DataPart(header + [markerLine] + data, mark) == data
  {
    var lines := header + [markerLine] + data;
    FirstMarkerAt(lines, |header|, mark);
    assert lines[..|header|] == header;
    assert lines[|header| + 1..] == data;
    NonMarkersKeep(data, mark);
  }

  /** A list with no marker line is all header. */
  lemma NoMarkerAllHeader(lines: seq<string>, mark: string)
    requires forall k :: 0 <= k < |lines| ==> !IsMarker(lines[k], mark)
    ensures HeaderPart(lines, mark) == lines && DataPart(lines, mark) == []
  {
    FirstMarkerNone(lines, mark);
  }

  lemma {:induction false} FirstMarkerAt(lines: seq<string>, m: nat, mark: string)
    requires m < |lines| && IsMarker(lines[m], mark)
    requires forall k :: 0 <= k < m ==> !IsMarker(lines[k], mark)
    ensures FirstMarker(lines, mark) == m
    decreases m
  {
    if m > 0 {
      FirstMarkerAt(lines[1..], m - 1, mark);
    }
  }

  lemma {:induction false} FirstMarkerNone(lines: seq<string>, mark: string)
    requires forall k :: 0 <= k < |lines| ==> !IsMarker(lines[k], mark)
    ensures FirstMarker(lines, mark) == |lines|
    decreases |lines|
  {
    if lines != [] {
      FirstMarkerNone(lines[1..], mark);
    }
  }

  lemma {:induction false} NonMarkersKeep(lines: seq<string>, mark: string)
    requires forall k :: 0 <= k < |lines| ==> !IsMarker(lines[k], mark)
    ensures NonMarkers(lines, mark) == lines
    decreases |lines|
  {
    if lines != [] {
      NonMarkersKeep(lines[..|lines| - 1], mark);
    }
  }

  // ---------------------------------------------------------------- header

  /** The key and value of a header line: split at the first `:`, both sides stripped;
      None for a line without `:`. */
  function Entry(line: string): Option<(string, string)> {
    if ':' in line then
      var i := IndexOf(line, ':');
      Some((Strip(line[..i]), Strip(line[i + 1..])))
    else None
  }

  /** The header dictionary `_parse_header` builds, entry by entry. */
  function HeaderDict(lines: seq<string>): Dict<string, string> {
    if lines == [] then []
    else
      var d := HeaderDict(lines[..|lines| - 1]);
      var e := Entry(lines[|lines| - 1]);
      if e.Some? then Set(d, e.value.0, e.value.1) else d
  }

  /** `_parse_header` */
  method ParseHeader(lines: seq<string>) returns (header: Dict<string, string>)
    ensures header == HeaderDict(lines)
  {
    header := [];
    for i := 0 to |lines|
      invariant header == HeaderDict(lines[..i])
    {
      var line := lines[i];
      ghost var next := HeaderDict(lines[..i + 1]);
      assert next == (if Entry(line).Some? then Set(header, Entry(line).value.0, Entry(line).value.1) else header) by {
        assert lines[..i + 1][..i] == lines[..i];
      }
      if ':' in line {
        var c := IndexOf(line, ':');
        header := Set(header, Strip(line[..c]), Strip(line[c + 1..]));
      }
    }
    assert lines[..|lines|] == lines;
  }

  /** The value of the last line whose key is `k`. */
  function LastValue(lines: seq<string>, k: string): (r: Option<string>)
    ensures r.Some? <==> exists i :: 0 <= i < |lines| && Entry(lines[i]).Some? && Entry(lines[i]).value.0 == k
  {
    if lines == [] then None
    else
      var e := Entry(lines[|lines| - 1]);
      if e.Some? && e.value.0 == k then Some(e.value.1)
      else
        var r := LastValue(lines[..|lines| - 1], k);
        assert forall i :: 0 <= i < |lines| - 1 ==> lines[..|lines| - 1][i] == lines[i];
        r
  }

  /** Every key of the header reads the value of its last line: later duplicates
      override earlier ones, and lines without `:` add nothing. */
  lemma {:induction false} HeaderReadsLastValue(lines: seq<string>, k: string)
    ensures Get(HeaderDict(lines), k) == LastValue(lines, k)
    decreases |lines|
  {
    if lines != [] {
      var init := lines[..|lines| - 1];
      HeaderReadsLastValue(init, k);
      var e := Entry(lines[|lines| - 1]);
      if e.Some? {
        GetSet(HeaderDict(init), e.value.0, e.value.1, k);
      }
    }
  }

  /** A line written as `key: value`, with a key free of `:` and both sides free of
      surrounding whitespace, reads back as that key and value; the value may itself
      hold `:`. */
  lemma EntryRoundTrip(key: string, value: string)
    requires ':' !in key
    requires key == [] || (!IsSpace(key[0]) && !IsSpace(key[|key| - 1]))
    requires value == [] || (!IsSpace(value[0]) && !IsSpace(value[|value| - 1]))
    ensures Entry(key + ": " + value) == Some((key, value))
  {
    var line := key + ": " + value;
    assert line[..|key|] == key;
    IndexOfAt(line, ':', |key|);
    assert line[|key| + 1..] == " " + value;
    StripUnchanged(key);
    StripUnchanged(value);
    StripSpaceBefore(value);
  }

  /** A leading space goes with `strip`. */
  lemma StripSpaceBefore(s: string)
    ensures Strip(" " + s) == Strip(s)
  {
    assert (" " + s)[1..] == s;
  }
}
