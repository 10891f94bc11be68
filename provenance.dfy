/** The provenance step of the analysis script: writing the specular scan list, matching
    acquired spectrum files to plan entries and renaming them to carry their angles, then
    reading the renamed files back into a dictionary keyed by role and angle pair, reporting
    which angles lack a partner, and finding a sample's reference.

    The directory is a set of names; `os.listdir` is its listing, given in whatever order
    the system returns it. The scan list is the decoded `scan_list.json`; `show` stands for
    Python's `str` of a float. */
module Provenance {
  import opened Text
  import opened PyDict
  import opened FileNames
  import KeySort
  import Scan

  // ---------------------------------------------------------------- generate_scan_list

  /** The decoded `scan_list.json`: one angle list per plan entry and role. */
  datatype ScanList = ScanList(reference: seq<seq<real>>, sample: seq<seq<real>>)

  /** What `generate_scan_list` does: refuse (returning False) for a wrong number of
      parameters or a parameter that is not a number, fail inside `np.arange` for a zero
      resolution, or write the scan list. */
  datatype GenerateOutcome = WrongCount | NotAngles | ZeroStep | Written(list: ScanList)

  /** Each angle as the pair `[a, a]`: reference and sample at the same angle. */
  function SpecularPairs(angles: seq<real>): (r: seq<seq<real>>)
    ensures |r| == |angles| && forall i :: 0 <= i < |angles| ==> r[i] == [angles[i], angles[i]]
  {
    if angles == [] then [] else SpecularPairs(angles[..|angles| - 1]) + [[angles[|angles| - 1], angles[|angles| - 1]]]
  }

  /** The three parameters through `float`, None when any of them is not a number. */
  function Numbers(params: seq<string>): (r: Option<(real, real, real)>)
    requires |params| == 3
    ensures r.Some? <==> ParseFloat(params[0]).Some? && ParseFloat(params[1]).Some? && ParseFloat(params[2]).Some?
    ensures r.Some? ==> r.value == (ParseFloat(params[0]).value, ParseFloat(params[1]).value, ParseFloat(params[2]).value)
  {
    var a, b, c := ParseFloat(params[0]), ParseFloat(params[1]), ParseFloat(params[2]);
    if a.None? || b.None? || c.None? then None else Some((a.value, b.value, c.value))
  }

  /** The specular list for start, stop and resolution: the angles of
      `np.arange(start, stop + resolution, resolution)`, for both roles. */
  function SpecularList(start: real, stop: real, step: real): Option<ScanList> {
    var angles := Scan.Arange(start, stop + step, step);
    if angles.None? then None
    else
      var pairs := SpecularPairs(angles.value);
      Some(ScanList(pairs, pairs))
  }

  function GenerateScanList(params: seq<string>): (r: GenerateOutcome)
    ensures r.Written? <==> |params| == 3 && Numbers(params).Some? && Numbers(params).value.2 != 0.0
    ensures r.Written? ==> Some(r.list) == SpecularList(Numbers(params).value.0, Numbers(params).value.1, Numbers(params).value.2)
  {
    if |params| != 3 then WrongCount
    else
      var n := Numbers(params);
      if n.None? then NotAngles
      else
        var list := SpecularList(n.value.0, n.value.1, n.value.2);
        if list.None? then ZeroStep else Written(list.value)
  }

  /** A written list holds the same entries for both roles, each `[a, a]` for an angle
      `a` that runs from the start in steps of the resolution and stays short of stop plus
      resolution. */
  lemma SpecularListShape(start: real, stop: real, step: real)
    requires step != 0.0
    ensures SpecularList(start, stop, step).Some?
    ensures var l := SpecularList(start, stop, step).value;
      && l.reference == l.sample
      && (forall i :: 0 <= i < |l.reference| ==> l.reference[i] == [start + i as real * step, start + i as real * step])
      && (step > 0.0 ==> forall i :: 0 <= i < |l.reference| ==> l.reference[i][0] < stop + step)
      && (step < 0.0 ==> forall i :: 0 <= i < |l.reference| ==> l.reference[i][0] > stop + step)
  {
    Scan.ArangeStopsBeforeStop(start, stop + step, step);
  }

  // ---------------------------------------------------------------- exclude_files

  /** `[x for x in xs if keep(x)]` */
  function Filter<T>(xs: seq<T>, keep: T -> bool): (r: seq<T>)
    ensures |r| <= |xs|
  {
    if xs == [] then []
    else
      var last := xs[|xs| - 1];
      Filter(xs[..|xs| - 1], keep) + (if keep(last) then [last] else [])
  }

  /** The filter keeps exactly the elements that pass. */
  lemma {:induction false} FilterMembers<T>(xs: seq<T>, keep: T -> bool, x: T)
    ensures x in Filter(xs, keep) <==> x in xs && keep(x)
    decreases |xs|
  {
    if xs != [] {
      var init := xs[..|xs| - 1];
      FilterMembers(init, keep, x);
      assert xs == init + [xs[|xs| - 1]];
    }
  }

  /** `list.remove(x)`: drops the first occurrence of `x`. */
  function Remove<T(==)>(xs: seq<T>, x: T): seq<T>
    requires x in xs
  {
    if xs[0] == x then xs[1..] else [xs[0]] + Remove(xs[1..], x)
  }

  /** Removing the first `x` after a head that holds none drops exactly that one. */
  lemma {:induction false} RemoveAfter<T>(head: seq<T>, x: T, tail: seq<T>)
    requires x !in head
    ensures Remove(head + [x] + tail, x) == head + tail
    decreases |head|
  {
    if head != [] {
      RemoveAfter(head[1..], x, tail);
      assert (head + [x] + tail)[1..] == head[1..] + [x] + tail;
    }
  }

  /** One round of a remove-as-you-go filter: an element to drop leaves the copy, an
      element to keep stays. */
  lemma FilterStep<T>(xs: seq<T>, i: nat, keep: T -> bool)
    requires i < |xs|
    ensures var copy := Filter(xs[..i], keep) + xs[i..];
      && xs[i] in copy
      && (if keep(xs[i]) then copy else Remove(copy, xs[i])) == Filter(xs[..i + 1], keep) + xs[i + 1..]
  {
    var x := xs[i];
    var head := Filter(xs[..i], keep);
    assert xs[..i + 1][..i] == xs[..i];
    assert xs[i..] == [x] + xs[i + 1..];
    if !keep(x) {
      FilterMembers(xs[..i], keep, x);
      RemoveAfter(head, x, xs[i + 1..]);
      assert head + xs[i..] == head + [x] + xs[i + 1..];
    }
  }

  predicate IsUntagged(name: string) {
    !Tagged(name)
  }

  /** The names not yet tagged with angles, in order. */
  function Untagged(files: seq<string>): seq<string> {
    Filter(files, IsUntagged)
  }

  /** `exclude_files`: a copy of the list from which every tagged name is removed as the
      loop meets it; the input is not changed. */
  method ExcludeFiles(files: seq<string>) returns (kept: seq<string>)
    ensures kept == Untagged(files)
  {
    kept := files;
    for i := 0 to |files|
      invariant kept == Filter(files[..i], IsUntagged) + files[i..]
    {
      var file := files[i];
      FilterStep(files, i, IsUntagged);
      if Tagged(file) {
        kept := Remove(kept, file);
      }
    }
    assert files[..|files|] == files;
  }

  /** An order-preserving selection: the names not yet tagged, each kept in place. */
  lemma UntaggedMembers(files: seq<string>, x: string)
    ensures x in Untagged(files) <==> x in files && !Tagged(x)
  {
    FilterMembers(files, IsUntagged, x);
  }

  /** `[file for file in listing if id in file]` */
  function WithId(listing: seq<string>, id: string): seq<string> {
    Filter(listing, x => Contains(x, id))
  }

  lemma WithIdMembers(listing: seq<string>, id: string, x: string)
    ensures x in WithId(listing, id) <==> x in listing && Contains(x, id)
  {
    FilterMembers(listing, x => Contains(x, id), x);
  }

  // ---------------------------------------------------------------- sorting by sequence number

  /** The sort keys of all names, computed in order as `sorted` does before it compares;
      the first failure is what `sorted` raises. */
  datatype Keyed = AllKeyed(pairs: seq<KeySort.Keyed>) | KeyFailed(error: KeyError)

  function KeyAll(files: seq<string>, seg: nat): (r: Keyed)
    ensures r.AllKeyed? ==> |r.pairs| == |files| && forall i :: 0 <= i < |files| ==> r.pairs[i].1 == files[i]
  {
    if files == [] then AllKeyed([])
    else
      var k := SequenceKey(files[0], seg);
      if k.NoKey? then KeyFailed(k.error)
      else
        var rest := KeyAll(files[1..], seg);
        if rest.KeyFailed? then rest else AllKeyed([(k.n, files[0])] + rest.pairs)
  }

  function Names(pairs: seq<KeySort.Keyed>): (r: seq<string>)
    ensures |r| == |pairs| && forall i :: 0 <= i < |pairs| ==> r[i] == pairs[i].1
  {
    if pairs == [] then [] else Names(pairs[..|pairs| - 1]) + [pairs[|pairs| - 1].1]
  }

  /** `sorted(files, key=lambda x: int(x.split('_')[seg].split('.')[0]))` */
  datatype Sorted = SortedNames(names: seq<string>) | SortFailed(error: KeyError)

  function SortBySequence(files: seq<string>, seg: nat): Sorted {
    var k := KeyAll(files, seg);
    if k.KeyFailed? then SortFailed(k.error) else SortedNames(Names(KeySort.Sort(k.pairs)))
  }

  lemma {:induction false} NamesOfMultiset(a: seq<KeySort.Keyed>, b: seq<KeySort.Keyed>, x: string)
    requires multiset(a) == multiset(b)
    ensures x in Names(a) <==> x in Names(b)
  {
    if x in Names(a) {
      var i :| 0 <= i < |a| && Names(a)[i] == x;
      assert a[i] in multiset(b);
      var j :| 0 <= j < |b| && b[j] == a[i];
      assert Names(b)[j] == x;
    }
    if x in Names(b) {
      var i :| 0 <= i < |b| && Names(b)[i] == x;
      assert b[i] in multiset(a);
      var j :| 0 <= j < |a| && a[j] == b[i];
      assert Names(a)[j] == x;
    }
  }

  /** Sorting keeps the names and the count, and orders them by sequence number. */
  lemma SortBySequenceSorts(files: seq<string>, seg: nat)
    requires SortBySequence(files, seg).SortedNames?
    ensures var r := SortBySequence(files, seg).names;
      && |r| == |files| && (forall x :: x in r <==> x in files)
      && forall i, j :: 0 <= i < j < |r| ==>
        SequenceKey(r[i], seg).Key? && SequenceKey(r[j], seg).Key? && SequenceKey(r[i], seg).n <= SequenceKey(r[j], seg).n
  {
    var pairs := KeyAll(files, seg).pairs;
    var sorted := KeySort.Sort(pairs);
    KeySort.SortPermutes(pairs);
    KeySort.SortAscending(pairs);
    KeyAllKeys(files, seg);
    forall x ensures x in Names(sorted) <==> x in files {
      NamesOfMultiset(sorted, pairs, x);
    }
    forall i | 0 <= i < |sorted| ensures SequenceKey(sorted[i].1, seg) == Key(sorted[i].0) {
      assert sorted[i] in multiset(pairs);
    }
  }

  lemma {:induction false} KeyAllKeys(files: seq<string>, seg: nat)
    requires KeyAll(files, seg).AllKeyed?
    ensures forall p :: p in KeyAll(files, seg).pairs ==> SequenceKey(p.1, seg) == Key(p.0)
    decreases |files|
  {
    if files != [] {
      KeyAllKeys(files[1..], seg);
    }
  }

  // ---------------------------------------------------------------- rename_files

  datatype PyError = IndexError | ValueError | NameError

  /** How a call of `rename_files` ends: skipped as already renamed, through its loop
      ("Files renamed."), or with an exception. `CountMismatch` is only produced by the
      corrected `RenameCheckedSpec`. */
  datatype RenameEnd = Skipped | Renamed | Raised(error: PyError) | CountMismatch

  /** A file and the plan entry whose angles its new name carries. */
  datatype Move = Move(file: string, angles: seq<real>)

  /** One round of the rename loop: the reference file's and the sample file's rename. */
  datatype Step = Step(reference: Move, sample: Move)

  /** The rounds a call carries out, in order, and how it ends. */
  datatype RenameRun = RenameRun(end: RenameEnd, steps: seq<Step>)

  /** What sorting the two role lists gives: both lists, a ValueError from a key that is
      not an integer (with the reference list if that one was sorted before the sample
      list failed), or an IndexError from a name with too few segments, which nothing
      catches. */
  datatype Sorting = BothSorted(ref: seq<string>, sample: seq<string>) | NotIntegers(sortedRef: Option<seq<string>>) | SortRaised

  /** Lines 65-66: the reference list is sorted first; segment 2 holds the sequence
      number. */
  function SortRoles(refs: seq<string>, samples: seq<string>): Sorting {
    var r := SortBySequence(refs, 2);
    if r.SortFailed? then
      if r.error == MissingSegment then SortRaised else NotIntegers(None)
    else
      var s := SortBySequence(samples, 2);
      if s.SortFailed? then
        if s.error == MissingSegment then SortRaised else NotIntegers(Some(r.names))
      else BothSorted(r.names, s.names)
  }

  predicate AllFloats(pieces: seq<string>) {
    forall k :: 0 <= k < |pieces| ==> ParseFloat(pieces[k]).Some?
  }

  /** The fallback test after a ValueError: segment 2 of the first reference name, before
      its first `.`, split at commas, all parse as floats. Any exception in it is caught. */
  predicate LooksRenamed(refs: seq<string>) {
    refs != [] && |Split(refs[0], '_')| > 2 && AllFloats(Split(Split(Split(refs[0], '_')[2], '.')[0], ','))
  }

  /** The new name of a move: the file keeps its segments but the last, which becomes the
      comma-joined angles of the plan entry, then `.txt`. */
  function Target(m: Move, show: real -> string): string {
    NewName(m.file, AngleTag(m.angles, show))
  }

  /** The rename loop from plan index `i` on, as written: round `i` reads the reference
      plan entry, then the sorted reference file, then the sample plan entry, then the
      sorted sample file, so the first of these that is missing ends the call. */
  function RenameLoop(i: nat, plan: ScanList, sortedRef: Option<seq<string>>, sortedSample: Option<seq<string>>): RenameRun
    decreases |plan.reference| - i
  {
    if i >= |plan.reference| then RenameRun(Renamed, [])
    else if sortedRef.None? then RenameRun(Raised(NameError), [])
    else if i >= |sortedRef.value| then RenameRun(Raised(IndexError), [])
    else if i >= |plan.sample| then RenameRun(Raised(IndexError), [])
    else if sortedSample.None? then RenameRun(Raised(NameError), [])
    else if i >= |sortedSample.value| then RenameRun(Raised(IndexError), [])
    else
      var step := Step(Move(sortedRef.value[i], plan.reference[i]), Move(sortedSample.value[i], plan.sample[i]));
      var rest := RenameLoop(i + 1, plan, sortedRef, sortedSample);
      RenameRun(rest.end, [step] + rest.steps)
  }

  /** `rename_files(dataDir, ref_id, sample_id)` as written, once the scan list is loaded:
      the role lists are the names containing the ids, minus the tagged ones. */
  function RenameFilesSpec(listing: seq<string>, refId: string, sampleId: string, plan: ScanList): RenameRun {
    var refs := Untagged(WithId(listing, refId));
    var samples := Untagged(WithId(listing, sampleId));
    if refs == [] && samples == [] then RenameRun(Skipped, [])
    else
      match SortRoles(refs, samples)
      case SortRaised => RenameRun(Raised(IndexError), [])
      case BothSorted(r, s) => RenameLoop(0, plan, Some(r), Some(s))
      case NotIntegers(r) =>
        if LooksRenamed(refs) then RenameRun(Skipped, []) else RenameLoop(0, plan, r, None)
  }

  /** The rename `rename_files` evidently intends: the same, but it renames nothing when
      the sorted files and the plan entries do not pair up one to one, and it stops with
      the ValueError instead of carrying on when the sort keys are not integers and the
      names do not look renamed. */
  function RenameCheckedSpec(listing: seq<string>, refId: string, sampleId: string, plan: ScanList): RenameRun {
    var refs := Untagged(WithId(listing, refId));
    var samples := Untagged(WithId(listing, sampleId));
    if refs == [] && samples == [] then RenameRun(Skipped, [])
    else
      match SortRoles(refs, samples)
      case SortRaised => RenameRun(Raised(IndexError), [])
      case BothSorted(r, s) =>
        if |r| == |plan.reference| == |s| == |plan.sample| then RenameLoop(0, plan, Some(r), Some(s))
        else RenameRun(CountMismatch, [])
      case NotIntegers(r) =>
        if LooksRenamed(refs) then RenameRun(Skipped, []) else RenameRun(Raised(ValueError), [])
  }

  // ---------------------------------------------------------------- the directory

  /** `os.rename(src, dst)` on a set of names: nothing happens when `src` is missing (the
      OSError is caught in `rename_files`). */
  function Moved(names: set<string>, src: string, dst: string): set<string> {
    if src in names then names - {src} + {dst} else names
  }

  /** The directory after the rounds' renames, reference file first in each round. */
  function ApplySteps(names: set<string>, steps: seq<Step>, show: real -> string): set<string>
    decreases |steps|
  {
    if steps == [] then names
    else
      var st := steps[0];
      var once := Moved(Moved(names, st.reference.file, Target(st.reference, show)), st.sample.file, Target(st.sample, show));
      ApplySteps(once, steps[1..], show)
  }

  lemma {:induction false} ApplyStepsAppend(names: set<string>, steps: seq<Step>, step: Step, show: real -> string)
    ensures ApplySteps(names, steps + [step], show) ==
      Moved(Moved(ApplySteps(names, steps, show), step.reference.file, Target(step.reference, show)),
            step.sample.file, Target(step.sample, show))
    decreases |steps|
  {
    if steps != [] {
      var st := steps[0];
      var once := Moved(Moved(names, st.reference.file, Target(st.reference, show)), st.sample.file, Target(st.sample, show));
      assert ApplySteps(names, steps + [step], show) == ApplySteps(once, steps[1..] + [step], show) by {
        assert (steps + [step])[0] == st && (steps + [step])[1..] == steps[1..] + [step];
      }
      assert ApplySteps(names, steps, show) == ApplySteps(once, steps[1..], show);
      ApplyStepsAppend(once, steps[1..], step, show);
    } else {
      assert [step][1..] == [];
    }
  }

  /** The moves of all rounds, in order. */
  function Moves(steps: seq<Step>): (r: seq<Move>)
    ensures |r| == 2 * |steps|
  {
    if steps == [] then [] else [steps[0].reference, steps[0].sample] + Moves(steps[1..])
  }

  /** After the renames every name is a rename target, or an old name that was no rename
      source. */
  lemma {:induction false} ApplyStepsNames(names: set<string>, steps: seq<Step>, show: real -> string, n: string)
    requires n in ApplySteps(names, steps, show)
    ensures (exists m :: m in Moves(steps) && n == Target(m, show)) || (n in names && forall m :: m in Moves(steps) ==> m.file != n)
    decreases |steps|
  {
    if steps != [] {
      var st := steps[0];
      var once := Moved(Moved(names, st.reference.file, Target(st.reference, show)), st.sample.file, Target(st.sample, show));
      ApplyStepsNames(once, steps[1..], show, n);
      var all := Moves(steps);
      assert all == [st.reference, st.sample] + Moves(steps[1..]);
      if exists m :: m in Moves(steps[1..]) && n == Target(m, show) {
        var m :| m in Moves(steps[1..]) && n == Target(m, show);
        assert m in all;
      } else if n == Target(st.reference, show) {
        assert st.reference in all;
      } else if n == Target(st.sample, show) {
        assert st.sample in all;
      }
    }
  }

  /** The data directory: the names it holds, changed by `os.rename`. */
  class Directory {
    var names: set<string>

    constructor(names: set<string>)
      ensures this.names == names
    {
      this.names := names;
    }

    /** `os.rename(src, dst)`; false stands for the OSError raised when `src` is missing. */
    method Rename(src: string, dst: string) returns (ok: bool)
      modifies this
      ensures ok == (src in old(names))
      ensures names == Moved(old(names), src, dst)
    {
      ok := src in names;
      if ok {
        names := names - {src} + {dst};
      }
    }
  }

  /** Where the loop stops at round `i`, the run from `i` on renames nothing more. */
  lemma RenameLoopStops(i: nat, plan: ScanList, sortedRef: Option<seq<string>>, sortedSample: Option<seq<string>>,
                        done: seq<Step>)
    requires var rest := RenameLoop(i, plan, sortedRef, sortedSample);
      RenameLoop(0, plan, sortedRef, sortedSample) == RenameRun(rest.end, done + rest.steps)
    requires i >= |plan.reference| || sortedRef.None? || i >= |sortedRef.value| || i >= |plan.sample|
      || sortedSample.None? || i >= |sortedSample.value|
    ensures RenameLoop(0, plan, sortedRef, sortedSample) == RenameRun(RenameLoop(i, plan, sortedRef, sortedSample).end, done)
  {
    assert done + [] == done;
  }

  /** A full round: its step, then the run from the next round. */
  lemma RenameLoopRound(i: nat, plan: ScanList, sortedRef: Option<seq<string>>, sortedSample: Option<seq<string>>,
                        done: seq<Step>)
    requires var rest := RenameLoop(i, plan, sortedRef, sortedSample);
      RenameLoop(0, plan, sortedRef, sortedSample) == RenameRun(rest.end, done + rest.steps)
    requires i < |plan.reference| && sortedRef.Some? && i < |sortedRef.value| && i < |plan.sample|
    requires sortedSample.Some? && i < |sortedSample.value|
    ensures var step := Step(Move(sortedRef.value[i], plan.reference[i]), Move(sortedSample.value[i], plan.sample[i]));
      var rest := RenameLoop(i + 1, plan, sortedRef, sortedSample);
      RenameLoop(0, plan, sortedRef, sortedSample) == RenameRun(rest.end, (done + [step]) + rest.steps)
  {
    var step := Step(Move(sortedRef.value[i], plan.reference[i]), Move(sortedSample.value[i], plan.sample[i]));
    var rest := RenameLoop(i + 1, plan, sortedRef, sortedSample);
    assert done + ([step] + rest.steps) == (done + [step]) + rest.steps;
  }

  /** The rename loop of `rename_files` (lines 98-117): round by round it builds both new
      names and renames the two files, each failure of `os.rename` caught. */
  method RenameByPlan(dir: Directory, plan: ScanList, sortedRef: Option<seq<string>>,
                      sortedSample: Option<seq<string>>, show: real -> string) returns (end: RenameEnd)
    modifies dir
    ensures var run := RenameLoop(0, plan, sortedRef, sortedSample);
      end == run.end && dir.names == ApplySteps(old(dir.names), run.steps, show)
  {
    ghost var done: seq<Step> := [];
    var idx := 0;
    while idx < |plan.reference|
      invariant idx <= |plan.reference|
      invariant var rest := RenameLoop(idx, plan, sortedRef, sortedSample);
        RenameLoop(0, plan, sortedRef, sortedSample) == RenameRun(rest.end, done + rest.steps)
      invariant dir.names == ApplySteps(old(dir.names), done, show)
      decreases |plan.reference| - idx
    {
      if sortedRef.None? {
        RenameLoopStops(idx, plan, sortedRef, sortedSample, done);
        return Raised(NameError);
      }
      if idx >= |sortedRef.value| || idx >= |plan.sample| {
        RenameLoopStops(idx, plan, sortedRef, sortedSample, done);
        return Raised(IndexError);
      }
      var refMove := Move(sortedRef.value[idx], plan.reference[idx]);
      var refNew := Target(refMove, show);
      if sortedSample.None? {
        RenameLoopStops(idx, plan, sortedRef, sortedSample, done);
        return Raised(NameError);
      }
      if idx >= |sortedSample.value| {
        RenameLoopStops(idx, plan, sortedRef, sortedSample, done);
        return Raised(IndexError);
      }
      var sampleMove := Move(sortedSample.value[idx], plan.sample[idx]);
      var sampleNew := Target(sampleMove, show);
      var step := Step(refMove, sampleMove);
      RenameLoopRound(idx, plan, sortedRef, sortedSample, done);
      ApplyStepsAppend(old(dir.names), done, step, show);
      var _ := dir.Rename(refMove.file, refNew);
      var _ := dir.Rename(sampleMove.file, sampleNew);
      done := done + [step];
      idx := idx + 1;
    }
    RenameLoopStops(idx, plan, sortedRef, sortedSample, done);
    return Renamed;
  }

  /** `rename_files(dataDir, ref_id, sample_id)` once `scan_list.json` is loaded into
      `plan`; `listing` is what `os.listdir` returned (both comprehensions read the same
      directory): it ends as `RenameFilesSpec` says and leaves the directory renamed step
      by step as that run says. */
  method RenameFiles(dir: Directory, listing: seq<string>, refId: string, sampleId: string, plan: ScanList,
                     show: real -> string) returns (end: RenameEnd)
    modifies dir
    ensures var run := RenameFilesSpec(listing, refId, sampleId, plan);
      end == run.end && dir.names == ApplySteps(old(dir.names), run.steps, show)
  {
    var refs := ExcludeFiles(WithId(listing, refId));
    var samples := ExcludeFiles(WithId(listing, sampleId));
    ghost var run := RenameFilesSpec(listing, refId, sampleId, plan);
    if |refs| == 0 && |samples| == 0 {
      assert run == RenameRun(Skipped, []);
      return Skipped;
    }
    var sorting := SortStage(refs, samples);
    match sorting
    case SortRaised =>
      assert run == RenameRun(Raised(IndexError), []);
      return Raised(IndexError);
    case BothSorted(r, s) =>
      assert run == RenameLoop(0, plan, Some(r), Some(s));
      end := RenameByPlan(dir, plan, Some(r), Some(s), show);
    case NotIntegers(r) =>
      if LooksRenamed(refs) {
        assert run == RenameRun(Skipped, []);
        return Skipped;
      }
      assert run == RenameLoop(0, plan, r, None);
      end := RenameByPlan(dir, plan, r, None, show);
  }

  /** Lines 64-74 up to the fallback test: the reference list is sorted, then the sample
      list; a ValueError leaves the lists not yet sorted undefined. */
  method SortStage(refs: seq<string>, samples: seq<string>) returns (sorting: Sorting)
    ensures sorting == SortRoles(refs, samples)
  {
    var r := SortBySequence(refs, 2);
    if r.SortFailed? {
      return if r.error == MissingSegment then SortRaised else NotIntegers(None);
    }
    var s := SortBySequence(samples, 2);
    if s.SortFailed? {
      return if s.error == MissingSegment then SortRaised else NotIntegers(Some(r.names));
    }
    return BothSorted(r.names, s.names);
  }

  // ---------------------------------------------------------------- what a run renames

  /** How many rounds the loop completes when both lists are sorted: the shortest of the
      two plan lists and the two file lists. */
  function Reach(plan: ScanList, r: seq<string>, s: seq<string>): (n: nat)
    ensures n <= |plan.reference| && n <= |r| && n <= |plan.sample| && n <= |s|
    ensures n == |plan.reference| || n == |r| || n == |plan.sample| || n == |s|
  {
    var a := if |plan.reference| <= |r| then |plan.reference| else |r|;
    var b := if |plan.sample| <= |s| then |plan.sample| else |s|;
    if a <= b then a else b
  }

  /** With both lists sorted the loop runs `Reach` rounds and pairs files and plan entries
      by position; it reports "Files renamed." exactly when the reference plan ran out
      first, and otherwise stops with an IndexError. */
  lemma {:induction false} LoopRuns(i: nat, plan: ScanList, r: seq<string>, s: seq<string>)
    requires i <= Reach(plan, r, s)
    ensures var run := RenameLoop(i, plan, Some(r), Some(s));
      && run.end == (if Reach(plan, r, s) == |plan.reference| then Renamed else Raised(IndexError))
      && |run.steps| == Reach(plan, r, s) - i
      && forall k :: 0 <= k < |run.steps| ==>
        run.steps[k] == Step(Move(r[i + k], plan.reference[i + k]), Move(s[i + k], plan.sample[i + k]))
    decreases Reach(plan, r, s) - i
  {
    if i < Reach(plan, r, s) {
      LoopRuns(i + 1, plan, r, s);
      var rest := RenameLoop(i + 1, plan, Some(r), Some(s)).steps;
      var steps := RenameLoop(i, plan, Some(r), Some(s)).steps;
      forall k | 0 <= k < |steps|
        ensures steps[k] == Step(Move(r[i + k], plan.reference[i + k]), Move(s[i + k], plan.sample[i + k]))
      {
        if k > 0 {
          assert steps[k] == rest[k - 1];
        }
      }
    }
  }

  /** As written, more reference files than plan entries: the run reports "Files
      renamed." but the extra files keep their untagged names. */
  lemma ExtraFilesKeptAsWritten(plan: ScanList, r: seq<string>, s: seq<string>)
    requires |plan.reference| < |r| && |plan.reference| <= |plan.sample| && |plan.reference| <= |s|
    requires forall i, j :: 0 <= i < j < |r| ==> r[i] != r[j]
    ensures var run := RenameLoop(0, plan, Some(r), Some(s));
      && run.end == Renamed
      && forall k, t :: |plan.reference| <= k < |r| && 0 <= t < |run.steps| ==> run.steps[t].reference.file != r[k]
  {
    LoopRuns(0, plan, r, s);
  }

  /** As written, fewer reference files than plan entries: the run renames as many pairs
      as there are files and then stops with an IndexError. */
  lemma MissingFilesRaiseAsWritten(plan: ScanList, r: seq<string>, s: seq<string>)
    requires |r| < |plan.reference| && |r| <= |plan.sample| && |r| <= |s|
    ensures var run := RenameLoop(0, plan, Some(r), Some(s));
      run.end == Raised(IndexError) && |run.steps| == |r|
  {
    LoopRuns(0, plan, r, s);
  }

  /** As written, when the sort keys are not integers and the names do not look renamed,
      the error is printed and the run carries on: with an empty plan it reports "Files
      renamed." having renamed nothing, and otherwise it fails on the undefined list. */
  lemma CarriesOnAsWritten(listing: seq<string>, refId: string, sampleId: string, plan: ScanList)
    requires var refs := Untagged(WithId(listing, refId));
      refs != [] && SortRoles(refs, Untagged(WithId(listing, sampleId))).NotIntegers? && !LooksRenamed(refs)
    ensures var run := RenameFilesSpec(listing, refId, sampleId, plan);
      run.steps == [] && (plan.reference == [] ==> run.end == Renamed) && (plan.reference != [] ==> run.end.Raised?)
  {
    var refs := Untagged(WithId(listing, refId));
    var sorting := SortRoles(refs, Untagged(WithId(listing, sampleId)));
    assert RenameFilesSpec(listing, refId, sampleId, plan) == RenameLoop(0, plan, sorting.sortedRef, None);
    LoopWithoutSamples(plan, sorting.sortedRef);
  }

  /** With no sorted sample list the loop renames nothing: it ends at once when the plan
      is empty and raises in its first round otherwise. */
  lemma LoopWithoutSamples(plan: ScanList, sortedRef: Option<seq<string>>)
    ensures var run := RenameLoop(0, plan, sortedRef, None);
      run.steps == [] && (plan.reference == [] ==> run.end == Renamed) && (plan.reference != [] ==> run.end.Raised?)
  {
  }

  /** In the corrected run the same case stops with the ValueError. */
  lemma StopsWhenChecked(listing: seq<string>, refId: string, sampleId: string, plan: ScanList)
    requires var refs := Untagged(WithId(listing, refId));
      refs != [] && SortRoles(refs, Untagged(WithId(listing, sampleId))).NotIntegers? && !LooksRenamed(refs)
    ensures RenameCheckedSpec(listing, refId, sampleId, plan) == RenameRun(Raised(ValueError), [])
  {
  }

  /** A corrected run that reports "Files renamed." has moved every untagged file of
      either role. */
  lemma CheckedRenamesEvery(listing: seq<string>, refId: string, sampleId: string, plan: ScanList, x: string)
    requires RenameCheckedSpec(listing, refId, sampleId, plan).end == Renamed
    requires x in Untagged(WithId(listing, refId)) || x in Untagged(WithId(listing, sampleId))
    ensures exists m :: m in Moves(RenameCheckedSpec(listing, refId, sampleId, plan).steps) && m.file == x
  {
    var r, s := CheckedRunLoops(listing, refId, sampleId, plan);
    LoopMovesEvery(plan, r, s, x);
  }

  /** A corrected run that reports "Files renamed." sorted both lists, found them as long
      as the plan, and ran the loop over them. */
  lemma CheckedRunLoops(listing: seq<string>, refId: string, sampleId: string, plan: ScanList)
    returns (r: seq<string>, s: seq<string>)
    requires RenameCheckedSpec(listing, refId, sampleId, plan).end == Renamed
    ensures SortRoles(Untagged(WithId(listing, refId)), Untagged(WithId(listing, sampleId))) == BothSorted(r, s)
    ensures |r| == |plan.reference| == |s| == |plan.sample|
    ensures RenameCheckedSpec(listing, refId, sampleId, plan).steps == RenameLoop(0, plan, Some(r), Some(s)).steps
    ensures forall x :: x in r <==> x in Untagged(WithId(listing, refId))
    ensures forall x :: x in s <==> x in Untagged(WithId(listing, sampleId))
  {
    var refs := Untagged(WithId(listing, refId));
    var samples := Untagged(WithId(listing, sampleId));
    var sorting := SortRoles(refs, samples);
    r, s := sorting.ref, sorting.sample;
    assert r == SortBySequence(refs, 2).names && s == SortBySequence(samples, 2).names;
    SortBySequenceSorts(refs, 2);
    SortBySequenceSorts(samples, 2);
  }

  /** When the lists and the plan have one length, every listed file is moved by some
      round of the loop. */
  lemma LoopMovesEvery(plan: ScanList, r: seq<string>, s: seq<string>, x: string)
    requires |r| == |plan.reference| == |s| == |plan.sample|
    requires x in r || x in s
    ensures exists m :: m in Moves(RenameLoop(0, plan, Some(r), Some(s)).steps) && m.file == x
  {
    LoopRuns(0, plan, r, s);
    var steps := RenameLoop(0, plan, Some(r), Some(s)).steps;
    var k;
    if x in r {
      k :| 0 <= k < |r| && r[k] == x;
    } else {
      k :| 0 <= k < |s| && s[k] == x;
    }
    MovesOfStep(steps, k);
  }

  lemma {:induction false} MovesOfStep(steps: seq<Step>, k: nat)
    requires k < |steps|
    ensures steps[k].reference in Moves(steps) && steps[k].sample in Moves(steps)
    decreases k
  {
    if k > 0 {
      MovesOfStep(steps[1..], k - 1);
    }
  }

  lemma {:induction false} MovesMembers(steps: seq<Step>, m: Move)
    requires m in Moves(steps)
    ensures exists k :: 0 <= k < |steps| && (m == steps[k].reference || m == steps[k].sample)
    decreases |steps|
  {
    if m != steps[0].reference && m != steps[0].sample {
      MovesMembers(steps[1..], m);
      var k :| 0 <= k < |steps[1..]| && (m == steps[1..][k].reference || m == steps[1..][k].sample);
      assert steps[1..][k] == steps[k + 1];
    }
  }

  /** Every move of a corrected run that reports "Files renamed." takes its angles from
      a plan entry. */
  lemma CheckedMovesFromPlan(listing: seq<string>, refId: string, sampleId: string, plan: ScanList, m: Move)
    requires RenameCheckedSpec(listing, refId, sampleId, plan).end == Renamed
    requires m in Moves(RenameCheckedSpec(listing, refId, sampleId, plan).steps)
    ensures m.angles in plan.reference || m.angles in plan.sample
  {
    var r, s := CheckedRunLoops(listing, refId, sampleId, plan);
    var steps := RenameCheckedSpec(listing, refId, sampleId, plan).steps;
    LoopRuns(0, plan, r, s);
    MovesMembers(steps, m);
  }

  /** Every new name is tagged when the plan entries hold at least two angles and no
      angle's text holds `_`. */
  lemma TargetTagged(m: Move, show: real -> string)
    requires |m.angles| >= 2 && forall a :: '_' !in show(a)
    ensures Tagged(Target(m, show))
  {
    AngleTagShape(m.angles, show);
    NewNameTagged(m.file, AngleTag(m.angles, show));
  }

  lemma NoneUntagged(files: seq<string>)
    requires forall x :: x in files ==> Tagged(x)
    ensures Untagged(files) == []
  {
    if Untagged(files) != [] {
      UntaggedMembers(files, Untagged(files)[0]);
    }
  }

  /** Renaming settles: after a corrected run that reports "Files renamed.", with plan
      entries of at least two angles whose texts hold no `_`, every name in the
      directory that holds either id is tagged, so a second call, as written or
      corrected and whatever its plan, skips. `listing` lists the directory before the
      run and `after` lists it after. */
  lemma CheckedRunSettles(listing: seq<string>, refId: string, sampleId: string, plan: ScanList,
                          show: real -> string, names: set<string>, after: seq<string>, plan2: ScanList)
    requires RenameCheckedSpec(listing, refId, sampleId, plan).end == Renamed
    requires forall e :: e in plan.reference ==> |e| >= 2
    requires forall e :: e in plan.sample ==> |e| >= 2
    requires forall a :: '_' !in show(a)
    requires forall x :: x in names ==> x in listing
    requires forall x :: x in after ==> x in ApplySteps(names, RenameCheckedSpec(listing, refId, sampleId, plan).steps, show)
    ensures RenameFilesSpec(after, refId, sampleId, plan2).end == Skipped
    ensures RenameCheckedSpec(after, refId, sampleId, plan2).end == Skipped
  {
    var steps := RenameCheckedSpec(listing, refId, sampleId, plan).steps;
    forall id, x | id in {refId, sampleId} && x in WithId(after, id) ensures Tagged(x) {
      WithIdMembers(after, id, x);
      ApplyStepsNames(names, steps, show, x);
      if exists m :: m in Moves(steps) && x == Target(m, show) {
        var m :| m in Moves(steps) && x == Target(m, show);
        CheckedMovesFromPlan(listing, refId, sampleId, plan, m);
        TargetTagged(m, show);
      } else if !Tagged(x) {
        WithIdMembers(listing, id, x);
        UntaggedMembers(WithId(listing, id), x);
        CheckedRenamesEvery(listing, refId, sampleId, plan, x);
      }
    }
    NoneUntagged(WithId(after, refId));
    NoneUntagged(WithId(after, sampleId));
  }
}
