/** `AngleReflectance` of the analysis script: the renamed spectrum files grouped by role
    and angle pair, the report of angle pairs lacking a partner, and the reference lookup
    through the reference-axis mapping. A loaded file is represented by its name; its
    contents are read by `SpectrumFile`. */
module Analysis {
  import opened Text
  import opened PyDict
  import opened FileNames
  import Provenance

  type Angles = (real, real)

  /** Files grouped by a role key, then by an angle key, as `load_data` builds them. */
  type Grouping<R, A> = Dict<R, Dict<A, string>>

  /** `angle_dict`: role, then angle pair, to the file. */
  type DataDict = Grouping<Role, Angles>

  // ---------------------------------------------------------------- load_data

  /** A spectrum file once `ReflectionFile` has parsed its name into a role and angles. */
  datatype Loaded<R, A> = Loaded(name: string, role: R, angles: A)

  predicate IsText(name: string) {
    EndsWith(name, ".txt")
  }

  /** `[file for file in os.listdir(dir) if file.endswith('.txt')]` */
  function TextFiles(listing: seq<string>): seq<string> {
    Provenance.Filter(listing, IsText)
  }

  /** `ReflectionFile(file)` as far as its name goes: None where `_parse_filename` finds
      no angle pair and raises IndexError. */
  function Load(name: string): Option<Loaded<Role, Angles>> {
    var angles := AnglesOf(name);
    if angles.None? then None else Some(Loaded(name, RoleOf(name), angles.value))
  }

  /** `[f(x) for x in xs]` where any failure ends the whole comprehension. */
  function MapAll<A, B>(xs: seq<A>, f: A -> Option<B>): (r: Option<seq<B>>)
    ensures r.Some? <==> forall i :: 0 <= i < |xs| ==> f(xs[i]).Some?
    ensures r.Some? ==> |r.value| == |xs| && forall i :: 0 <= i < |xs| ==> Some(r.value[i]) == f(xs[i])
  {
    if xs == [] then Some([])
    else
      var init := MapAll(xs[..|xs| - 1], f);
      var y := f(xs[|xs| - 1]);
      assert forall i :: 0 <= i < |xs| - 1 ==> xs[..|xs| - 1][i] == xs[i];
      if init.None? || y.None? then None else Some(init.value + [y.value])
  }

  /** `[ReflectionFile(file) for file in files]` */
  function ParseAll(files: seq<string>): Option<seq<Loaded<Role, Angles>>> {
    MapAll(files, Load)
  }

  /** `angle_dict[role][angles] = name`, the role's dictionary created empty first when
      the role is new. */
  function Filed<R(==), A(==)>(d: Grouping<R, A>, f: Loaded<R, A>): Grouping<R, A> {
    var inner := Get(d, f.role);
    Set(d, f.role, Set(if inner.None? then [] else inner.value, f.angles, f.name))
  }

  /** The grouping loop of `load_data`, file by file. */
  function Group<R(==), A(==)>(loaded: seq<Loaded<R, A>>): Grouping<R, A> {
    if loaded == [] then [] else Filed(Group(loaded[..|loaded| - 1]), loaded[|loaded| - 1])
  }

  /** `load_data`: None when some name of a text file has no angle pair. */
  function LoadDataSpec(listing: seq<string>): Option<DataDict> {
    var loaded := ParseAll(TextFiles(listing));
    if loaded.None? then None else Some(Group(loaded.value))
  }

  /** The name of the last file with this role and angle pair: the one `load_data` keeps. */
  function LastFile<R(==), A(==)>(loaded: seq<Loaded<R, A>>, role: R, angles: A): (r: Option<string>)
    ensures r.None? <==> forall k :: 0 <= k < |loaded| ==> !(loaded[k].role == role && loaded[k].angles == angles)
  {
    if loaded == [] then None
    else
      var f := loaded[|loaded| - 1];
      var init := loaded[..|loaded| - 1];
      assert forall k :: 0 <= k < |init| ==> init[k] == loaded[k];
      if f.role == role && f.angles == angles then Some(f.name) else LastFile(init, role, angles)
  }

  /** The file `LastFile` names was loaded with that role and angle pair, and no file
      after it was. */
  lemma {:induction false} LastFileIsLast<R, A>(loaded: seq<Loaded<R, A>>, role: R, angles: A)
    requires LastFile(loaded, role, angles).Some?
    ensures exists k :: 0 <= k < |loaded| && loaded[k] == Loaded(LastFile(loaded, role, angles).value, role, angles) &&
                        forall j :: k < j < |loaded| ==> !(loaded[j].role == role && loaded[j].angles == angles)
    decreases |loaded|
  {
    var f := loaded[|loaded| - 1];
    var init := loaded[..|loaded| - 1];
    if f.role == role && f.angles == angles {
      assert loaded[|loaded| - 1] == Loaded(f.name, role, angles);
    } else {
      LastFileIsLast(init, role, angles);
      var k :| 0 <= k < |init| && init[k] == Loaded(LastFile(init, role, angles).value, role, angles) &&
               forall j :: k < j < |init| ==> !(init[j].role == role && init[j].angles == angles);
      assert loaded[k] == init[k];
      assert forall j :: k < j < |loaded| - 1 ==> loaded[j] == init[j];
    }
  }

  /** A role has a dictionary exactly when some file has that role. */
  lemma {:induction false} GroupHasRole<R, A>(loaded: seq<Loaded<R, A>>, role: R)
    ensures Get(Group(loaded), role).Some? <==> exists k :: 0 <= k < |loaded| && loaded[k].role == role
    decreases |loaded|
  {
    if loaded != [] {
      var init := loaded[..|loaded| - 1];
      var f := loaded[|loaded| - 1];
      GroupHasRole(init, role);
      var d := Group(init);
      assert Group(loaded) == Filed(d, f);
      var inner := Get(d, f.role);
      GetSet(d, f.role, Set(if inner.None? then [] else inner.value, f.angles, f.name), role);
      SomeRoleSnoc(loaded, role);
    }
  }

  ghost predicate SomeRole<R, A>(loaded: seq<Loaded<R, A>>, role: R) {
    exists k :: 0 <= k < |loaded| && loaded[k].role == role
  }

  /** Some file of a non-empty list has the role exactly when one before the last has it
      or the last has it. */
  lemma SomeRoleSnoc<R, A>(loaded: seq<Loaded<R, A>>, role: R)
    requires loaded != []
    ensures SomeRole(loaded, role) <==> SomeRole(loaded[..|loaded| - 1], role) || loaded[|loaded| - 1].role == role
  {
    var init := loaded[..|loaded| - 1];
    if exists k :: 0 <= k < |init| && init[k].role == role {
      var k :| 0 <= k < |init| && init[k].role == role;
      assert loaded[k] == init[k];
    }
    if exists k :: 0 <= k < |loaded| && loaded[k].role == role {
      var k :| 0 <= k < |loaded| && loaded[k].role == role;
      if k < |init| {
        assert init[k] == loaded[k];
      }
    }
  }

  /** In a role's dictionary every angle pair reads the last file with that role and
      pair: later files override earlier ones. */
  lemma {:induction false} GroupReads<R, A>(loaded: seq<Loaded<R, A>>, role: R, angles: A)
    requires Get(Group(loaded), role).Some?
    ensures Get(Get(Group(loaded), role).value, angles) == LastFile(loaded, role, angles)
    decreases |loaded|
  {
    var init := loaded[..|loaded| - 1];
    var f := loaded[|loaded| - 1];
    var d := Group(init);
    var inner := Get(d, f.role);
    var innerNew := Set(if inner.None? then [] else inner.value, f.angles, f.name);
    GetSet(d, f.role, innerNew, role);
    if f.role == role {
      GetSet(if inner.None? then [] else inner.value, f.angles, f.name, angles);
      if inner.Some? {
        GroupReads(init, role, angles);
      } else {
        GroupHasRole(init, role);
        assert forall k :: 0 <= k < |init| ==> init[k].role != role;
        assert LastFile(init, role, angles).None?;
      }
    } else {
      GroupReads(init, role, angles);
    }
  }

  /** One more file: it is filed into the grouping of the files before it. */
  lemma GroupSnoc<R, A>(loaded: seq<Loaded<R, A>>, i: nat)
    requires i < |loaded|
    ensures Group(loaded[..i + 1]) == Filed(Group(loaded[..i]), loaded[i])
  {
    assert loaded[..i + 1][..i] == loaded[..i];
  }

  /** Filing as `load_data` writes it: create the role's dictionary when missing, then
      assign into it. */
  lemma FiledInTwoSteps<R, A>(d: Grouping<R, A>, f: Loaded<R, A>)
    ensures var d1 := if f.role !in Keys(d) then Set(d, f.role, []) else d;
      Get(d1, f.role).Some? && Filed(d, f) == Set(d1, f.role, Set(Get(d1, f.role).value, f.angles, f.name))
  {
    if f.role !in Keys(d) {
      GetSet(d, f.role, [], f.role);
      SetTwice(d, f.role, [], Set([], f.angles, f.name));
    }
  }

  /** `load_data`: the names ending in `.txt` are parsed, then grouped by role and angle
      pair. */
  method LoadData(listing: seq<string>) returns (d: Option<DataDict>)
    ensures d == LoadDataSpec(listing)
  {
    var loaded := ReadFiles(TextFiles(listing), Load);
    if loaded.None? {
      return None;
    }
    var angleDict := GroupFiles(loaded.value);
    return Some(angleDict);
  }

  /** `reflection_files = [ReflectionFile(file) for file in files]`, with `parse`
      standing for the constructor's reading of a name. */
  method ReadFiles<B>(files: seq<string>, parse: string -> Option<B>) returns (r: Option<seq<B>>)
    ensures r == MapAll(files, parse)
  {
    var loaded: seq<B> := [];
    for i := 0 to |files|
      invariant MapAll(files[..i], parse) == Some(loaded)
    {
      assert files[..i + 1][..i] == files[..i];
      var f := parse(files[i]);
      if f.None? {
        return None;
      }
      loaded := loaded + [f.value];
    }
    assert files[..|files|] == files;
    return Some(loaded);
  }

  /** The grouping loop of `load_data`. */
  method GroupFiles<R(==), A(==)>(loaded: seq<Loaded<R, A>>) returns (angleDict: Grouping<R, A>)
    ensures angleDict == Group(loaded)
  {
    angleDict := [];
    for i := 0 to |loaded|
      invariant angleDict == Group(loaded[..i])
    {
      var f := loaded[i];
      GroupSnoc(loaded, i);
      FiledInTwoSteps(angleDict, f);
      if f.role !in Keys(angleDict) {
        angleDict := Set(angleDict, f.role, []);
      }
      var inner := Get(angleDict, f.role).value;
      angleDict := Set(angleDict, f.role, Set(inner, f.angles, f.name));
    }
    assert loaded[..|loaded|] == loaded;
  }

  // ---------------------------------------------------------------- report_info

  /** The angle pairs of a role's dictionary. */
  function InnerKeys(inner: Dict<Angles, string>): set<Angles> {
    set k | k in Keys(inner)
  }

  /** The angle pairs `report_info` collects over the roles: those of the reference role
      when `reference` holds, otherwise those of every other role. */
  function RoleAngles(d: DataDict, reference: bool): set<Angles> {
    if d == [] then {}
    else
      var last := d[|d| - 1];
      RoleAngles(d[..|d| - 1], reference) + (if (last.0 == Reference) == reference then InnerKeys(last.1) else {})
  }

  /** Which angle pairs lack a partner; only the reference side is reported when both
      sides lack some (`elif`). */
  datatype Missing = MissingInSamples(angles: set<Angles>) | MissingInReferences(angles: set<Angles>) | AllAccounted

  /** The report: whether the counts differ, and the missing partners. */
  datatype Report = Report(countWarning: bool, missing: Missing)

  function ReportOf(refs: set<Angles>, samples: set<Angles>): (r: Report)
    ensures r.missing == AllAccounted <==> refs == samples
    ensures r.missing == AllAccounted ==> !r.countWarning
    ensures r.missing.MissingInSamples? ==> r.missing.angles == refs - samples != {}
    ensures r.missing.MissingInReferences? ==> r.missing.angles == samples - refs && refs < samples && r.countWarning
  {
    var countWarning := |refs| != |samples|;
    if refs - samples != {} then Report(countWarning, MissingInSamples(refs - samples))
    else if samples - refs != {} then
      assert refs <= samples && refs != samples by {
        assert forall x :: x in refs ==> x in samples by {
          forall x | x in refs ensures x in samples {
            assert x !in refs - samples;
          }
        }
      }
      ProperSubsetSmaller(refs, samples);
      Report(countWarning, MissingInReferences(samples - refs))
    else
      assert refs == samples by {
        assert forall x :: x in refs ==> x !in refs - samples;
        assert forall x :: x in samples ==> x !in samples - refs;
      }
      Report(countWarning, AllAccounted)
  }

  lemma ProperSubsetSmaller(a: set<Angles>, b: set<Angles>)
    requires a < b
    ensures |a| < |b|
  {
    assert b - a != {};
    var x :| x in b - a;
    assert a <= b - {x};
    SubsetNoLarger(a, b - {x});
  }

  lemma {:induction false} SubsetNoLarger(a: set<Angles>, b: set<Angles>)
    requires a <= b
    ensures |a| <= |b|
    decreases |a|
  {
    if a != {} {
      var x :| x in a;
      SubsetNoLarger(a - {x}, b - {x});
    }
  }

  /** `report_info`: both loops collect the angle pairs of each role, then the report is
      made from the two sets; it always returns True. */
  method ReportInfo(d: DataDict) returns (report: Report, ok: bool)
    ensures report == ReportOf(RoleAngles(d, true), RoleAngles(d, false)) && ok
  {
    var references: set<Angles> := {};
    var samples: set<Angles> := {};
    for i := 0 to |d|
      invariant references == RoleAngles(d[..i], true) && samples == RoleAngles(d[..i], false)
    {
      var (fileType, fileDict) := d[i];
      assert d[..i + 1][..i] == d[..i];
      for j := 0 to |fileDict|
        invariant fileType == Reference ==> references == RoleAngles(d[..i], true) + InnerKeys(fileDict[..j])
        invariant fileType == Reference ==> samples == RoleAngles(d[..i], false)
        invariant fileType != Reference ==> samples == RoleAngles(d[..i], false) + InnerKeys(fileDict[..j])
        invariant fileType != Reference ==> references == RoleAngles(d[..i], true)
      {
        InnerKeysSnoc(fileDict, j);
        if fileType == Reference {
          references := references + {fileDict[j].0};
        } else {
          samples := samples + {fileDict[j].0};
        }
      }
      assert fileDict[..|fileDict|] == fileDict;
    }
    assert d[..|d|] == d;
    return ReportOf(references, samples), true;
  }

  lemma InnerKeysSnoc(inner: Dict<Angles, string>, j: nat)
    requires j < |inner|
    ensures InnerKeys(inner[..j + 1]) == InnerKeys(inner[..j]) + {inner[j].0}
  {
    assert inner[..j + 1] == inner[..j] + [inner[j]];
    forall k ensures k in Keys(inner[..j + 1]) <==> k in Keys(inner[..j]) || k == inner[j].0 {
      if k in Keys(inner[..j + 1]) {
        var t :| 0 <= t < j + 1 && Keys(inner[..j + 1])[t] == k;
        if t < j {
          assert Keys(inner[..j])[t] == k;
        }
      }
      if k in Keys(inner[..j]) {
        var t :| 0 <= t < j && Keys(inner[..j])[t] == k;
        assert Keys(inner[..j + 1])[t] == k;
      }
      if k == inner[j].0 {
        assert Keys(inner[..j + 1])[j] == k;
      }
    }
  }

  // ---------------------------------------------------------------- find_reference

  /** `t[i]` for a pair: indices 0 and -2 give the first angle, 1 and -1 the second, any
      other raises IndexError. */
  function PairIndex(t: Angles, i: int): (r: Option<real>)
    ensures r.Some? <==> -2 <= i <= 1
    ensures r.Some? ==> r.value == if i == 0 || i == -2 then t.0 else t.1
  {
    if i == 0 || i == -2 then Some(t.0)
    else if i == 1 || i == -1 then Some(t.1)
    else None
  }

  /** How `find_reference` fails: an axis index out of range (IndexError), no reference
      dictionary at all (KeyError), or no candidate (AssertionError). */
  datatype LookupError = AxisIndexError | NoReferenceRole | NoCandidate

  datatype Lookup = Found(angles: Angles) | LookupFailed(error: LookupError)

  /** The reference pairs, in key order, whose component `axis` equals `a`. */
  function Matching(keys: seq<Angles>, axis: int, a: real): seq<Angles> {
    Provenance.Filter(keys, k => PairIndex(k, axis) == Some(a))
  }

  /** `find_reference(angles)` with mapping `axis` = (sample axis, reference axis): the
      lookup, and whether a "Multiple references found" warning is added. */
  function FindReferenceSpec(d: DataDict, axis: (int, int), angles: Angles): (Lookup, bool) {
    var sampleAngle := PairIndex(angles, axis.0);
    if sampleAngle.None? then (LookupFailed(AxisIndexError), false)
    else
      var refs := Get(d, Reference);
      if refs.None? then (LookupFailed(NoReferenceRole), false)
      else
        var keys := Keys(refs.value);
        // the comprehension indexes the first key before it compares anything
        if keys != [] && !(-2 <= axis.1 <= 1) then (LookupFailed(AxisIndexError), false)
        else
          var candidates := Matching(keys, axis.1, sampleAngle.value);
          if candidates == [] then (LookupFailed(NoCandidate), false)
          else (Found(candidates[0]), |candidates| > 1)
  }

  /** The first of a filtered list is the first element of the list that passes. */
  lemma {:induction false} FilterFirst<T>(xs: seq<T>, keep: T -> bool)
    requires Provenance.Filter(xs, keep) != []
    ensures exists i :: 0 <= i < |xs| && xs[i] == Provenance.Filter(xs, keep)[0] && keep(xs[i]) &&
                        forall j :: 0 <= j < i ==> !keep(xs[j])
    decreases |xs|
  {
    var init := xs[..|xs| - 1];
    if Provenance.Filter(init, keep) != [] {
      FilterFirst(init, keep);
      var i :| 0 <= i < |init| && init[i] == Provenance.Filter(init, keep)[0] && keep(init[i]) &&
               forall j :: 0 <= j < i ==> !keep(init[j]);
      assert xs[i] == init[i];
      forall j | 0 <= j < i ensures !keep(xs[j]) {
        assert xs[j] == init[j];
      }
    } else {
      forall j | 0 <= j < |xs| - 1 ensures !keep(xs[j]) {
        assert xs[j] == init[j];
        Provenance.FilterMembers(init, keep, xs[j]);
      }
    }
  }

  /** A found reference is the first reference pair, in the order the pairs were loaded,
      whose component on the reference axis equals the sample's component on the sample
      axis. */
  lemma FoundIsFirstMatch(d: DataDict, axis: (int, int), angles: Angles)
    requires FindReferenceSpec(d, axis, angles).0.Found?
    ensures exists i :: 0 <= i < |Keys(Get(d, Reference).value)| && IsFirstMatch(Keys(Get(d, Reference).value), i, axis, angles)
                        && Keys(Get(d, Reference).value)[i] == FindReferenceSpec(d, axis, angles).0.angles
  {
    var keys := Keys(Get(d, Reference).value);
    var a := PairIndex(angles, axis.0).value;
    var keep := k => PairIndex(k, axis.1) == Some(a);
    assert Matching(keys, axis.1, a) == Provenance.Filter(keys, keep);
    FilterFirst(keys, keep);
    var i :| 0 <= i < |keys| && keys[i] == Provenance.Filter(keys, keep)[0] && keep(keys[i]) &&
             forall j :: 0 <= j < i ==> !keep(keys[j]);
    assert keys[i] == FindReferenceSpec(d, axis, angles).0.angles;
    assert PairIndex(angles, axis.0) == Some(a);
    forall j | 0 <= j < i ensures PairIndex(keys[j], axis.1) != PairIndex(angles, axis.0) {
      assert !keep(keys[j]);
    }
    assert PairIndex(keys[i], axis.1) == PairIndex(angles, axis.0);
    assert IsFirstMatch(keys, i, axis, angles);
  }

  /** `keys[i]` is the first key whose component on the reference axis equals the
      sample's component on the sample axis. */
  predicate IsFirstMatch(keys: seq<Angles>, i: nat, axis: (int, int), angles: Angles)
    requires i < |keys|
  {
    && PairIndex(keys[i], axis.1) == PairIndex(angles, axis.0)
    && forall j :: 0 <= j < i ==> PairIndex(keys[j], axis.1) != PairIndex(angles, axis.0)
  }

  /** No candidate exactly when the axes are usable, the reference role exists, and no
      reference pair matches. */
  lemma NoCandidateIff(d: DataDict, axis: (int, int), angles: Angles)
    ensures FindReferenceSpec(d, axis, angles).0 == LookupFailed(NoCandidate) <==>
      && -2 <= axis.0 <= 1
      && Get(d, Reference).Some?
      && (Keys(Get(d, Reference).value) == [] || -2 <= axis.1 <= 1)
      && forall k :: k in Keys(Get(d, Reference).value) ==> PairIndex(k, axis.1) != PairIndex(angles, axis.0)
  {
    if -2 <= axis.0 <= 1 && Get(d, Reference).Some? {
      var keys := Keys(Get(d, Reference).value);
      var a := PairIndex(angles, axis.0).value;
      forall k ensures k in Matching(keys, axis.1, a) <==> k in keys && PairIndex(k, axis.1) == Some(a) {
        Provenance.FilterMembers(keys, k => PairIndex(k, axis.1) == Some(a), k);
      }
      if Matching(keys, axis.1, a) != [] {
        assert Matching(keys, axis.1, a)[0] in Matching(keys, axis.1, a);
      }
    }
  }

  /** The analysis object: the grouped files, the reference-axis mapping and the warnings
      raised so far. */
  class AngleReflectance {
    var dataDict: DataDict
    var referenceAxis: (int, int)
    var warningFlags: seq<Angles>

    /** `AngleReflectance(fileDir, reference_axis)` once `load_data` has returned
        `dataDict`. */
    constructor(dataDict: DataDict, referenceAxis: (int, int))
      ensures this.dataDict == dataDict && this.referenceAxis == referenceAxis && warningFlags == []
    {
      this.dataDict := dataDict;
      this.referenceAxis := referenceAxis;
      warningFlags := [];
    }

    /** `find_reference(angles)`: the lookup, with a warning for these angles added when
        more than one reference matches; nothing else changes. */
    method FindReference(angles: Angles) returns (r: Lookup)
      modifies this
      ensures r == FindReferenceSpec(dataDict, referenceAxis, angles).0
      ensures warningFlags == old(warningFlags) + (if FindReferenceSpec(dataDict, referenceAxis, angles).1 then [angles] else [])
      ensures dataDict == old(dataDict) && referenceAxis == old(referenceAxis)
    {
      var sampleAngle := PairIndex(angles, referenceAxis.0);
      if sampleAngle.None? {
        return LookupFailed(AxisIndexError);
      }
      var refs := Get(dataDict, Reference);
      if refs.None? {
        return LookupFailed(NoReferenceRole);
      }
      var keys := Keys(refs.value);
      if keys != [] && !(-2 <= referenceAxis.1 <= 1) {
        return LookupFailed(AxisIndexError);
      }
      var candidates := Matching(keys, referenceAxis.1, sampleAngle.value);
      if |candidates| == 0 {
        return LookupFailed(NoCandidate);
      }
      if |candidates| > 1 {
        warningFlags := warningFlags + [angles];
      }
      return Found(candidates[0]);
    }
  }
}
