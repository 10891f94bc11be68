/** The scan side of the control window: the angle lists `np.arange` produces for a scan
    axis, the raster of an uncoupled scan, the plan file, the axis selection and the
    scans that drive the goniometer through a plan.

    Angles are exact reals; the accumulation error of floating-point `np.arange` is not
    modelled. The prompts between points (`input`) and every `print` are left out. */
module Scan {
  import opened Text
  import opened Calibration
  import opened Protocol
  import opened Controller

  // ---------------------------------------------------------------- np.arange

  /** The least integer not below `x`. */
  function Ceil(x: real): (r: int)
    ensures x <= r as real < x + 1.0
  {
    if x.Floor as real == x then x.Floor else x.Floor + 1
  }

  /** `n` values from `start` in steps of `step`. */
  function Progression(start: real, step: real, n: nat): (r: seq<real>)
    ensures |r| == n
    ensures forall i :: 0 <= i < n ==> r[i] == start + i as real * step
  {
    if n == 0 then [] else Progression(start, step, n - 1) + [start + (n - 1) as real * step]
  }

  /** `np.arange(start, stop, step)`: ceil((stop - start) / step) values, or none when that
      is not positive; None for a zero step, on which numpy raises. */
  function Arange(start: real, stop: real, step: real): Option<seq<real>> {
    if step == 0.0 then None
    else
      var c := Ceil((stop - start) / step);
      Some(Progression(start, step, if c < 0 then 0 else c))
  }

  /** `np.arange` yields exactly the progression values that come before `stop` in the
      direction of `step`: all of them lie before it, and the next one would not. */
  lemma ArangeStopsBeforeStop(start: real, stop: real, step: real)
    requires step != 0.0
    ensures var r := Arange(start, stop, step).value;
      forall i :: 0 <= i < |r| ==> r[i] == start + i as real * step
    ensures var r := Arange(start, stop, step).value;
      step > 0.0 ==> (forall i :: 0 <= i < |r| ==> r[i] < stop) && start + |r| as real * step >= stop
    ensures var r := Arange(start, stop, step).value;
      step < 0.0 ==> (forall i :: 0 <= i < |r| ==> r[i] > stop) && start + |r| as real * step <= stop
  {
    var n, q := ArangeCount(start, stop, step);
    assert Arange(start, stop, step).value == Progression(start, step, n);
    if step > 0.0 {
      ProgressionBefore(start, stop, step, n, q);
    } else {
      ProgressionAfter(start, stop, step, n, q);
    }
  }

  /** The progression values before index `q` lie below `start + q * step`, for a
      positive step. */
  lemma ProgressionBefore(start: real, stop: real, step: real, n: nat, q: real)
    requires step > 0.0 && q * step == stop - start
    requires n as real >= q && (n == 0 || (n - 1) as real < q)
    ensures var r := Progression(start, step, n);
      forall i :: 0 <= i < n ==> r[i] < stop
    ensures start + n as real * step >= stop
  {
    var r := Progression(start, step, n);
    forall i | 0 <= i < n ensures r[i] < stop {
      assert r[i] == start + i as real * step;
      StepBelow(start, stop, step, i as real, q);
    }
    ScaleUpWeak(q, n as real, step);
  }

  /** The same for a negative step, where the comparisons flip. */
  lemma ProgressionAfter(start: real, stop: real, step: real, n: nat, q: real)
    requires step < 0.0 && q * step == stop - start
    requires n as real >= q && (n == 0 || (n - 1) as real < q)
    ensures var r := Progression(start, step, n);
      forall i :: 0 <= i < n ==> r[i] > stop
    ensures start + n as real * step <= stop
  {
    var r := Progression(start, step, n);
    forall i | 0 <= i < n ensures r[i] > stop {
      assert r[i] == start + i as real * step;
      StepAbove(start, stop, step, i as real, q);
    }
    ScaleDownWeak(q, n as real, step);
  }

  lemma StepBelow(start: real, stop: real, step: real, a: real, q: real)
    requires step > 0.0 && q * step == stop - start && a < q
    ensures start + a * step < stop
  {
    ScaleUp(a, q, step);
  }

  lemma StepAbove(start: real, stop: real, step: real, a: real, q: real)
    requires step < 0.0 && q * step == stop - start && a < q
    ensures start + a * step > stop
  {
    ScaleDown(a, q, step);
  }

  lemma ScaleUp(a: real, b: real, s: real)
    requires a < b && s > 0.0
    ensures a * s < b * s
  {
  }

  lemma ScaleUpWeak(a: real, b: real, s: real)
    requires a <= b && s > 0.0
    ensures a * s <= b * s
  {
  }

  lemma ScaleDown(a: real, b: real, s: real)
    requires a < b && s < 0.0
    ensures a * s > b * s
  {
    ScaleUp(a, b, -s);
    assert a * s == -(a * -s) && b * s == -(b * -s);
  }

  lemma ScaleDownWeak(a: real, b: real, s: real)
    requires a <= b && s < 0.0
    ensures a * s >= b * s
  {
    ScaleUpWeak(a, b, -s);
    assert a * s == -(a * -s) && b * s == -(b * -s);
  }

  /** `np.arange` takes the fewest values that reach `stop`: its n values are the least
      count not below the number of steps q from `start` to `stop`. */
  lemma ArangeCount(start: real, stop: real, step: real) returns (n: nat, q: real)
    requires step != 0.0
    ensures |Arange(start, stop, step).value| == n
    ensures q * step == stop - start
    ensures n as real >= q && (n == 0 || (n - 1) as real < q)
  {
    q := (stop - start) / step;
    n := |Arange(start, stop, step).value|;
  }

  /** A scan axis as the window holds it: start, stop and step resolution, in degrees. */
  datatype AxisParams = AxisParams(start: real, stop: real, resolution: real)

  /** `np.arange(start, stop + resolution, resolution)`: the angles of one scan axis. */
  function AxisAngles(p: AxisParams): Option<seq<real>> {
    Arange(p.start, p.stop + p.resolution, p.resolution)
  }

  /** With a positive resolution and start <= stop, the angles begin at the start, climb
      by the resolution, reach the stop angle and stay below stop + resolution. */
  lemma AxisAnglesCoverRange(p: AxisParams)
    requires p.resolution > 0.0 && p.start <= p.stop
    ensures AxisAngles(p).Some?
    ensures var r := AxisAngles(p).value;
      && |r| >= 1 && r[0] == p.start
      && (forall i :: 0 <= i < |r| - 1 ==> r[i + 1] == r[i] + p.resolution)
      && p.stop <= r[|r| - 1] < p.stop + p.resolution
  {
    ArangeStopsBeforeStop(p.start, p.stop + p.resolution, p.resolution);
    var r := AxisAngles(p).value;
    var n := |r|;
    if n == 0 {
      assert false;
    }
    assert r[n - 1] == p.start + (n - 1) as real * p.resolution;
    assert r[n - 1] + p.resolution == p.start + n as real * p.resolution;
  }

  // ---------------------------------------------------------------- the raster

  /** `axis_order`: the names of the primary and the secondary axis. */
  type AxisOrder = (string, string)

  predicate KnownOrder(order: AxisOrder) {
    order == ("X", "Y") || order == ("Y", "X")
  }

  /** A raster point as `(x, y)`: the primary angle is x unless the primary axis is Y. */
  function Oriented(primary: real, secondary: real, order: AxisOrder): (real, real) {
    if order == ("Y", "X") then (secondary, primary) else (primary, secondary)
  }

  /** What one pass of the inner loop appends: the oriented point, or nothing when the
      axis order is neither `("X", "Y")` nor `("Y", "X")`. */
  function Point(primary: real, secondary: real, order: AxisOrder): seq<(real, real)> {
    if KnownOrder(order) then [Oriented(primary, secondary, order)] else []
  }

  /** The inner loop: the points of one secondary angle, primary angles in order. */
  function Row(primaries: seq<real>, secondary: real, order: AxisOrder): seq<(real, real)> {
    if primaries == [] then []
    else Row(primaries[..|primaries| - 1], secondary, order) + Point(primaries[|primaries| - 1], secondary, order)
  }

  /** The outer loop: the rows of the secondary angles in order. */
  function Raster(primaries: seq<real>, secondaries: seq<real>, order: AxisOrder): seq<(real, real)> {
    if secondaries == [] then []
    else Raster(primaries, secondaries[..|secondaries| - 1], order) + Row(primaries, secondaries[|secondaries| - 1], order)
  }

  /** `generate_scan_dimensions`; None when a resolution is zero and `np.arange` raises. */
  function ScanDimensions(primary: AxisParams, secondary: AxisParams, order: AxisOrder): Option<seq<(real, real)>> {
    var ps, ss := AxisAngles(primary), AxisAngles(secondary);
    if ps.None? || ss.None? then None else Some(Raster(ps.value, ss.value, order))
  }

  lemma {:induction false} RowShape(ps: seq<real>, s: real, order: AxisOrder)
    requires KnownOrder(order)
    ensures var r := Row(ps, s, order);
      |r| == |ps| && forall j :: 0 <= j < |ps| ==> r[j] == Oriented(ps[j], s, order)
    decreases |ps|
  {
    if ps != [] {
      RowShape(ps[..|ps| - 1], s, order);
    }
  }

  /** Point k of `r` pairs primary angle k mod |ps| with secondary angle k div |ps|. */
  predicate Gridded(r: seq<(real, real)>, ps: seq<real>, ss: seq<real>, order: AxisOrder) {
    forall k :: 0 <= k < |r| ==>
      0 < |ps| && 0 <= k / |ps| < |ss| && r[k] == Oriented(ps[k % |ps|], ss[k / |ps|], order)
  }

  /** With axis order `("X", "Y")` or `("Y", "X")` the raster has |primary| x |secondary|
      points; point k pairs primary angle k mod |primary| with secondary angle
      k div |primary|, so the secondary angle is the outer loop and the primary angle
      varies fastest. */
  lemma {:induction false} RasterShape(ps: seq<real>, ss: seq<real>, order: AxisOrder)
    requires KnownOrder(order)
    ensures |Raster(ps, ss, order)| == |ps| * |ss|
    ensures Gridded(Raster(ps, ss, order), ps, ss, order)
    decreases |ss|
  {
    if ss != [] {
      var init, last := ss[..|ss| - 1], ss[|ss| - 1];
      var head, row := Raster(ps, init, order), Row(ps, last, order);
      RasterShape(ps, init, order);
      RowShape(ps, last, order);
      assert Raster(ps, ss, order) == head + row;
      MulSucc(|ps|, |init|);
      if ps == [] {
        assert |head| == 0 && row == [];
      } else {
        assert ss == init + [last];
        RasterGrows(head, row, ps, init, last, order);
      }
    }
  }

  /** A raster extended by one row, for one more secondary angle. */
  lemma RasterGrows(head: seq<(real, real)>, row: seq<(real, real)>, ps: seq<real>, init: seq<real>, s: real,
                    order: AxisOrder)
    requires |ps| > 0 && |head| == |ps| * |init| && Gridded(head, ps, init, order)
    requires |row| == |ps| && forall j :: 0 <= j < |row| ==> row[j] == Oriented(ps[j], s, order)
    ensures Gridded(head + row, ps, init + [s], order)
  {
    forall k | 0 <= k < |head| + |row|
      ensures 0 <= k / |ps| < |init| + 1
      ensures (head + row)[k] == Oriented(ps[k % |ps|], (init + [s])[k / |ps|], order)
    {
      if k < |head| {
        DivBelow(k, |ps|, |init|);
        assert (head + row)[k] == head[k];
      } else {
        DivModOf(k, |ps|, |init|, k - |head|);
        assert (head + row)[k] == row[k - |head|];
      }
    }
  }

  /** An unknown axis order gives an empty raster. */
  lemma {:induction false} RasterUnknownOrder(ps: seq<real>, ss: seq<real>, order: AxisOrder)
    requires !KnownOrder(order)
    ensures Raster(ps, ss, order) == []
    decreases |ss|
  {
    if ss != [] {
      RasterUnknownOrder(ps, ss[..|ss| - 1], order);
      RowEmpty(ps, ss[|ss| - 1], order);
    }
  }

  lemma {:induction false} RowEmpty(ps: seq<real>, s: real, order: AxisOrder)
    requires !KnownOrder(order)
    ensures Row(ps, s, order) == []
    decreases |ps|
  {
    if ps != [] {
      RowEmpty(ps[..|ps| - 1], s, order);
    }
  }

  lemma MulSucc(a: int, b: int)
    ensures a * (b + 1) == a * b + a
  {
  }

  lemma DivModOf(k: int, n: int, q: int, j: int)
    requires 0 <= j < n && 0 <= q && k == n * q + j
    ensures k / n == q && k % n == j
  {
    var d, m := k / n, k % n;
    assert n * (d - q) == j - m;
    AtLeastOnce(n, d - q);
    AtLeastOnce(n, q - d);
  }

  lemma AtLeastOnce(n: int, e: int)
    requires n > 0
    ensures e >= 1 ==> n * e >= n
  {
    if e >= 1 {
      assert n * e == n * (e - 1) + n;
    }
  }

  lemma DivBelow(k: int, n: int, q: int)
    requires 0 < n && 0 <= q && 0 <= k < n * q
    ensures k / n < q
  {
    var d, m := k / n, k % n;
    assert n * (q - d) == n * q - k + m;
    AtMostNone(n, q - d);
  }

  lemma AtMostNone(n: int, e: int)
    requires n > 0
    ensures e <= 0 ==> n * e <= 0
  {
    if e <= 0 {
      assert n * e == -(n * -e);
    }
  }

  // ---------------------------------------------------------------- the plan file

  /** The line `export_scan_list` writes for a point, without its newline; `show` stands
      for Python's `str` of a float. */
  function PlanLine(p: (real, real), show: real -> string): string {
    show(p.0) + "," + show(p.1)
  }

  function PlanLines(plan: seq<(real, real)>, show: real -> string): (r: seq<string>)
    ensures |r| == |plan| && forall i :: 0 <= i < |plan| ==> r[i] == PlanLine(plan[i], show)
  {
    if plan == [] then [] else PlanLines(plan[..|plan| - 1], show) + [PlanLine(plan[|plan| - 1], show)]
  }

  /** The text `export_scan_list` writes: each point's line and a newline, in plan order. */
  function PlanText(plan: seq<(real, real)>, show: real -> string): string {
    if plan == [] then "" else PlanText(plan[..|plan| - 1], show) + PlanLine(plan[|plan| - 1], show) + "\n"
  }

  /** The plan text is its lines joined by newlines, with one newline after the last. */
  lemma {:induction false} PlanTextIsJoin(plan: seq<(real, real)>, show: real -> string)
    ensures PlanText(plan, show) == Join(PlanLines(plan, show) + [""], '\n')
    decreases |plan|
  {
    if plan != [] {
      var init := plan[..|plan| - 1];
      var ls := PlanLines(init, show);
      var line := PlanLine(plan[|plan| - 1], show);
      PlanTextIsJoin(init, show);
      assert PlanLines(plan, show) == ls + [line];
      JoinTerminated(ls, line);
    }
  }

  /** Joining newline-terminated lines: one more line adds its text and a newline. */
  lemma JoinTerminated(ls: seq<string>, line: string)
    ensures Join(ls + [line] + [""], '\n') == Join(ls + [""], '\n') + line + "\n"
  {
    JoinPrefixOfSplit(ls + [line], "", '\n');
    if ls == [] {
      assert Join(ls + [line], '\n') == line;
    } else {
      JoinPrefixOfSplit(ls, "", '\n');
      JoinPrefixOfSplit(ls, line, '\n');
    }
  }

  /** Read back and split at newlines and commas, the plan file gives each point's two
      angle texts in plan order, when the angle texts hold neither separator. */
  lemma PlanTextRoundTrip(plan: seq<(real, real)>, show: real -> string)
    requires forall a :: ',' !in show(a) && '\n' !in show(a)
    ensures var lines := Split(PlanText(plan, show), '\n');
      && |lines| == |plan| + 1 && lines[|plan|] == ""
      && forall i :: 0 <= i < |plan| ==> Split(lines[i], ',') == [show(plan[i].0), show(plan[i].1)]
  {
    var ls := PlanLines(plan, show);
    PlanTextIsJoin(plan, show);
    forall k | 0 <= k < |ls + [""]| ensures '\n' !in (ls + [""])[k] {
      if k < |ls| {
        PlanLineSplits(plan[k].0, plan[k].1, show);
      }
    }
    SplitJoin(ls + [""], '\n');
    forall i | 0 <= i < |plan| ensures Split(ls[i], ',') == [show(plan[i].0), show(plan[i].1)] {
      PlanLineSplits(plan[i].0, plan[i].1, show);
    }
  }

  /** A plan line holds no newline, and splits at its comma into the two angle texts. */
  lemma PlanLineSplits(x: real, y: real, show: real -> string)
    requires forall a :: ',' !in show(a) && '\n' !in show(a)
    ensures '\n' !in PlanLine((x, y), show)
    ensures Split(PlanLine((x, y), show), ',') == [show(x), show(y)]
  {
    var parts := [show(x), show(y)];
    assert ',' !in show(x) && ',' !in show(y);
    assert forall k :: 0 <= k < |parts| ==> ',' !in parts[k];
    assert Join(parts, ',') == PlanLine((x, y), show) by {
      assert parts[1..] == [show(y)];
    }
    SplitJoin(parts, ',');
  }

  // ---------------------------------------------------------------- the window's state

  /** `update_secondary_axis`: the secondary axis is Y when the primary is X, else X. */
  function SecondaryFor(primary: string): (r: string)
    ensures r != primary && (r == "X" || r == "Y")
  {
    if primary == "X" then "Y" else "X"
  }

  /** A row of the scan configuration tree: axis, start, stop and resolution. */
  datatype TreeRow = TreeRow(axis: string, start: real, stop: real, resolution: real)

  /** The rows `update_scan_tree` shows: one row for both axes in specular mode, a row per
      axis in uncoupled mode, none otherwise. */
  function ScanTreeRows(mode: string, primaryAxis: string, secondaryAxis: string,
                        primary: AxisParams, secondary: AxisParams): seq<TreeRow> {
    (if mode == "specular" then [TreeRow("X/Y", primary.start, primary.stop, primary.resolution)] else [])
    + (if mode == "uncoupled" then
         [TreeRow(primaryAxis, primary.start, primary.stop, primary.resolution),
          TreeRow(secondaryAxis, secondary.start, secondary.stop, secondary.resolution)]
       else [])
  }

  /** In uncoupled mode, once the secondary axis follows the primary, the tree shows the
      primary's parameters and then the secondary's, under two different axis names. */
  lemma ScanTreeRowsUncoupled(primaryAxis: string, primary: AxisParams, secondary: AxisParams)
    ensures var rows := ScanTreeRows("uncoupled", primaryAxis, SecondaryFor(primaryAxis), primary, secondary);
      && |rows| == 2 && rows[0].axis != rows[1].axis
      && rows[0].start == primary.start && rows[0].stop == primary.stop && rows[0].resolution == primary.resolution
      && rows[1].start == secondary.start && rows[1].stop == secondary.stop && rows[1].resolution == secondary.resolution
  {
  }

  // ---------------------------------------------------------------- scans

  /** How a scan ends: finished, or `np.arange` raised on a zero resolution before any
      move. */
  datatype ScanEnd = Finished | ZeroResolution

  /** Visiting a plan: `go_to_angle(x, y)` and then `wait_for_motors()` for each point in
      plan order; a rejected point is skipped over by the same two calls. */
  function VisitSpec(m: Machine, plan: seq<(real, real)>): Run<()>
    decreases |plan|
  {
    if plan == [] then Run(Some(()), m)
    else
      var g := GoToAngleSpec(m, plan[0].0, plan[0].1);
      if g.result.None? then Run(None, g.after)
      else
        var w := WaitForMotorsSpec(g.after);
        if w.result.None? then Run(None, w.after)
        else VisitSpec(w.after, plan[1..])
  }

  /** The specular plan: each angle on both axes. */
  function Diagonal(angles: seq<real>): (r: seq<(real, real)>)
    ensures |r| == |angles| && forall i :: 0 <= i < |angles| ==> r[i] == (angles[i], angles[i])
  {
    if angles == [] then [] else [(angles[0], angles[0])] + Diagonal(angles[1..])
  }

  /** `run_specular_scan(start, stop, resolution)` */
  function SpecularSpec(m: Machine, start: real, stop: real, resolution: real): Run<ScanEnd> {
    var angles := AxisAngles(AxisParams(start, stop, resolution));
    if angles.None? then Run(Some(ZeroResolution), m)
    else
      var v := VisitSpec(m, Diagonal(angles.value));
      if v.result.None? then Run(None, v.after)
      else
        var g := GoToAngleSpec(v.after, start, start);
        if g.result.None? then Run(None, g.after) else Run(Some(Finished), g.after)
  }

  /** Where `run_uncoupled_scan` returns as written: `go_to_angle(p_start, s_start)`,
      the primary start on X whichever axis is primary. */
  function ReturnTargetAsWritten(primary: AxisParams, secondary: AxisParams): (real, real) {
    (primary.start, secondary.start)
  }

  /** Where the scan evidently means to return: its origin, oriented like every other
      point of the raster. */
  function ReturnTarget(primary: AxisParams, secondary: AxisParams, order: AxisOrder): (real, real) {
    Oriented(primary.start, secondary.start, order)
  }

  /** `run_uncoupled_scan` with its final move to `target`: the plan is visited point by
      point, then the motors go to `target`. */
  function UncoupledTo(m: Machine, primary: AxisParams, secondary: AxisParams, order: AxisOrder,
                       target: (real, real)): Run<ScanEnd> {
    var plan := ScanDimensions(primary, secondary, order);
    if plan.None? then Run(Some(ZeroResolution), m)
    else
      var v := VisitSpec(m, plan.value);
      if v.result.None? then Run(None, v.after)
      else
        var g := GoToAngleSpec(v.after, target.0, target.1);
        if g.result.None? then Run(None, g.after) else Run(Some(Finished), g.after)
  }

  /** `run_uncoupled_scan` as written, returning to `ReturnTargetAsWritten`. */
  function UncoupledSpec(m: Machine, primary: AxisParams, secondary: AxisParams, order: AxisOrder): Run<ScanEnd> {
    UncoupledTo(m, primary, secondary, order, ReturnTargetAsWritten(primary, secondary))
  }

  /** `run_uncoupled_scan` corrected to return to `ReturnTarget`, the origin of its plan. */
  function UncoupledSpecCorrected(m: Machine, primary: AxisParams, secondary: AxisParams, order: AxisOrder): Run<ScanEnd> {
    UncoupledTo(m, primary, secondary, order, ReturnTarget(primary, secondary, order))
  }

  /** The corrected return target is the first point of the plan, for either axis order. */
  lemma ReturnTargetIsPlanOrigin(primary: AxisParams, secondary: AxisParams, order: AxisOrder)
    requires KnownOrder(order)
    requires ScanDimensions(primary, secondary, order).Some?
    requires |ScanDimensions(primary, secondary, order).value| > 0
    ensures ReturnTarget(primary, secondary, order) == ScanDimensions(primary, secondary, order).value[0]
  {
    var ps, ss := AxisAngles(primary).value, AxisAngles(secondary).value;
    RasterShape(ps, ss, order);
    assert ps[0] == primary.start && ss[0] == secondary.start;
  }

  /** As written, the return move misses the origin when Y is the primary axis: primary Y
      from 20 to 30 degrees and secondary X at 40 degrees start at (x, y) = (40, 20), but
      the scan returns to (20, 40). */
  lemma ReturnAsWrittenMissesOrigin()
    ensures var primary, secondary := AxisParams(20.0, 30.0, 10.0), AxisParams(40.0, 40.0, 10.0);
      var plan := ScanDimensions(primary, secondary, ("Y", "X"));
      && plan == Some([(40.0, 20.0), (40.0, 30.0)])
      && ReturnTargetAsWritten(primary, secondary) == (20.0, 40.0) != plan.value[0]
  {
    var primary, secondary := AxisParams(20.0, 30.0, 10.0), AxisParams(40.0, 40.0, 10.0);
    assert Ceil((40.0 - 20.0) / 10.0) == 2;
    assert Ceil((50.0 - 40.0) / 10.0) == 1;
    assert Progression(20.0, 10.0, 2) == [20.0, 30.0] by {
      assert Progression(20.0, 10.0, 1) == [20.0];
    }
    assert Progression(40.0, 10.0, 1) == [40.0];
    assert AxisAngles(primary) == Some([20.0, 30.0]);
    assert AxisAngles(secondary) == Some([40.0]);
    assert Row([20.0, 30.0], 40.0, ("Y", "X")) == [(40.0, 20.0), (40.0, 30.0)] by {
      assert [20.0, 30.0][..1] == [20.0];
      assert Row([20.0], 40.0, ("Y", "X")) == [(40.0, 20.0)];
    }
    assert Raster([20.0, 30.0], [40.0], ("Y", "X")) == Row([20.0, 30.0], 40.0, ("Y", "X"));
  }

  /** With X as the primary axis the written return move is the corrected one. */
  lemma ReturnAsWrittenWithPrimaryX(primary: AxisParams, secondary: AxisParams)
    ensures ReturnTargetAsWritten(primary, secondary) == ReturnTarget(primary, secondary, ("X", "Y"))
  {
  }

  /** A completed visit leaves the motors tracked at the last point of the plan when that
      point is inside the hard limits. */
  lemma {:induction false} VisitEndsAtLastPoint(m: Machine, plan: seq<(real, real)>)
    requires plan != [] && VisitSpec(m, plan).result.Some?
    requires var p := plan[|plan| - 1];
      WithinHardLimits(X, AngleToSteps(X, p.0)) && WithinHardLimits(Y, AngleToSteps(Y, p.1))
    ensures var p := plan[|plan| - 1];
      VisitSpec(m, plan).after.angle == Angles(p.0, p.1)
    decreases |plan|
  {
    var g := GoToAngleSpec(m, plan[0].0, plan[0].1);
    var w := WaitForMotorsSpec(g.after);
    VisitCons(m, plan);
    if |plan| == 1 {
      GoToAngleRefuses(m, plan[0].0, plan[0].1);
      GoToAngleMoves(m, plan[0].0, plan[0].1);
      assert g.after.angle == Angles(plan[0].0, plan[0].1);
      assert plan[1..] == [];
      assert VisitSpec(w.after, plan[1..]).after == w.after;
    } else {
      VisitEndsAtLastPoint(w.after, plan[1..]);
    }
  }

  /** A visit that completes moves to the first point, waits for the motors and goes on
      with the rest of the plan. */
  lemma VisitCons(m: Machine, plan: seq<(real, real)>)
    requires plan != [] && VisitSpec(m, plan).result.Some?
    ensures var g := GoToAngleSpec(m, plan[0].0, plan[0].1);
      var w := WaitForMotorsSpec(g.after);
      && g.result.Some? && w.result.Some?
      && w.after.angle == g.after.angle && w.after.position == g.after.position
      && VisitSpec(m, plan) == VisitSpec(w.after, plan[1..])
  {
  }

  /** Tracked steps inside the hard limits stay inside them through a whole visit. */
  lemma {:induction false} VisitKeepsLimits(m: Machine, plan: seq<(real, real)>)
    requires InLimits(m.position)
    ensures InLimits(VisitSpec(m, plan).after.position)
    decreases |plan|
  {
    if plan != [] {
      var g := GoToAngleSpec(m, plan[0].0, plan[0].1);
      GoToAngleKeepsLimits(m, plan[0].0, plan[0].1);
      if g.result.Some? {
        VisitKeepsLimits(WaitForMotorsSpec(g.after).after, plan[1..]);
      }
    }
  }

  /** A finished specular scan ends tracked at the start angle on both axes when the
      start is inside the hard limits, and never leaves the hard limits. */
  lemma SpecularReturnsToStart(m: Machine, start: real, stop: real, resolution: real)
    requires SpecularSpec(m, start, stop, resolution).result == Some(Finished)
    requires WithinHardLimits(X, AngleToSteps(X, start)) && WithinHardLimits(Y, AngleToSteps(Y, start))
    ensures SpecularSpec(m, start, stop, resolution).after.angle == Angles(start, start)
  {
    var angles := AxisAngles(AxisParams(start, stop, resolution)).value;
    var v := VisitSpec(m, Diagonal(angles));
    GoToAngleRefuses(v.after, start, start);
    GoToAngleMoves(v.after, start, start);
  }

  /** Tracked steps inside the hard limits stay inside them through a specular scan. */
  lemma SpecularKeepsLimits(m: Machine, start: real, stop: real, resolution: real)
    requires InLimits(m.position)
    ensures InLimits(SpecularSpec(m, start, stop, resolution).after.position)
  {
    var angles := AxisAngles(AxisParams(start, stop, resolution));
    if angles.Some? {
      var v := VisitSpec(m, Diagonal(angles.value));
      VisitKeepsLimits(m, Diagonal(angles.value));
      if v.result.Some? {
        GoToAngleKeepsLimits(v.after, start, start);
      }
    }
  }

  /** A finished corrected uncoupled scan ends tracked at the first point of its plan when
      that point is inside the hard limits: the scan ends where it began. */
  lemma UncoupledReturnsToOrigin(m: Machine, primary: AxisParams, secondary: AxisParams, order: AxisOrder)
    requires KnownOrder(order)
    requires UncoupledSpecCorrected(m, primary, secondary, order).result == Some(Finished)
    requires var plan := ScanDimensions(primary, secondary, order).value;
      && |plan| > 0
      && WithinHardLimits(X, AngleToSteps(X, plan[0].0)) && WithinHardLimits(Y, AngleToSteps(Y, plan[0].1))
    ensures var o := ScanDimensions(primary, secondary, order).value[0];
      UncoupledSpecCorrected(m, primary, secondary, order).after.angle == Angles(o.0, o.1)
  {
    var plan := ScanDimensions(primary, secondary, order).value;
    ReturnTargetIsPlanOrigin(primary, secondary, order);
    var v := VisitSpec(m, plan);
    GoToAngleRefuses(v.after, plan[0].0, plan[0].1);
    GoToAngleMoves(v.after, plan[0].0, plan[0].1);
  }

  /** A finished uncoupled scan as written ends tracked at (primary start, secondary start)
      when that point is inside the hard limits; that point is the origin of the plan
      exactly when X is the primary axis or both axes start at the same angle. */
  lemma UncoupledEndsAsWritten(m: Machine, primary: AxisParams, secondary: AxisParams, order: AxisOrder)
    requires KnownOrder(order)
    requires UncoupledSpec(m, primary, secondary, order).result == Some(Finished)
    requires |ScanDimensions(primary, secondary, order).value| > 0
    requires WithinHardLimits(X, AngleToSteps(X, primary.start)) && WithinHardLimits(Y, AngleToSteps(Y, secondary.start))
    ensures UncoupledSpec(m, primary, secondary, order).after.angle == Angles(primary.start, secondary.start)
    ensures ReturnTargetAsWritten(primary, secondary) == ScanDimensions(primary, secondary, order).value[0]
      <==> order == ("X", "Y") || primary.start == secondary.start
  {
    var plan := ScanDimensions(primary, secondary, order).value;
    ReturnTargetIsPlanOrigin(primary, secondary, order);
    var v := VisitSpec(m, plan);
    GoToAngleRefuses(v.after, primary.start, secondary.start);
    GoToAngleMoves(v.after, primary.start, secondary.start);
  }

  /** Tracked steps inside the hard limits stay inside them through an uncoupled scan,
      whatever its final move. */
  lemma UncoupledKeepsLimits(m: Machine, primary: AxisParams, secondary: AxisParams, order: AxisOrder,
                             target: (real, real))
    requires InLimits(m.position)
    ensures InLimits(UncoupledTo(m, primary, secondary, order, target).after.position)
  {
    var plan := ScanDimensions(primary, secondary, order);
    if plan.Some? {
      var v := VisitSpec(m, plan.value);
      VisitKeepsLimits(m, plan.value);
      if v.result.Some? {
        GoToAngleKeepsLimits(v.after, target.0, target.1);
      }
    }
  }

  /** The GUI's "Set Motor Positions" writes `setpos` with the step counts of the entered
      angles and z = 0; it leaves the tracked position and angles as they were. */
  lemma SetMotorPositionsLeavesTracking(m: Machine, x: real, y: real)
    ensures var f := SetMotorPositionsSpec(m, AngleToSteps(X, x), AngleToSteps(Y, y), 0);
      && f.after.sent == m.sent + [SetPos(AngleToSteps(X, x), AngleToSteps(Y, y), 0)]
      && f.after.position == m.position && f.after.angle == m.angle
  {
  }

  // ---------------------------------------------------------------- the window object

  /** The file `run_uncoupled_scan` exports its plan to. */
  const ScanListFile: string := "scan_list.txt"

  class ScanWindow {
    const spectrometer: Spectrometer
    var mode: string
    var primaryAxis: string
    var secondaryAxis: string
    /** Whether the X and Y choices of the secondary axis can be selected. */
    var secondaryXEnabled: bool
    var secondaryYEnabled: bool
    var primary: AxisParams
    var secondary: AxisParams
    var xAngle: real
    var yAngle: real
    var treeRows: seq<TreeRow>
    /** Files written, by name. */
    var files: map<string, string>

    /** `__init__`: specular mode, primary X and secondary Y with both secondary choices
        selectable, every entry at 0, an empty tree. */
    constructor (spectrometer: Spectrometer)
      ensures this.spectrometer == spectrometer
      ensures mode == "specular" && primaryAxis == "X" && secondaryAxis == "Y"
      ensures secondaryXEnabled && secondaryYEnabled
      ensures primary == AxisParams(0.0, 0.0, 0.0) && secondary == AxisParams(0.0, 0.0, 0.0)
      ensures xAngle == 0.0 && yAngle == 0.0 && treeRows == [] && files == map[]
    {
      this.spectrometer := spectrometer;
      mode := "specular";
      primaryAxis := "X";
      secondaryAxis := "Y";
      secondaryXEnabled := true;
      secondaryYEnabled := true;
      primary := AxisParams(0.0, 0.0, 0.0);
      secondary := AxisParams(0.0, 0.0, 0.0);
      xAngle := 0.0;
      yAngle := 0.0;
      treeRows := [];
      files := map[];
    }

    /** `update_secondary_axis`: the secondary axis becomes the other axis, and only that
        choice stays selectable. */
    method UpdateSecondaryAxis()
      modifies this`secondaryAxis, this`secondaryXEnabled, this`secondaryYEnabled
      ensures secondaryAxis == SecondaryFor(primaryAxis) && secondaryAxis != primaryAxis
      ensures secondaryXEnabled <==> secondaryAxis == "X"
      ensures secondaryYEnabled <==> secondaryAxis == "Y"
    {
      if primaryAxis == "X" {
        secondaryXEnabled := false;
        secondaryYEnabled := true;
        secondaryAxis := "Y";
      } else {
        secondaryXEnabled := true;
        secondaryYEnabled := false;
        secondaryAxis := "X";
      }
    }

    /** `update_scan_tree` */
    method UpdateScanTree()
      modifies this`treeRows
      ensures treeRows == ScanTreeRows(mode, primaryAxis, secondaryAxis, primary, secondary)
    {
      treeRows := [];
      if mode == "specular" {
        treeRows := treeRows + [TreeRow("X/Y", primary.start, primary.stop, primary.resolution)];
      }
      if mode == "uncoupled" {
        treeRows := treeRows + [TreeRow(primaryAxis, primary.start, primary.stop, primary.resolution)];
        treeRows := treeRows + [TreeRow(secondaryAxis, secondary.start, secondary.stop, secondary.resolution)];
      }
    }

    /** The GUI's `set_motor_positions`. */
    method SetMotorPositions()
      modifies spectrometer
      ensures spectrometer.State()
        == SetMotorPositionsSpec(old(spectrometer.State()), AngleToSteps(X, xAngle), AngleToSteps(Y, yAngle), 0).after
    {
      var xSteps := AngleToSteps(X, xAngle);
      var ySteps := AngleToSteps(Y, yAngle);
      var _ := spectrometer.SetMotorPositions(xSteps, ySteps, 0);
    }

    /** `generate_scan_dimensions`, with its nested loops. */
    method GenerateScanDimensions(primary: AxisParams, secondary: AxisParams, order: AxisOrder)
      returns (angles: Option<seq<(real, real)>>)
      ensures angles == ScanDimensions(primary, secondary, order)
    {
      var ps := AxisAngles(primary);
      var ss := AxisAngles(secondary);
      if ps.None? || ss.None? {
        return None;
      }
      var flattened: seq<(real, real)> := [];
      for i := 0 to |ss.value|
        invariant flattened == Raster(ps.value, ss.value[..i], order)
      {
        var s := ss.value[i];
        for j := 0 to |ps.value|
          invariant flattened == Raster(ps.value, ss.value[..i], order) + Row(ps.value[..j], s, order)
        {
          var p := ps.value[j];
          if order == ("X", "Y") {
            flattened := flattened + [(p, s)];
          } else if order == ("Y", "X") {
            flattened := flattened + [(s, p)];
          }
          assert ps.value[..j + 1][..j] == ps.value[..j];
        }
        assert ps.value[..|ps.value|] == ps.value;
        assert ss.value[..i + 1][..i] == ss.value[..i];
      }
      assert ss.value[..|ss.value|] == ss.value;
      return Some(flattened);
    }

    /** `export_scan_list(scan_list, filename)`: writes the file line by line. */
    method ExportScanList(plan: seq<(real, real)>, filename: string, show: real -> string)
      modifies this`files
      ensures files == old(files)[filename := PlanText(plan, show)]
    {
      var text := "";
      for i := 0 to |plan|
        invariant text == PlanText(plan[..i], show)
      {
        text := text + PlanLine(plan[i], show) + "\n";
        assert plan[..i + 1][..i] == plan[..i];
      }
      assert plan[..|plan|] == plan;
      files := files[filename := text];
    }

    /** The loop of `run_specular_scan`. */
    method VisitAngles(angles: seq<real>) returns (done: bool)
      modifies spectrometer
      ensures done == VisitSpec(old(spectrometer.State()), Diagonal(angles)).result.Some?
      ensures spectrometer.State() == VisitSpec(old(spectrometer.State()), Diagonal(angles)).after
    {
      ghost var m0 := spectrometer.State();
      var i := 0;
      while i < |angles|
        invariant 0 <= i <= |angles|
        invariant VisitSpec(spectrometer.State(), Diagonal(angles[i..])) == VisitSpec(m0, Diagonal(angles))
      {
        ghost var m := spectrometer.State();
        assert Diagonal(angles[i..]) == [(angles[i], angles[i])] + Diagonal(angles[i + 1..]) by {
          assert angles[i..][1..] == angles[i + 1..];
        }
        var outcome := spectrometer.GoToAngle(angles[i], angles[i]);
        if outcome.None? {
          return false;
        }
        var idle := spectrometer.WaitForMotors();
        if !idle {
          return false;
        }
        i := i + 1;
      }
      assert angles[i..] == [];
      return true;
    }

    /** The loop of `run_uncoupled_scan`. */
    method VisitPlan(plan: seq<(real, real)>) returns (done: bool)
      modifies spectrometer
      ensures done == VisitSpec(old(spectrometer.State()), plan).result.Some?
      ensures spectrometer.State() == VisitSpec(old(spectrometer.State()), plan).after
    {
      ghost var m0 := spectrometer.State();
      var i := 0;
      while i < |plan|
        invariant 0 <= i <= |plan|
        invariant VisitSpec(spectrometer.State(), plan[i..]) == VisitSpec(m0, plan)
      {
        assert plan[i..][1..] == plan[i + 1..];
        var (x, y) := plan[i];
        var outcome := spectrometer.GoToAngle(x, y);
        if outcome.None? {
          return false;
        }
        var idle := spectrometer.WaitForMotors();
        if !idle {
          return false;
        }
        i := i + 1;
      }
      assert plan[i..] == [];
      return true;
    }

    /** `run_specular_scan(start, stop, resolution)` */
    method RunSpecularScan(start: real, stop: real, resolution: real) returns (end: Option<ScanEnd>)
      modifies spectrometer
      ensures end == SpecularSpec(old(spectrometer.State()), start, stop, resolution).result
      ensures spectrometer.State() == SpecularSpec(old(spectrometer.State()), start, stop, resolution).after
    {
      var angles := Arange(start, stop + resolution, resolution);
      if angles.None? {
        return Some(ZeroResolution);
      }
      var done := VisitAngles(angles.value);
      if !done {
        return None;
      }
      var outcome := spectrometer.GoToAngle(start, start);
      if outcome.None? {
        return None;
      }
      return Some(Finished);
    }

    /** `run_uncoupled_scan(primary, secondary)`: the plan is exported before any move,
        and the scan returns to `(p_start, s_start)` as written. */
    method RunUncoupledScan(primary: AxisParams, secondary: AxisParams, show: real -> string)
      returns (end: Option<ScanEnd>)
      modifies this`files, spectrometer
      ensures var order := (primaryAxis, secondaryAxis);
        var plan := ScanDimensions(primary, secondary, order);
        && end == UncoupledSpec(old(spectrometer.State()), primary, secondary, order).result
        && spectrometer.State() == UncoupledSpec(old(spectrometer.State()), primary, secondary, order).after
        && files == if plan.None? then old(files) else old(files)[ScanListFile := PlanText(plan.value, show)]
    {
      var order := (primaryAxis, secondaryAxis);
      var plan := GenerateScanDimensions(primary, secondary, order);
      if plan.None? {
        return Some(ZeroResolution);
      }
      ExportScanList(plan.value, ScanListFile, show);
      var done := VisitPlan(plan.value);
      if !done {
        return None;
      }
      var outcome := spectrometer.GoToAngle(primary.start, secondary.start);
      if outcome.None? {
        return None;
      }
      return Some(Finished);
    }
  }
}
