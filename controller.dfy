/** The motion controller of the goniometer: the host-side object that tracks where it
    believes both axes stand, turns angle requests into relative step moves, homes the
    axes and polls the motor controller until the motors stop.

    `Machine` is the controller's state as a value; each operation has a specification
    function on `Machine` and a method of the class `Spectrometer` proved to follow it.
    A polling loop that finds the reads exhausted while it is still waiting would wait
    forever in the running program: the operation then reports `None` and stops there,
    having consumed every read. */
module Controller {
  import opened Text
  import opened Calibration
  import opened Protocol

  /** Tracked motor positions, in steps. */
  datatype Steps = Steps(x: int, y: int)

  /** Tracked axis angles, in degrees. */
  datatype Angles = Angles(x: real, y: real)

  /** `sent`: every command written so far, in order; `inbox`: the reads still to come
      (see `Protocol`); `position` and `angle`: `current_position`, `current_angle`. */
  datatype Machine = Machine(sent: seq<Command>, inbox: seq<string>, position: Steps, angle: Angles)

  /** What an operation returned (None: still polling when the reads ran out) and the
      state after it. */
  datatype Run<T> = Run(result: Option<T>, after: Machine)

  /** Both tracked step counts lie inside their axis's hard limits. */
  predicate InLimits(p: Steps) {
    WithinHardLimits(X, p.x) && WithinHardLimits(Y, p.y)
  }

  // ---------------------------------------------------------------- specifications

  /** `send_command_to_UNO` */
  function SendSpec(m: Machine, c: Command): Machine {
    m.(sent := m.sent + [c])
  }

  /** `wait_for_flag` */
  function WaitForFlagSpec(m: Machine): (r: Run<Flag>)
    ensures r.after == m.(inbox := r.after.inbox)
    ensures r.result.Some? ==> |r.after.inbox| < |m.inbox|
  {
    var s := PollFlag(m.inbox);
    if s.None? then Run(None, m.(inbox := []))
    else Run(Some(s.value.value), m.(inbox := m.inbox[s.value.used..]))
  }

  /** `wait_for_motors`: one `isrun` and one `wait_for_flag` per round, until the flag
      is S0 (the rounds are counted by `PollIdle`). */
  function WaitForMotorsSpec(m: Machine): Run<()> {
    var i := PollIdle(m.inbox);
    var sent := m.sent + IsRuns(i.polls);
    if i.used.None? then Run(None, m.(sent := sent, inbox := []))
    else Run(Some(()), m.(sent := sent, inbox := m.inbox[i.used.value..]))
  }

  /** `read_from_serial_until` */
  function ReadUntilSpec(m: Machine): (r: Run<seq<string>>)
    ensures r.after == m.(inbox := r.after.inbox)
    ensures r.result.Some? ==> |r.result.value| >= 1
  {
    var s := PollReply(m.inbox);
    if s.None? then Run(None, m.(inbox := []))
    else Run(Some(s.value.value), m.(inbox := m.inbox[s.value.used..]))
  }

  /** `move_x`, `move_y`, `move_z`: one relative move, then `wait_for_motors`. */
  function MoveSpec(m: Machine, c: Command): Run<()> {
    WaitForMotorsSpec(SendSpec(m, c))
  }

  /** `set_motor_positions`: `setpos` and the flag that answers it. */
  function SetMotorPositionsSpec(m: Machine, x: int, y: int, z: int): Run<Flag> {
    WaitForFlagSpec(SendSpec(m, SetPos(x, y, z)))
  }

  /** The relative moves `go_to_angle` writes for the step differences `dx`, `dy`. */
  function Moves(dx: int, dy: int): seq<Command> {
    (if dx != 0 then [MoveX(dx)] else []) + (if dy != 0 then [MoveY(dy)] else [])
  }

  datatype MoveOutcome = Moved | Rejected(axis: Axis)

  /** `go_to_angle(x, y)` */
  function GoToAngleSpec(m: Machine, x: real, y: real): Run<MoveOutcome> {
    var tx, ty := AngleToSteps(X, x), AngleToSteps(Y, y);
    if tx > HardLimits(X).high || tx < HardLimits(X).low then Run(Some(Rejected(X)), m)
    else if ty > HardLimits(Y).high || ty < HardLimits(Y).low then Run(Some(Rejected(Y)), m)
    else MoveToSpec(m, Steps(tx, ty), Angles(x, y))
  }

  /** The moving half of `go_to_angle`, once both targets are within the limits: the
      relative moves to the target steps `t`, `wait_for_motors`, and then the tracked
      position and angle become the target's. */
  function MoveToSpec(m: Machine, t: Steps, a: Angles): Run<MoveOutcome> {
    var w := WaitForMotorsSpec(m.(sent := m.sent + Moves(t.x - m.position.x, t.y - m.position.y)));
    if w.result.None? then Run(None, w.after)
    else Run(Some(Moved), w.after.(position := t, angle := a))
  }

  /** The step counts of the soft-limit angle `soft` on both axes. */
  function SoftSteps(soft: real): Steps {
    Steps(AngleToSteps(X, soft), AngleToSteps(Y, soft))
  }

  /** `home_motors(soft)`; the result is the flag that answered `setpos`. */
  function HomeSpec(m: Machine, soft: real): Run<Flag> {
    var r := ReadUntilSpec(SendSpec(m, Home));
    if r.result.None? then Run(None, r.after)
    else BackOffSpec(r.after, SoftSteps(soft), Angles(soft, soft))
  }

  /** The rest of `home_motors` once the axes stand on their limit switches: move both
      axes out by their home offsets plus the soft-limit steps `s`, and wait for the
      motors. */
  function BackOffSpec(m: Machine, s: Steps, a: Angles): Run<Flag> {
    var w := WaitForMotorsSpec(SendSpec(SendSpec(m, MoveX(HomeOffset(X) + s.x)), MoveY(HomeOffset(Y) + s.y)));
    if w.result.None? then Run(None, w.after)
    else ZeroSpec(w.after, s, a)
  }

  /** The end of `home_motors`: tell the controller that the axes stand at the soft-limit
      steps `s`, and take those steps and the angles `a` as the tracked position whatever
      flag answers. */
  function ZeroSpec(m: Machine, s: Steps, a: Angles): Run<Flag> {
    var f := SetMotorPositionsSpec(m, s.x, s.y, 0);
    if f.result.None? then Run(None, f.after)
    else Run(f.result, f.after.(position := s, angle := a))
  }

  /** How `get_current_position` ends: the position it read, or the `IndexError` or
      `ValueError` raised by a reply it cannot parse. */
  datatype PositionOutcome = PositionRead(steps: Steps) | ReplyUnreadable

  /** `get_current_position` */
  function GetPositionSpec(m: Machine): Run<PositionOutcome> {
    var r := ReadUntilSpec(SendSpec(m, Pos));
    if r.result.None? then Run(None, r.after)
    else
      var p := ParsePositionReply(r.result.value[0]);
      if p.None? then Run(Some(ReplyUnreadable), r.after)
      else
        var steps := Steps(p.value.0, p.value.1);
        Run(Some(PositionRead(steps)), r.after.(position := steps,
          angle := Angles(StepsToAngle(X, steps.x), StepsToAngle(Y, steps.y))))
  }

  // ---------------------------------------------------------------- the controller object

  class Spectrometer {
    var sent: seq<Command>
    var inbox: seq<string>
    var position: Steps
    var angle: Angles

    function State(): Machine
      reads this
    {
      Machine(sent, inbox, position, angle)
    }

    /** `__init__`: reads and discards the controller's greeting; both axes are taken to
        stand at 0 steps and 0 degrees. */
    constructor (link: seq<string>)
      ensures State() == Machine([], if link == [] then [] else link[1..], Steps(0, 0), Angles(0.0, 0.0))
    {
      sent := [];
      inbox := if link == [] then [] else link[1..];
      position := Steps(0, 0);
      angle := Angles(0.0, 0.0);
    }

    method Send(c: Command)
      modifies this
      ensures State() == SendSpec(old(State()), c)
    {
      sent := sent + [c];
    }

    /** `read_command_from_uno`: an exhausted link reads as "". */
    method ReadCommand() returns (text: string)
      modifies this
      ensures old(inbox) == [] ==> text == "" && State() == old(State())
      ensures old(inbox) != [] ==> text == ReadText(old(inbox)[0]) && State() == old(State()).(inbox := old(inbox)[1..])
    {
      if inbox == [] {
        text := "";
      } else {
        text := ReadText(inbox[0]);
        inbox := inbox[1..];
      }
    }

    method WaitForFlag() returns (flag: Option<Flag>)
      modifies this
      ensures flag == WaitForFlagSpec(old(State())).result
      ensures State() == WaitForFlagSpec(old(State())).after
    {
      ghost var m0 := State();
      ghost var k := 0;
      while inbox != []
        invariant 0 <= k <= |m0.inbox| && inbox == m0.inbox[k..]
        invariant State() == m0.(inbox := inbox)
        invariant PollFlag(m0.inbox) == Later(PollFlag(inbox), k)
        decreases |inbox|
      {
        var text := ReadCommand();
        var lines := SplitLines(text);
        var found := FindFlag(lines);
        assert inbox == m0.inbox[k + 1..];
        if found.Some? {
          return found;
        }
        LaterLater(PollFlag(inbox), 1, k);
        k := k + 1;
      }
      return None;
    }

    /** The `for res in response` loop of `wait_for_flag`. */
    static method FindFlag(lines: seq<string>) returns (found: Option<Flag>)
      ensures found == FirstFlag(lines)
    {
      var i := 0;
      while i < |lines|
        invariant 0 <= i <= |lines|
        invariant forall j :: 0 <= j < i ==> ParseFlag(lines[j]).None?
      {
        if ParseFlag(lines[i]).Some? {
          FirstFlagAt(lines, i);
          return ParseFlag(lines[i]);
        }
        i := i + 1;
      }
      return None;
    }

    method WaitForMotors() returns (done: bool)
      modifies this
      ensures done == WaitForMotorsSpec(old(State())).result.Some?
      ensures State() == WaitForMotorsSpec(old(State())).after
    {
      ghost var m0 := State();
      while true
        invariant WaitForMotorsSpec(State()) == WaitForMotorsSpec(m0)
        decreases |inbox|
      {
        ghost var m := State();
        Send(IsRun);
        var flag := WaitForFlag();
        if flag.None? {
          return false;
        }
        if flag.value == Ok {
          return true;
        }
        WaitForMotorsRound(m);
      }
    }

    method ReadFromSerialUntil() returns (responses: Option<seq<string>>)
      modifies this
      ensures responses == ReadUntilSpec(old(State())).result
      ensures State() == ReadUntilSpec(old(State())).after
    {
      ghost var m0 := State();
      ghost var k := 0;
      var got: seq<string> := [];
      GatheredNothing(PollReply(m0.inbox));
      while inbox != []
        invariant 0 <= k <= |m0.inbox| && inbox == m0.inbox[k..]
        invariant State() == m0.(inbox := inbox)
        invariant PollReply(m0.inbox) == Gathered(got, k, PollReply(inbox))
        decreases |inbox|
      {
        ghost var rest := inbox[1..];
        var response := ReadCommand();
        if response != "" {
          if Contains(response, "#CF") {
            return Some(got + [DropEndMarker(response)]);
          }
          GatheredGathered(got, [response], PollReply(rest), k);
          got := got + [response];
        } else {
          GatheredGathered(got, [], PollReply(rest), k);
          assert got + [] == got;
        }
        k := k + 1;
      }
      return None;
    }

    method MoveX(steps: int) returns (done: bool)
      modifies this
      ensures done == MoveSpec(old(State()), Command.MoveX(steps)).result.Some?
      ensures State() == MoveSpec(old(State()), Command.MoveX(steps)).after
    {
      Send(Command.MoveX(steps));
      done := WaitForMotors();
    }

    method MoveY(steps: int) returns (done: bool)
      modifies this
      ensures done == MoveSpec(old(State()), Command.MoveY(steps)).result.Some?
      ensures State() == MoveSpec(old(State()), Command.MoveY(steps)).after
    {
      Send(Command.MoveY(steps));
      done := WaitForMotors();
    }

    method MoveZ(steps: int) returns (done: bool)
      modifies this
      ensures done == MoveSpec(old(State()), Command.MoveZ(steps)).result.Some?
      ensures State() == MoveSpec(old(State()), Command.MoveZ(steps)).after
    {
      Send(Command.MoveZ(steps));
      done := WaitForMotors();
    }

    method SetMotorPositions(x: int, y: int, z: int) returns (flag: Option<Flag>)
      modifies this
      ensures flag == SetMotorPositionsSpec(old(State()), x, y, z).result
      ensures State() == SetMotorPositionsSpec(old(State()), x, y, z).after
    {
      Send(SetPos(x, y, z));
      flag := WaitForFlag();
    }

    method GoToAngle(x: real, y: real) returns (outcome: Option<MoveOutcome>)
      modifies this
      ensures outcome == GoToAngleSpec(old(State()), x, y).result
      ensures State() == GoToAngleSpec(old(State()), x, y).after
    {
      var tx := AngleToSteps(X, x);
      var ty := AngleToSteps(Y, y);
      if tx > HardLimits(X).high || tx < HardLimits(X).low {
        return Some(Rejected(X));
      }
      if ty > HardLimits(Y).high || ty < HardLimits(Y).low {
        return Some(Rejected(Y));
      }
      outcome := MoveTo(Steps(tx, ty), Angles(x, y));
    }

    method MoveTo(t: Steps, a: Angles) returns (outcome: Option<MoveOutcome>)
      modifies this
      ensures outcome == MoveToSpec(old(State()), t, a).result
      ensures State() == MoveToSpec(old(State()), t, a).after
    {
      ghost var m1 := old(State()).(sent := old(sent) + Moves(t.x - position.x, t.y - position.y));
      SendMoves(t.x - position.x, t.y - position.y);
      var done := WaitForMotors();
      ghost var w := WaitForMotorsSpec(m1);
      assert done == w.result.Some? && State() == w.after;
      if !done {
        return None;
      }
      position := t;
      angle := a;
      return Some(Moved);
    }

    /** The relative moves of `go_to_angle`, one per axis whose step difference is not
        zero. */
    method SendMoves(dx: int, dy: int)
      modifies this
      ensures State() == old(State()).(sent := old(sent) + Moves(dx, dy))
    {
      if dx != 0 {
        Send(Command.MoveX(dx));
      }
      if dy != 0 {
        Send(Command.MoveY(dy));
      }
    }

    method HomeMotors(soft: real) returns (flag: Option<Flag>)
      modifies this
      ensures flag == HomeSpec(old(State()), soft).result
      ensures State() == HomeSpec(old(State()), soft).after
    {
      ghost var m0 := State();
      Send(Home);
      var responses := ReadFromSerialUntil();
      ghost var r := ReadUntilSpec(SendSpec(m0, Home));
      assert responses == r.result && State() == r.after;
      if responses.None? {
        return None;
      }
      flag := BackOff(SoftSteps(soft), Angles(soft, soft));
    }

    method BackOff(s: Steps, a: Angles) returns (flag: Option<Flag>)
      modifies this
      ensures flag == BackOffSpec(old(State()), s, a).result
      ensures State() == BackOffSpec(old(State()), s, a).after
    {
      Send(Command.MoveX(HomeOffset(X) + s.x));
      Send(Command.MoveY(HomeOffset(Y) + s.y));
      ghost var m1 := State();
      assert m1 == SendSpec(SendSpec(old(State()), Command.MoveX(HomeOffset(X) + s.x)), Command.MoveY(HomeOffset(Y) + s.y));
      var done := WaitForMotors();
      ghost var w := WaitForMotorsSpec(m1);
      assert done == w.result.Some? && State() == w.after;
      if !done {
        return None;
      }
      flag := Zero(s, a);
      assert flag == ZeroSpec(w.after, s, a).result && State() == ZeroSpec(w.after, s, a).after;
    }

    method Zero(s: Steps, a: Angles) returns (flag: Option<Flag>)
      modifies this
      ensures flag == ZeroSpec(old(State()), s, a).result
      ensures State() == ZeroSpec(old(State()), s, a).after
    {
      flag := SetMotorPositions(s.x, s.y, 0);
      if flag.None? {
        return None;
      }
      position := s;
      angle := a;
    }

    method GetCurrentPosition() returns (outcome: Option<PositionOutcome>)
      modifies this
      ensures outcome == GetPositionSpec(old(State())).result
      ensures State() == GetPositionSpec(old(State())).after
    {
      ghost var m0 := State();
      Send(Pos);
      var responses := ReadFromSerialUntil();
      ghost var r := ReadUntilSpec(SendSpec(m0, Pos));
      assert responses == r.result && State() == r.after;
      if responses.None? {
        return None;
      }
      var p := ParsePositionReply(responses.value[0]);
      if p.None? {
        return Some(ReplyUnreadable);
      }
      position := Steps(p.value.0, p.value.1);
      angle := Angles(StepsToAngle(X, position.x), StepsToAngle(Y, position.y));
      return Some(PositionRead(position));
    }
  }

  // ---------------------------------------------------------------- properties

  /** The tracked angles and the tracked steps describe the same place: the steps are
      `angle_to_steps` of the angles. */
  predicate Agrees(m: Machine) {
    m.position == Steps(AngleToSteps(X, m.angle.x), AngleToSteps(Y, m.angle.y))
  }

  /** `wait_for_flag` returns the first line, over all reads in arrival order, that is a
      flag; it consumes the reads up to and including the one holding that line, and
      changes nothing else. */
  lemma WaitForFlagFindsFirstFlagLine(m: Machine)
    ensures var w := WaitForFlagSpec(m);
      var u := |m.inbox| - |w.after.inbox|;
      && w.result == FirstFlag(Flatten(Lines(m.inbox)))
      && w.after == m.(inbox := w.after.inbox)
      && (w.result.Some? ==>
            1 <= u && w.after.inbox == m.inbox[u..] && FirstFlag(Flatten(Lines(m.inbox)[..u])) == w.result)
  {
    PollFlagIsFlagScan(m.inbox);
    FlagScanIsFirstFlagLine(Lines(m.inbox));
    if PollFlag(m.inbox).Some? {
      FlagScanUsed(Lines(m.inbox));
    }
  }

  /** A flag other than S0 sends `wait_for_motors` round again on the remaining reads,
      one `isrun` further on. */
  lemma WaitForMotorsRound(m: Machine)
    requires PollFlag(m.inbox).Some? && PollFlag(m.inbox).value.value != Ok
    ensures WaitForMotorsSpec(m) ==
      WaitForMotorsSpec(m.(sent := m.sent + [IsRun], inbox := m.inbox[PollFlag(m.inbox).value.used..]))
  {
    var u := PollFlag(m.inbox).value.used;
    var t := PollIdle(m.inbox[u..]);
    assert PollIdle(m.inbox) == LaterIdle(t, 1, u);
    var sent := m.sent + [IsRun] + IsRuns(t.polls);
    assert sent == m.sent + IsRuns(t.polls + 1) by {
      IsRunsCons(t.polls);
      assert sent == m.sent + ([IsRun] + IsRuns(t.polls));
    }
    if t.used.None? {
      assert WaitForMotorsSpec(m) == Run(None, m.(sent := sent, inbox := []));
    } else {
      var v := t.used.value;
      assert m.inbox[u..][v..] == m.inbox[u + v..];
      assert WaitForMotorsSpec(m) == Run(Some(()), m.(sent := sent, inbox := m.inbox[u + v..]));
    }
  }

  /** `wait_for_motors` returns only after S0 answered one of its `isrun` commands:
      every `isrun` got exactly one flag, the last of them S0 and none before it S0, and
      exactly the reads that carried those flags were consumed. */
  lemma WaitForMotorsEndsOnOk(m: Machine)
    requires WaitForMotorsSpec(m).result.Some?
    ensures var flags := ReadFlags(Lines(m.inbox));
      var n := IdleScan(flags).polls;
      var fr := FlagsRead(flags, n);
      && WaitForMotorsSpec(m).after.sent == m.sent + IsRuns(n)
      && fr.Some? && OkOnlyAtEnd(fr.value.value, n)
      && WaitForMotorsSpec(m).after.inbox == m.inbox[fr.value.used..]
  {
    PollIdleIsIdleScan(m.inbox);
    IdleScanEndsOnOk(ReadFlags(Lines(m.inbox)));
  }

  /** `move_x`, `move_y` and `move_z` send the move and then the `isrun` polls, and
      leave the tracked position and angles as they were: only `go_to_angle`,
      `home_motors` and `get_current_position` update them. */
  lemma MoveLeavesTracking(m: Machine, c: Command)
    ensures var r := MoveSpec(m, c);
      var n := |r.after.sent| - |m.sent| - 1;
      && n >= 1 && r.after.sent == m.sent + [c] + IsRuns(n)
      && r.after.position == m.position && r.after.angle == m.angle
  {
  }

  /** `go_to_angle` checks the X target before the Y target; a target whose steps fall
      outside its axis's hard limits is refused before anything is sent, and nothing
      changes. */
  lemma GoToAngleRefuses(m: Machine, x: real, y: real)
    ensures var r := GoToAngleSpec(m, x, y);
      && (r.result == Some(Rejected(X)) <==> !WithinHardLimits(X, AngleToSteps(X, x)))
      && (r.result == Some(Rejected(Y)) <==>
            WithinHardLimits(X, AngleToSteps(X, x)) && !WithinHardLimits(Y, AngleToSteps(Y, y)))
      && (r.result.Some? && r.result.value.Rejected? ==> r.after == m)
  {
  }

  /** An accepted `go_to_angle` sends the relative moves from the tracked position to the
      targets, then the `isrun` polls; when S0 arrives the targets and the requested
      angles become the tracked position and angles, and while still polling nothing is
      committed. */
  lemma GoToAngleMoves(m: Machine, x: real, y: real)
    requires WithinHardLimits(X, AngleToSteps(X, x)) && WithinHardLimits(Y, AngleToSteps(Y, y))
    ensures var r := GoToAngleSpec(m, x, y);
      var t := Steps(AngleToSteps(X, x), AngleToSteps(Y, y));
      var moves := Moves(t.x - m.position.x, t.y - m.position.y);
      var n := |r.after.sent| - |m.sent| - |moves|;
      && n >= 1 && r.after.sent == m.sent + moves + IsRuns(n)
      && (r.result == Some(Moved) ==>
            r.after.position == t && r.after.angle == Angles(x, y))
      && (r.result.None? ==> r.after.position == m.position && r.after.angle == m.angle)
  {
    var t := Steps(AngleToSteps(X, x), AngleToSteps(Y, y));
    assert GoToAngleSpec(m, x, y) == MoveToSpec(m, t, Angles(x, y));
    MoveToSequence(m, t, Angles(x, y));
    var r := GoToAngleSpec(m, x, y);
    var moves := Moves(t.x - m.position.x, t.y - m.position.y);
    var k := PollIdle(m.inbox).polls;
    assert |r.after.sent| - |m.sent| - |moves| == k;
  }

  /** After an accepted and completed `go_to_angle` the tracked position lies inside the
      hard limits and is the step count of the tracked angles. */
  lemma GoToAngleTracks(m: Machine, x: real, y: real)
    requires GoToAngleSpec(m, x, y).result == Some(Moved)
    ensures InLimits(GoToAngleSpec(m, x, y).after.position)
    ensures Agrees(GoToAngleSpec(m, x, y).after)
  {
    GoToAngleMoves(m, x, y);
  }

  /** Tracked steps inside the hard limits stay inside them through any `go_to_angle`:
      a rejected target changes nothing and an accepted one lies inside the limits. */
  lemma GoToAngleKeepsLimits(m: Machine, x: real, y: real)
    requires InLimits(m.position)
    ensures InLimits(GoToAngleSpec(m, x, y).after.position)
  {
    var r := GoToAngleSpec(m, x, y);
    GoToAngleRefuses(m, x, y);
    if r.result == Some(Moved) {
      GoToAngleTracks(m, x, y);
    } else if r.result.None? {
      GoToAngleMoves(m, x, y);
    }
  }

  lemma MoveToSequence(m: Machine, t: Steps, a: Angles)
    ensures var r := MoveToSpec(m, t, a);
      && r.after.sent == m.sent + Moves(t.x - m.position.x, t.y - m.position.y) + IsRuns(PollIdle(m.inbox).polls)
      && (r.result.Some? ==> r.result.value == Moved && r.after.position == t && r.after.angle == a)
      && (r.result.None? ==> r.after.position == m.position && r.after.angle == m.angle)
  {
  }

  /** Where relative moves take the motors from `p`. */
  function Displace(p: Steps, moves: seq<Command>): Steps
    decreases |moves|
  {
    if moves == [] then p
    else
      var q := match moves[0]
        case MoveX(n) => p.(x := p.x + n)
        case MoveY(n) => p.(y := p.y + n)
        case _ => p;
      Displace(q, moves[1..])
  }

  /** The moves `go_to_angle` sends take motors standing at the tracked position exactly
      to the targets, and none of them is a move by zero steps. */
  lemma MovesReachTarget(p: Steps, t: Steps)
    ensures var moves := Moves(t.x - p.x, t.y - p.y);
      && Displace(p, moves) == t
      && |moves| == (if t.x != p.x then 1 else 0) + (if t.y != p.y then 1 else 0)
      && forall i :: 0 <= i < |moves| ==> (moves[i].MoveX? || moves[i].MoveY?) && moves[i].steps != 0
  {
    var moves := Moves(t.x - p.x, t.y - p.y);
    var q := p.(x := t.x);
    if t.x != p.x {
      assert moves[1..] == Moves(0, t.y - q.y);
      if t.y != p.y {
        assert moves[1..][1..] == [];
        assert Displace(q, moves[1..]) == Displace(t, []);
      } else {
        assert moves[1..] == [];
      }
    } else if t.y != p.y {
      assert moves[1..] == [];
      assert Displace(p, moves) == Displace(t, []);
    }
  }

  /** `home_motors` sends `home`, gathers the reply up to #CF, backs each axis off its
      limit switch by its home offset plus the soft-limit steps, waits for the motors,
      sends `setpos` with the soft-limit steps and z = 0, and then tracks the soft-limit
      angle on both axes whatever flag answered `setpos`. With the default soft limit the
      axes end at 1210 steps, inside the hard limits. */
  lemma HomeSequence(m: Machine, soft: real)
    requires HomeSpec(m, soft).result.Some?
    ensures var h := HomeSpec(m, soft);
      var s := SoftSteps(soft);
      var n := |h.after.sent| - |m.sent| - 4;
      && n >= 1
      && h.after.sent == m.sent + [Home] + BackOffCommands(s, n)
      && h.after.position == s && h.after.angle == Angles(soft, soft)
      && Agrees(h.after)
  {
    var r := ReadUntilSpec(SendSpec(m, Home));
    var s, a := SoftSteps(soft), Angles(soft, soft);
    assert HomeSpec(m, soft) == BackOffSpec(r.after, s, a);
    BackOffSequence(r.after, s, a);
  }

  /** Homing to the default soft limit leaves both axes at 1210 steps, inside the hard
      limits. */
  lemma HomeDefaultInLimits(m: Machine)
    requires HomeSpec(m, SoftLimit).result.Some?
    ensures HomeSpec(m, SoftLimit).after.position == Steps(1210, 1210)
    ensures InLimits(HomeSpec(m, SoftLimit).after.position)
  {
    HomeSequence(m, SoftLimit);
    assert HardLimits(X).low == SoftSteps(SoftLimit).x && HardLimits(Y).low == SoftSteps(SoftLimit).y;
  }

  /** The commands the back-off after homing writes, with `n` rounds of `isrun`. */
  function BackOffCommands(s: Steps, n: nat): (r: seq<Command>)
    ensures |r| == n + 3
  {
    [MoveX(HomeOffset(X) + s.x), MoveY(HomeOffset(Y) + s.y)] + IsRuns(n) + [SetPos(s.x, s.y, 0)]
  }

  lemma BackOffSequence(m: Machine, s: Steps, a: Angles)
    requires BackOffSpec(m, s, a).result.Some?
    ensures var h := BackOffSpec(m, s, a);
      && h.after.sent == m.sent + BackOffCommands(s, PollIdle(m.inbox).polls)
      && h.after.position == s && h.after.angle == a
  {
    var m1 := SendSpec(SendSpec(m, MoveX(HomeOffset(X) + s.x)), MoveY(HomeOffset(Y) + s.y));
    var w := WaitForMotorsSpec(m1);
    var n := PollIdle(m.inbox).polls;
    assert w.after.sent == m1.sent + IsRuns(n) by {
      assert w.result.Some?;
    }
    assert BackOffSpec(m, s, a) == ZeroSpec(w.after, s, a);
    ZeroSequence(w.after, s, a);
    BackOffCommandsSplit(m.sent, s, n);
  }

  lemma BackOffCommandsSplit(sent: seq<Command>, s: Steps, n: nat)
    ensures sent + [MoveX(HomeOffset(X) + s.x)] + [MoveY(HomeOffset(Y) + s.y)] + IsRuns(n) + [SetPos(s.x, s.y, 0)]
         == sent + BackOffCommands(s, n)
  {
  }

  lemma ZeroSequence(m: Machine, s: Steps, a: Angles)
    requires ZeroSpec(m, s, a).result.Some?
    ensures var z := ZeroSpec(m, s, a);
      && z.after.sent == m.sent + [SetPos(s.x, s.y, 0)]
      && z.after.position == s && z.after.angle == a
  {
  }

  /** `get_current_position` sends `pos` and parses the first response it gathered; a
      reply it can read becomes the tracked position, with the angles those steps stand
      for, and an unreadable one changes neither. */
  lemma GetPositionTracks(m: Machine)
    ensures var g := GetPositionSpec(m);
      && g.after.sent == m.sent + [Pos]
      && (g.result.Some? && g.result.value.PositionRead? ==>
            g.after.position == g.result.value.steps && Agrees(g.after))
      && (g.result == Some(ReplyUnreadable) ==> g.after.position == m.position && g.after.angle == m.angle)
  {
    var g := GetPositionSpec(m);
    if g.result.Some? && g.result.value.PositionRead? {
      StepsAngleRoundTrip(X, g.after.position.x);
      StepsAngleRoundTrip(Y, g.after.position.y);
    }
  }

  /** A first response that frames two or more step counts, as the controller writes
      them, is read back as its first two counts. */
  lemma GetPositionReadsReply(m: Machine, head: string, ns: seq<int>, tail: string)
    requires |head| == 2 && |tail| == 2 && |ns| >= 2
    requires var r := ReadUntilSpec(SendSpec(m, Pos));
      r.result.Some? && r.result.value[0] == head + Join(FormatAll(ns), ',') + tail
    ensures GetPositionSpec(m).result == Some(PositionRead(Steps(ns[0], ns[1])))
  {
    PositionReplyRoundTrip(head, ns, tail);
  }

  /** `read_from_serial_until` returns the non-empty reads it consumed, in arrival order;
      only the last of them holds #CF, and that one loses its last five characters. */
  lemma ReadUntilGathersReplies(m: Machine)
    requires ReadUntilSpec(m).result.Some?
    ensures var r := ReadUntilSpec(m);
      var u := |m.inbox| - |r.after.inbox|;
      && 1 <= u && r.after.inbox == m.inbox[u..]
      && EndsAtMarker(NonEmpty(Texts(m.inbox)[..u]), r.result.value)
  {
    PollReplyIsReadUntilScan(m.inbox);
    ReadUntilScanResponses(Texts(m.inbox));
  }

  lemma LaterLater<T>(r: Option<Scanned<T>>, a: nat, b: nat)
    ensures Later(Later(r, a), b) == Later(r, a + b)
  {
  }

  lemma GatheredNothing(r: Option<Scanned<seq<string>>>)
    ensures Gathered([], 0, r) == r
  {
    if r.Some? {
      assert [] + r.value.value == r.value.value;
    }
  }

  lemma GatheredGathered(got: seq<string>, more: seq<string>, r: Option<Scanned<seq<string>>>, k: nat)
    ensures Gathered(got, k, Gathered(more, 1, r)) == Gathered(got + more, k + 1, r)
  {
    if r.Some? {
      assert got + (more + r.value.value) == got + more + r.value.value;
    }
  }
}
