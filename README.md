# Angle-resolved spectrometer: motion control, scan plans and file provenance

A Dafny model of the host side of a two-axis stepper goniometer used for angle-resolved
reflectance measurements, with proofs of what that code promises.

- **Motion controller.** `AngleResolvedSpectrometer` in `angle_resolved_run_me_v0.1.py`
  talks to the motor controller over a serial line. The model covers:
  - the angle/step calibration (121 steps per degree, truncation toward zero);
  - the hard limits [1210, 10890] on each axis;
  - the command strings (`mox`, `moy`, `moz`, `setpos`, `home`, `pos`, `isrun`) and the reply
    flags `S0`, `R1`, `F0` and `#CF`;
  - the polling loops `wait_for_flag`, `wait_for_motors` and `read_from_serial_until`;
  - `go_to_angle`, `home_motors`, `set_motor_positions` and `get_current_position`, which
    update the tracked step position and angle;
  - the `process_coms` dispatch.

  The serial link is an outbound log of commands plus a given sequence of inbound reads,
  one per `read_command_from_uno` call.
- **Scan window.** `SpectrometerGUI` in `ars_gui.py`. The model covers:
  - the `np.arange` axis lists;
  - the raster of an uncoupled scan, with the secondary axis outermost and the primary
    axis varying fastest;
  - the plan file `export_scan_list` writes;
  - the exclusive primary/secondary axis choice and the rows of the scan tree;
  - the specular and uncoupled scans driving the controller through a plan.
- **Provenance.** `anlge_resolved_analysis_run_me.py` matches acquired spectrum files to
  scan-plan entries and tags them with their angles. The model covers:
  - `generate_scan_list` and `exclude_files`;
  - the sort by sequence number and the rename loop of `rename_files`;
  - the regular-expression reading of a tagged name in `_parse_filename`;
  - the header/data partition of `load_file` and the `key: value` header of `_parse_header`;
  - the role/angle dictionary of `load_data`;
  - the set differences of `report_info`;
  - `find_reference` through the reference-axis mapping.
- **Older provenance script.** `anlge_resolved_new.py` is modelled on its own. It reads
  `scan_list.dat`, renames by the first angle only and reads the angle back from segment 3.

The directory is a set of names, and `os.listdir` is a listing in whatever order the system
gives. `os.rename` moves a name within that set. Python's `str` of a float is a function
parameter `show`. Python's `dict` is an insertion-ordered association list, so that
`find_reference` sees keys in the order the dictionary holds them.

The files, one module each, are:
- `text.dfy`: the string operations used (`split`, `join`, `strip`, `splitlines`,
  `int`/`float` parsing of the decimal forms used).
- `pydict.dfy`: the ordered dictionary.
- `calibration.dfy`, `protocol.dfy`, `controller.dfy`: the motion controller.
- `scan.dfy`: the scan window.
- `keysort.dfy`: a stable sort by integer key.
- `filenames.dfy`: the file-name conventions.
- `spectrum.dfy`: spectrum files.
- `provenance.dfy`: the rename step.
- `analysis.dfy`: `AngleReflectance`.
- `provenance_v0.dfy`: the older script.

Every stateful operation is a method on a class (`Controller.Spectrometer`,
`Scan.ScanWindow`, `Provenance.Directory`, `Analysis.AngleReflectance`) or a loop over
values. Each is proved equal to a specification function of the old state. The properties
are then proved about those functions.

Two points about the source worth knowing:
- The scan window writes `scan_list.txt` as `x,y` lines. The newer analysis script reads
  `scan_list.json`, and the older one reads `scan_list.dat`. `ProvenanceV0.ScanListRoundTrip`
  shows that a plan file written by the window would be read back line for line by the older
  script.
- `load_file` takes every non-marker line after the first marker as data. A later marker
  line is dropped, not kept as data.

## Model

| member | source | states |
|---|---|---|
| Calibration.StepsPerDegree | angle_resolved_run_me_v0.1.py:31-34 | both axes use 9680*2/160 = 121 steps per degree |
| Calibration.Trunc | angle_resolved_run_me_v0.1.py:171-174 | `int()` truncates toward zero: from below for non-negative values, from above for negative ones |
| Calibration.HardLimits | angle_resolved_run_me_v0.1.py:43-49 | each axis is limited to [steps(10°), steps(90°)] = [1210, 10890], low below high |
| Calibration.AngleToSteps | angle_resolved_run_me_v0.1.py:171-174 | `angle_to_steps`: the angle times 121 steps per degree, truncated toward zero by `int()` |
| Calibration.StepsToAngle | angle_resolved_run_me_v0.1.py:176-179 | `steps_to_angle`: the steps divided by 121, in exact reals where Python divides in floats |
| Calibration.AngleStepsRoundTrip | angle_resolved_run_me_v0.1.py:171-179 | converting an angle to steps and back loses less than one step (1/121°), toward zero |
| Calibration.StepsAngleRoundTrip | angle_resolved_run_me_v0.1.py:171-179 | converting steps to an angle and back gives the same steps |
| Calibration.AngleToStepsMonotone | angle_resolved_run_me_v0.1.py:171-174 | a larger angle never gives fewer steps |
| Calibration.WithinHardLimitsIff | angle_resolved_run_me_v0.1.py:193-198 | an angle passes an axis's limit check exactly when 10 <= angle < 10891/121 |
| Protocol.Encode | angle_resolved_run_me_v0.1.py:82-95 | the command text sent for each command: `home`, `mox<n>`, `moy<n>`, `moz<n>`, `isrun`, `pos` and `setpos<x>,<y>,<z>`, integers in decimal |
| Protocol.MnemonicOfEncode | angle_resolved_run_me_v0.1.py:82-95 | each encoded command starts with the mnemonic of its own kind |
| Protocol.EncodeInjective | angle_resolved_run_me_v0.1.py:82-95 | different commands are sent as different text |
| Protocol.ArgumentsInjective | angle_resolved_run_me_v0.1.py:164-165 | the `setpos` arguments `x,y,z` are read back uniquely from their comma-joined text |
| Protocol.ParseFlag | angle_resolved_run_me_v0.1.py:69-73 | a line is a flag exactly when it equals the text of one of S0, R1, F0, #CF, and then it is that flag |
| Protocol.FirstFlag | angle_resolved_run_me_v0.1.py:252-254 | no flag is found exactly when no line is a flag |
| Protocol.FlagScanIsFirstFlagLine | angle_resolved_run_me_v0.1.py:247-255 | polling read by read finds the same flag as the first flag line of all reads together |
| Protocol.PollFlagIsFlagScan | angle_resolved_run_me_v0.1.py:247-255 | the polling of the inbound reads equals the scan of their flags, read by read |
| Protocol.Classify | angle_resolved_run_me_v0.1.py:262-271 | an empty read is skipped, a read holding `#CF` ends the response, and any other read is kept whole |
| Protocol.ReadUntilScanResponses | angle_resolved_run_me_v0.1.py:257-274 | the gathered responses are the non-empty reads in arrival order, ending at the first that holds `#CF`, with that one's last five characters (the length of `\r\n#CF`) cut off |
| Protocol.PollReplyIsReadUntilScan | angle_resolved_run_me_v0.1.py:257-274 | the polling loop over the inbound reads equals the scan of their classified replies |
| Protocol.IdleScanEndsOnOk | angle_resolved_run_me_v0.1.py:223-231 | `wait_for_motors` ends at the first `S0` of its polls, and every earlier poll read another flag |
| Protocol.PollIdleIsIdleScan | angle_resolved_run_me_v0.1.py:223-231 | the polling of `isrun` equals the idle scan of the flags read |
| Protocol.ParsePositionReply | angle_resolved_run_me_v0.1.py:290-291 | `response[0][2:-2].split(',')` then `int` of the first two fields; None for the IndexError or ValueError that escapes |
| Protocol.PositionReplyRoundTrip | angle_resolved_run_me_v0.1.py:290-291 | a reply of two framing characters each side around comma-joined integers yields its first two integers |
| Protocol.Dispatch | angle_resolved_run_me_v0.1.py:97-114 | `process_coms`: with more than one space-separated token, the handler of the first token with the rest as arguments; with one, the handler of the whole command with none; None for "Invalid command" |
| Protocol.DispatchByFirstToken | angle_resolved_run_me_v0.1.py:97-114 | a handler runs exactly when the first space-separated token is a key of the command table, with the remaining tokens as arguments |
| Controller.WaitForFlagSpec | angle_resolved_run_me_v0.1.py:247-255 | waiting for a flag only consumes reads and consumes at least one when it finds a flag |
| Controller.ReadUntilSpec | angle_resolved_run_me_v0.1.py:257-274 | reading until `#CF` only consumes reads and returns at least one response |
| Controller.Spectrometer.constructor | angle_resolved_run_me_v0.1.py:21-38 | nothing sent, the greeting read consumed, position (0, 0) steps and angle (0, 0) |
| Controller.Spectrometer.Send | angle_resolved_run_me_v0.1.py:233-236 | the command is appended to the outbound log |
| Controller.Spectrometer.ReadCommand | angle_resolved_run_me_v0.1.py:238-245 | consumes one inbound read and returns it stripped, or "" when nothing is waiting |
| Controller.Spectrometer.WaitForFlag | angle_resolved_run_me_v0.1.py:247-255 | the polling loop returns the flag and leaves the state `WaitForFlagSpec` gives |
| Controller.Spectrometer.WaitForMotors | angle_resolved_run_me_v0.1.py:223-231 | the `isrun` loop leaves the state `WaitForMotorsSpec` gives |
| Controller.Spectrometer.ReadFromSerialUntil | angle_resolved_run_me_v0.1.py:257-274 | the loop returns the responses and leaves the state `ReadUntilSpec` gives |
| Controller.Spectrometer.MoveX | angle_resolved_run_me_v0.1.py:82-85 | sends `mox<steps>` and waits for the motors |
| Controller.Spectrometer.MoveY | angle_resolved_run_me_v0.1.py:87-90 | sends `moy<steps>` and waits for the motors |
| Controller.Spectrometer.MoveZ | angle_resolved_run_me_v0.1.py:92-95 | sends `moz<steps>` and waits for the motors |
| Controller.Spectrometer.SetMotorPositions | angle_resolved_run_me_v0.1.py:164-168 | sends `setpos` and waits for one flag, and tracks nothing |
| Controller.Spectrometer.GoToAngle | angle_resolved_run_me_v0.1.py:181-221 | the limit checks, relative moves, wait and commit of `go_to_angle`, as `GoToAngleSpec` |
| Controller.Spectrometer.MoveTo | angle_resolved_run_me_v0.1.py:200-218 | the moves to an accepted target, the wait and the commit |
| Controller.Spectrometer.SendMoves | angle_resolved_run_me_v0.1.py:204-209 | sends `mox`, then `moy`, each only for a non-zero delta |
| Controller.Spectrometer.HomeMotors | angle_resolved_run_me_v0.1.py:128-162 | the homing sequence, as `HomeSpec` |
| Controller.Spectrometer.BackOff | angle_resolved_run_me_v0.1.py:143-156 | moves from the limit switches to the soft limit and waits, then sets the positions |
| Controller.Spectrometer.Zero | angle_resolved_run_me_v0.1.py:156-160 | sends `setpos` and commits the position and angle whatever flag comes back |
| Controller.Spectrometer.GetCurrentPosition | angle_resolved_run_me_v0.1.py:285-296 | sends `pos`, reads the reply and, if it parses, tracks the steps it gives |
| Controller.WaitForFlagFindsFirstFlagLine | angle_resolved_run_me_v0.1.py:247-255 | `wait_for_flag` returns the first line of the reads that is a flag, having consumed exactly the reads up to it, and changes nothing else |
| Controller.WaitForMotorsRound | angle_resolved_run_me_v0.1.py:225-231 | a poll that does not read `S0` sends `isrun` and polls again from the next read |
| Controller.WaitForMotorsEndsOnOk | angle_resolved_run_me_v0.1.py:223-231 | `wait_for_motors` sends one `isrun` per poll and returns only after reading `S0`, which no earlier poll read |
| Controller.MoveLeavesTracking | angle_resolved_run_me_v0.1.py:82-95 | `move_x/y/z` send their command and at least one `isrun`, and never change the tracked position or angle |
| Controller.GoToAngleRefuses | angle_resolved_run_me_v0.1.py:193-198 | the X limit is checked before the Y limit, a refused target is refused exactly when outside its limits, and a refusal sends nothing and changes nothing |
| Controller.GoToAngleMoves | angle_resolved_run_me_v0.1.py:200-218 | an accepted target sends only the relative moves, then `isrun` polls, and once the motors are idle the tracked steps and angle are the target |
| Controller.GoToAngleTracks | angle_resolved_run_me_v0.1.py:215-218 | after a completed move the tracked steps are inside the hard limits and agree with the tracked angle |
| Controller.GoToAngleKeepsLimits | angle_resolved_run_me_v0.1.py:181-218 | a tracked position inside the hard limits stays inside them, whether the target is refused or accepted |
| Controller.MoveToSequence | angle_resolved_run_me_v0.1.py:200-218 | the commands an accepted move sends are its relative moves followed by the `isrun` polls |
| Controller.MovesReachTarget | angle_resolved_run_me_v0.1.py:201-209 | the relative moves carry the tracked position exactly to the target, one move per axis that changes, none of zero steps |
| Controller.HomeSequence | angle_resolved_run_me_v0.1.py:134-160 | homing sends `home`, `mox<-10720+s>`, `moy<-10252+s>`, the polls and `setpos<s>,<s>,0`, then tracks steps s and angle `soft` on both axes |
| Controller.HomeDefaultInLimits | angle_resolved_run_me_v0.1.py:128-160 | homing to the default soft limit of 10° tracks (1210, 1210), the low hard limit |
| Controller.BackOffSequence | angle_resolved_run_me_v0.1.py:150-160 | backing off sends the two moves, the polls and `setpos`, then commits |
| Controller.ZeroSequence | angle_resolved_run_me_v0.1.py:156-160 | setting positions sends only `setpos` and commits whatever flag comes back |
| Controller.GetPositionTracks | angle_resolved_run_me_v0.1.py:285-294 | `get_current_position` sends `pos`, and a parsed reply sets tracked steps and angles that agree |
| Controller.GetPositionReadsReply | angle_resolved_run_me_v0.1.py:289-292 | a well-formed first response `..x,y..` sets the position to (x, y) |
| Controller.ReadUntilGathersReplies | angle_resolved_run_me_v0.1.py:257-274 | `read_from_serial_until` consumes the reads up to the one holding `#CF` and returns their non-empty texts |
| Scan.Arange | ars_gui.py:239-240 | `np.arange(start, stop, step)`: ceil((stop - start) / step) values start + i*step, none when that count is not positive, None for a zero step |
| Scan.ArangeStopsBeforeStop | ars_gui.py:239-240 | `np.arange` gives `start + i*step` for each i, every value before `stop` in the direction of the step and the next one not |
| Scan.ArangeCount | ars_gui.py:239-240 | the number of values is the least count whose progression reaches `stop` |
| Scan.AxisAnglesCoverRange | ars_gui.py:239-240 | an axis list for `stop + step` starts at `start`, steps by the resolution and ends in [stop, stop + resolution) |
| Scan.Raster | ars_gui.py:237-251 | the nested loops of `generate_scan_dimensions`: for each secondary angle in order, each primary angle in order, as (x, y) by the axis order |
| Scan.RasterShape | ars_gui.py:237-251 | for a known axis order the raster has \|P\|·\|S\| points, and point k uses secondary index k div \|P\| and primary index k mod \|P\|, oriented by the axis order |
| Scan.RasterGrows | ars_gui.py:244-249 | one more row of the outer loop extends the grid by one secondary angle |
| Scan.RasterUnknownOrder | ars_gui.py:246-249 | an axis order other than ("X","Y") and ("Y","X") gives no points |
| Scan.PlanText | ars_gui.py:301-304 | the text `export_scan_list` writes: one `a,b` line with a newline per plan point, in plan order |
| Scan.PlanTextRoundTrip | ars_gui.py:301-304 | the plan file splits back into one `a,b` line per point in plan order, then an empty tail |
| Scan.PlanLineSplits | ars_gui.py:304 | each plan line holds no newline and splits at its comma into the two angles |
| Scan.SecondaryFor | ars_gui.py:182-193 | the secondary axis is X or Y and never the primary axis |
| Scan.ScanTreeRows | ars_gui.py:165-172 | the tree rows: one `X/Y` row of the primary parameters in specular mode, a primary and a secondary row in uncoupled mode, none otherwise |
| Scan.ScanTreeRowsUncoupled | ars_gui.py:170-172 | in uncoupled mode the tree shows the primary then the secondary parameters, under two different axes |
| Scan.ReturnTargetIsPlanOrigin | ars_gui.py:298 | the corrected return target is the first point of the plan, for either axis order |
| Scan.ReturnAsWrittenMissesOrigin | ars_gui.py:298 | with Y primary, the return as written goes to (20, 40) while the plan starts at (40, 20) |
| Scan.ReturnAsWrittenWithPrimaryX | ars_gui.py:298 | with X primary, the return as written is the corrected one |
| Scan.VisitEndsAtLastPoint | ars_gui.py:293-296 | visiting a plan ends tracked at its last point when that point is within the limits |
| Scan.VisitKeepsLimits | ars_gui.py:293-296 | visiting a plan keeps the tracked position inside the hard limits |
| Scan.SpecularReturnsToStart | ars_gui.py:253-266 | a finished specular scan ends tracked at (start, start) |
| Scan.SpecularKeepsLimits | ars_gui.py:253-266 | a specular scan keeps the tracked position inside the hard limits |
| Scan.UncoupledReturnsToOrigin | ars_gui.py:268-299 | the corrected uncoupled scan (`UncoupledSpecCorrected`, returning to `ReturnTarget`), when finished, ends tracked at the first point of its plan |
| Scan.UncoupledEndsAsWritten | ars_gui.py:268-299 | the uncoupled scan as written, when finished, ends tracked at (primary start, secondary start); that point is the plan's first point exactly when X is primary or both starts are equal |
| Scan.UncoupledKeepsLimits | ars_gui.py:268-299 | an uncoupled scan keeps the tracked position inside the hard limits, whatever its final move, so both as written and corrected |
| Scan.SetMotorPositionsLeavesTracking | ars_gui.py:155-163 | the window's button sends `setpos` of the angles' steps with z = 0, and the tracked position and angle do not change |
| Scan.ScanWindow.constructor | ars_gui.py:7-24 | specular mode, primary X, secondary Y, all parameters zero, empty tree and no files |
| Scan.ScanWindow.UpdateSecondaryAxis | ars_gui.py:182-193 | the secondary axis becomes the other axis, and only its radio button stays enabled |
| Scan.ScanWindow.UpdateScanTree | ars_gui.py:165-172 | the tree rows become those of the mode and parameters |
| Scan.ScanWindow.SetMotorPositions | ars_gui.py:155-163 | forwards the steps of the X and Y angles with z = 0 to the controller |
| Scan.ScanWindow.GenerateScanDimensions | ars_gui.py:237-251 | the nested loops return the raster of the two axis lists |
| Scan.ScanWindow.ExportScanList | ars_gui.py:301-304 | the named file holds the plan text and no other file changes |
| Scan.ScanWindow.VisitAngles | ars_gui.py:260-263 | each angle visited as (a, a), then `wait_for_motors`, in order |
| Scan.ScanWindow.VisitPlan | ars_gui.py:293-296 | each point visited, then `wait_for_motors`, in plan order |
| Scan.ScanWindow.RunSpecularScan | ars_gui.py:253-266 | the specular scan, as `SpecularSpec` |
| Scan.ScanWindow.RunUncoupledScan | ars_gui.py:268-299 | the plan is written to `scan_list.txt` before any move, then visited, then the motors go to `(p_start, s_start)` as written (`UncoupledSpec`) |
| KeySort.SortAscending | anlge_resolved_analysis_run_me.py:65-66 | the key sort orders the keys ascending |
| KeySort.SortPermutes | anlge_resolved_analysis_run_me.py:65-66 | the key sort keeps every pair, each as often |
| FileNames.Tagged | anlge_resolved_analysis_run_me.py:40-44 | the test of `exclude_files`: the last `_` segment of the name, less a final `.` and three word characters, splits at commas into two or more pieces |
| FileNames.SplitSingleIff | anlge_resolved_analysis_run_me.py:42-44 | splitting gives one piece exactly when the separator does not occur |
| FileNames.TaggedIffComma | anlge_resolved_analysis_run_me.py:41-45 | a name counts as tagged exactly when the last `_` segment of its stem holds a comma |
| FileNames.SequenceKey | anlge_resolved_analysis_run_me.py:65-66 | the sort key `int(x.split('_')[2].split('.')[0])`, or IndexError for too few segments and ValueError for a non-integer |
| FileNames.SequenceKeyOf | anlge_resolved_analysis_run_me.py:65 | the sort key of a name whose segment holds `<n>.<ext>` is n |
| FileNames.NewName | anlge_resolved_analysis_run_me.py:101-102 | the new name: every `_` segment but the last, joined by `_`, then `_<tag>.txt` |
| FileNames.NewNameTagged | anlge_resolved_analysis_run_me.py:101-102 | a new name ends in the angle tag and is recognised as tagged |
| FileNames.AngleTagShape | anlge_resolved_analysis_run_me.py:99-100 | a tag of two or more angles holds a comma and no `_` |
| FileNames.RoleOf | anlge_resolved_analysis_run_me.py:155-169 | reference when the lower-cased first `_` segment contains "ref" on its first line, sample otherwise |
| FileNames.ParseFilename | anlge_resolved_analysis_run_me.py:138-175 | `_parse_filename`: the role, and the two numbers of the first `a,b` match through `float`, or None for the IndexError when nothing matches |
| FileNames.FirstMatch | anlge_resolved_analysis_run_me.py:143-146 | the first match found starts at or after the search point and is the match there |
| FileNames.FirstMatchAt | anlge_resolved_analysis_run_me.py:143-146 | the first match is at the first position where the pattern matches |
| FileNames.AnglesOfTaggedName | anlge_resolved_analysis_run_me.py:152-158 | the angles of a tagged name with a comma-free prefix are the two decimals of its tag |
| FileNames.ParseRenamedFile | anlge_resolved_analysis_run_me.py:138-175 | a file renamed for two angles is read back with exactly those angles |
| FileNames.RenamedIsTagged | anlge_resolved_analysis_run_me.py:101-102 | a renamed file has the layout `<prefix>_<a>,<b>.txt` |
| FileNames.NewNameKeepsFirst | anlge_resolved_analysis_run_me.py:101-102 | renaming keeps the first `_` segment |
| FileNames.NewNameKeepsRole | anlge_resolved_analysis_run_me.py:161-170 | renaming keeps the role `_parse_filename` gives the file |
| FileNames.ParseDecimal | anlge_resolved_analysis_run_me.py:157 | `float` of a decimal's text is its value |
| SpectrumFile.Partition | anlge_resolved_analysis_run_me.py:181-193 | the `found_data` loop gives the lines before the first marker as header and the later non-marker lines as data (anlge_resolved_new.py:51-63 is the same loop) |
| SpectrumFile.LoadFile | anlge_resolved_analysis_run_me.py:177-196 | the header dictionary of the header part, and the data part |
| SpectrumFile.PartitionRoundTrip | anlge_resolved_analysis_run_me.py:185-193 | header lines, a marker line and data lines, none of them a marker, read back as that header and that data |
| SpectrumFile.NoMarkerAllHeader | anlge_resolved_analysis_run_me.py:185-193 | a file without a marker line is all header |
| SpectrumFile.ParseHeader | anlge_resolved_analysis_run_me.py:198-204 | the header loop builds the dictionary of the header lines (anlge_resolved_new.py:68-74 is the same loop) |
| SpectrumFile.LastValue | anlge_resolved_analysis_run_me.py:200-203 | a key has a value exactly when some line splits into that key |
| SpectrumFile.HeaderReadsLastValue | anlge_resolved_analysis_run_me.py:200-203 | each key reads the value of its last line, lines without `:` add nothing |
| SpectrumFile.EntryRoundTrip | anlge_resolved_analysis_run_me.py:202-203 | `key: value` is read back as that key and value, and the value may hold `:` |
| Provenance.GenerateScanList | anlge_resolved_analysis_run_me.py:8-28 | writes exactly when there are 3 parameters that all parse as floats and the step is not zero, and writes the specular list of those numbers |
| Provenance.SpecularListShape | anlge_resolved_analysis_run_me.py:19-24 | reference and sample lists are equal, and entry i is `[a, a]` with a = start + i*step before stop + step |
| Provenance.ExcludeFiles | anlge_resolved_analysis_run_me.py:34-50 | the copy-and-remove loop leaves the untagged names in order |
| Provenance.UntaggedMembers | anlge_resolved_analysis_run_me.py:34-50 | a name is kept exactly when it was in the list and is not tagged |
| Provenance.WithIdMembers | anlge_resolved_analysis_run_me.py:52-53 | a role's files are exactly the listed names containing its id |
| Provenance.SortBySequenceSorts | anlge_resolved_analysis_run_me.py:65-66 | a sort keeps the same names, as many, in ascending order of sequence number |
| Provenance.KeyAllKeys | anlge_resolved_analysis_run_me.py:65-66 | every keyed name carries its own sequence number |
| Provenance.Directory.constructor | anlge_resolved_analysis_run_me.py:52-53 | the directory holds the given names |
| Provenance.Directory.Rename | anlge_resolved_analysis_run_me.py:110-117 | a rename succeeds exactly when the source exists, and moves it to the new name |
| Provenance.ApplyStepsNames | anlge_resolved_analysis_run_me.py:98-117 | every name after the renames is a new name of a move, or an old name no move touched |
| Provenance.RenameByPlan | anlge_resolved_analysis_run_me.py:98-117 | the indexed loop ends as `RenameLoop` says, having applied its rounds' renames |
| Provenance.RenameFilesSpec | anlge_resolved_analysis_run_me.py:31-118 | `rename_files` as written: skipped when no untagged files remain, IndexError from a short sort key, the loop over the sorted lists, and after a ValueError either skipped (names look renamed) or carrying on into the loop with the sorted lists left unset |
| Provenance.RenameCheckedSpec | anlge_resolved_analysis_run_me.py:31-118 | `rename_files` corrected: renames only when both sorted lists and both plan lists have the same length, and stops with the ValueError instead of carrying on |
| Provenance.RenameFiles | anlge_resolved_analysis_run_me.py:31-118 | `rename_files` with a loaded scan list ends as `RenameFilesSpec` says, having applied its renames |
| Provenance.SortStage | anlge_resolved_analysis_run_me.py:64-74 | the sort stage gives what `SortRoles` says, reference list first |
| Provenance.LoopRuns | anlge_resolved_analysis_run_me.py:98-107 | the loop runs as many rounds as the shortest of the plans and sorted lists, pairing index i with index i, and raises IndexError unless the reference plan is shortest |
| Provenance.ExtraFilesKeptAsWritten | anlge_resolved_analysis_run_me.py:98-107 | as written, reference files beyond the plan are never renamed, yet the run reports success |
| Provenance.MissingFilesRaiseAsWritten | anlge_resolved_analysis_run_me.py:98-107 | as written, fewer reference files than plan entries rename some files and then raise IndexError |
| Provenance.CarriesOnAsWritten | anlge_resolved_analysis_run_me.py:67-74 | as written, a sort key that is not an integer, on names that do not look renamed, is only reported: nothing is renamed, and the call raises unless the plan is empty |
| Provenance.StopsWhenChecked | anlge_resolved_analysis_run_me.py:67-74 | corrected, that case stops with ValueError and renames nothing |
| Provenance.CheckedRenamesEvery | anlge_resolved_analysis_run_me.py:98-107 | corrected, a successful run moves every untagged file of each role |
| Provenance.CheckedMovesFromPlan | anlge_resolved_analysis_run_me.py:98-107 | corrected, every move tags a file with an entry of the plan |
| Provenance.TargetTagged | anlge_resolved_analysis_run_me.py:99-107 | a new name carrying two or more angles is tagged |
| Provenance.NoneUntagged | anlge_resolved_analysis_run_me.py:34-50 | a list of tagged names is excluded entirely |
| Provenance.CheckedRunSettles | anlge_resolved_analysis_run_me.py:55-62 | after a successful corrected run, a second run on what the directory then lists is skipped, both as written and corrected; a successful run as written gives no such promise (`Provenance.ExtraFilesKeptAsWritten`) |
| Analysis.MapAll | anlge_resolved_analysis_run_me.py:235 | building every `ReflectionFile` succeeds exactly when each does, and gives each in order |
| Analysis.LastFile | anlge_resolved_analysis_run_me.py:238-241 | a file is kept for a role and angle pair exactly when some loaded file has them |
| Analysis.LastFileIsLast | anlge_resolved_analysis_run_me.py:238-241 | the file kept for a role and angle pair is the last one loaded with them |
| Analysis.GroupHasRole | anlge_resolved_analysis_run_me.py:238-241 | a role has a dictionary exactly when some file has that role |
| Analysis.GroupReads | anlge_resolved_analysis_run_me.py:238-241 | a later file with the same role and angles overwrites an earlier one |
| Analysis.FiledInTwoSteps | anlge_resolved_analysis_run_me.py:239-241 | filing one file creates the role's dictionary if needed, then sets the angle pair |
| Analysis.LoadDataSpec | anlge_resolved_analysis_run_me.py:233-243 | `load_data`: the `.txt` names parsed in listing order, then grouped by role and angle pair, a later file replacing an earlier one; None when some name has no angle pair |
| Analysis.LoadData | anlge_resolved_analysis_run_me.py:233-243 | `load_data` reads the `.txt` names and groups them, as `LoadDataSpec` |
| Analysis.ReadFiles | anlge_resolved_analysis_run_me.py:235 | the comprehension loop is `MapAll` |
| Analysis.GroupFiles | anlge_resolved_analysis_run_me.py:237-243 | the grouping loop is `Group` |
| Analysis.ReportOf | anlge_resolved_analysis_run_me.py:259-273 | all angles are accounted for exactly when both roles have the same angle pairs; otherwise the missing pairs are the set differences, reference side first |
| Analysis.ReportInfo | anlge_resolved_analysis_run_me.py:245-275 | the loops collect each role's angle pairs, report as `ReportOf`, and return True |
| Analysis.PairIndex | anlge_resolved_analysis_run_me.py:280-282 | indexing a pair works for -2..1 only, with 0 and -2 the first angle |
| Analysis.FindReferenceSpec | anlge_resolved_analysis_run_me.py:278-288 | `find_reference`: IndexError for a bad sample axis, KeyError without references, IndexError for a bad reference axis when there are keys, AssertionError with no candidate, else the first candidate and whether more than one matched |
| Analysis.FoundIsFirstMatch | anlge_resolved_analysis_run_me.py:278-288 | a found reference is the first reference key, in dictionary order, whose mapped component equals the sample's |
| Analysis.NoCandidateIff | anlge_resolved_analysis_run_me.py:282-284 | the assertion fails exactly when the indices are valid, references exist and no key matches |
| Analysis.AngleReflectance.constructor | anlge_resolved_analysis_run_me.py:216-231 | holds the loaded dictionary and the axis mapping, with no warnings |
| Analysis.AngleReflectance.FindReference | anlge_resolved_analysis_run_me.py:278-288 | returns the lookup and adds one warning exactly when more than one reference matches |
| ProvenanceV0.AngleList | anlge_resolved_new.py:14-18 | one entry per line of the file, each the line stripped and split at commas |
| ProvenanceV0.ReadAngleList | anlge_resolved_new.py:14-18 | the reading loop gives `AngleList` |
| ProvenanceV0.ScanListRoundTrip | anlge_resolved_new.py:14-18 | a plan file written by the scan window reads back as one `[a, b]` entry per point, in order |
| ProvenanceV0.RenameFilesV0 | anlge_resolved_new.py:6-29 | `rename_files` ends and leaves the directory as `RenameFilesV0Spec` says: a failed sort key raises first, then a missing `scan_list.dat` raises with nothing renamed, then the renaming loop runs |
| ProvenanceV0.RenamedHadEnough | anlge_resolved_new.py:20-27 | a run that prints "Files renamed." had a reference file, a sample file and a first angle for every line |
| ProvenanceV0.LoopV0Completes | anlge_resolved_new.py:20-27 | with the files present, distinct and no new name among them, the run completes and replaces each file by its new name |
| ProvenanceV0.ParseFilenameAsWritten | anlge_resolved_new.py:40-45 | `_parse_filename` as written: on the name without its last four characters, segment 1 is the data type and the angle is `float` of segment 3 up to its first `.`; IndexError or ValueError otherwise |
| ProvenanceV0.ParseFilenameV0 | anlge_resolved_new.py:40-45 | `_parse_filename` corrected: the same, with the angle `float` of the whole segment 3 |
| ProvenanceV0.AsWrittenAngleIsWhole | anlge_resolved_new.py:43 | as written, for every file name, a parsed angle is a whole number |
| ProvenanceV0.AsWrittenDropsFraction | anlge_resolved_new.py:40-45 | as written, a renamed file reads back only the whole part of its angle |
| ProvenanceV0.AsWrittenCollides | anlge_resolved_new.py:43 | as written, files renamed for 12 and 12.5 differ but read back at the same angle |
| ProvenanceV0.RenamedNameReadsBack | anlge_resolved_new.py:40-45 | corrected, a renamed file reads back its data type and its angle |
| ProvenanceV0.LoadDataV0 | anlge_resolved_new.py:92-102 | `load_data` as written parses the `.txt` names with `_parse_filename` as written and groups them by data type and angle |
| ProvenanceV0.LoadDataV0Corrected | anlge_resolved_new.py:92-102 | the same with the corrected `_parse_filename`, which reads a renamed file's whole angle |
| ProvenanceV0.LoadDataFails | anlge_resolved_new.py:93-94 | loading fails exactly when some `.txt` name does not parse |
| ProvenanceV0.LoadDataFiles | anlge_resolved_new.py:96-102 | every parsed `.txt` name is filed under its data type and angle, unless a later file overwrote it |

## Left out

- The serial port, `time.sleep`, byte encoding and `in_waiting`. The link is an outbound
  log plus a given sequence of inbound reads. A read that holds several lines arrives as
  one element.
- The polling loops have no bound in the source. In the model they stop with no result
  (`None`) when the given reads run out, where the program would poll forever. No timeout
  is added.
- `print` output, `input` prompts, `breakpoint`/`debug`, the `__main__` blocks and the
  module-level objects.
- The prompt loop of `rename_files` that offers to generate `scan_list.json`
  (anlge_resolved_analysis_run_me.py:77-87). `rename_files` takes the loaded scan list.
- JSON encoding and decoding, including missing `reference`/`sample` keys.
- The tkinter widgets and layout of `SpectrometerGUI`, `goto_angles`, `start_scan`,
  `update_mode`, `toggle_secondary_axis_params` and `DummySpectrometer`.
- Floating point:
  - angles are exact reals;
  - `np.arange`'s accumulation error and its rounding of the count are not modelled;
  - Python's `str` of a float is the parameter `show`;
  - `float()` accepts only the plain decimal forms (sign, digits, optional fraction), with
    no exponents, `inf` or `nan`;
  - `int()` accepts only an optional sign and digits.
- `go_to_angle`'s `float()` conversion of its arguments (lines 183-187). The model takes
  numbers, so the caught ValueError does not arise.
- Spectral data: `_parse_data`, `integration_time`, `calculate_reflectivity`, `normalise_*`,
  `truncate_data`, `plot_*` and `export_data`. A loaded file is represented by its name.
  `load_data` does not model the file reads of `ReflectionFile`.
- Unicode: `lower()` and `\s` are ASCII-only, and `\d`/`\w` are ASCII digits and word
  characters.
- `readlines` keeps line endings as Python text mode gives them. `\r\n` translation is not
  modelled.
- `os.rename` onto an existing name: the model lets the name simply exist once. Windows
  would raise there, and POSIX would replace the file.
- The `report_info` warning texts are represented by the report's fields, not by the
  printed strings.
- Analysis.AngleReflectance.constructor: takes the already-loaded dictionary instead of
  calling `load_data` and `report_info` itself. `Analysis.LoadData` and
  `Analysis.ReportInfo` model those calls.
- KeySort.SortAscending: the stability of Python's `sorted` for equal keys is not proved.
  Order and permutation are.
- Analysis.AngleReflectance.FindReference: the warning is stated as "added exactly when
  more than one candidate matches". The warning text is represented by the angle pair.

## Findings

| source | as written | input that shows it | evidently intended | confidence | as-written member | corrected member |
|---|---|---|---|---|---|---|
| anlge_resolved_analysis_run_me.py:98-107 | the loop indexes the sorted file lists by plan position and never compares the counts | more reference files than plan entries: the extra files stay unrenamed and the run prints "Files renamed."; fewer: some files are renamed, then IndexError | rename only when the files and the plan entries pair up one to one | not executed | Provenance.ExtraFilesKeptAsWritten | Provenance.CheckedRenamesEvery |
| anlge_resolved_analysis_run_me.py:67-74 | after a ValueError from the sort key, when the names do not look renamed, the error is printed and execution continues with the sorted lists unset | a reference name whose segment 2 is `abc.txt` | stop with the error | not executed | Provenance.CarriesOnAsWritten | Provenance.StopsWhenChecked |
| ars_gui.py:298 | `go_to_angle(p_start, s_start)` puts the primary start on X whatever the primary axis | primary Y from 20 to 30, secondary X at 40, resolution 10: the plan starts at (40, 20), the return goes to (20, 40) | return to the first point of the plan | not executed | Scan.ReturnAsWrittenMissesOrigin | Scan.UncoupledReturnsToOrigin |
| anlge_resolved_new.py:43 | the angle is `float(name_parts[3].split('.')[0])`, so a fraction in the angle tag is dropped | files tagged `12` and `12.5` both read back at 12.0, and `load_data` keeps only one of them | read the whole tag `name_parts[3]` | not executed | ProvenanceV0.AsWrittenCollides | ProvenanceV0.RenamedNameReadsBack |
