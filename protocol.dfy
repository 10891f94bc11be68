/** The line protocol between the host and the motor controller: the commands the host
    writes, the closed set of status flags it recognises, and what each polling loop
    makes of the text the controller sends back.

    The link is modelled as a list of chunks: element k is the text that the k-th call of
    `read_command_from_uno` drains from the port (all lines waiting at that moment,
    before stripping). A read of an exhausted list returns "", and from then on nothing
    ever arrives, so a loop that is still waiting at that point would poll forever; the
    scan functions below report that case as "still waiting" (None). */
module Protocol {
  import opened Text

  /** Commands `send_command_to_UNO` writes, one per line. */
  datatype Command =
    | Home
    | MoveX(steps: int)
    | MoveY(steps: int)
    | MoveZ(steps: int)
    | IsRun
    | Pos
    | SetPos(x: int, y: int, z: int)

  /** The text of a command line, without the terminating newline. */
  function Encode(c: Command): string {
    match c
    case Home => "home"
    case MoveX(n) => "mox" + FormatInt(n)
    case MoveY(n) => "moy" + FormatInt(n)
    case MoveZ(n) => "moz" + FormatInt(n)
    case IsRun => "isrun"
    case Pos => "pos"
    case SetPos(x, y, z) => "setpos" + Join([FormatInt(x), FormatInt(y), FormatInt(z)], ',')
  }

  /** What is written to the port for a command. */
  function Frame(c: Command): string {
    Encode(c) + "\n"
  }

  lemma FormatIntHasNoComma(n: int)
    ensures ',' !in FormatInt(n)
  {
    var d := Digits(if n < 0 then -n else n);
    assert forall k :: 0 <= k < |d| ==> IsDigit(d[k]);
    if n < 0 {
      assert FormatInt(n) == "-" + d;
    }
  }

  lemma FormatIntStart(n: int)
    ensures FormatInt(n)[0] == '-' || IsDigit(FormatInt(n)[0])
  {
  }

  /** The command a line starts with, by mnemonic. */
  function Mnemonic(s: string): nat {
    if StartsWith(s, "mox") then 1
    else if StartsWith(s, "moy") then 2
    else if StartsWith(s, "moz") then 3
    else if StartsWith(s, "setpos") then 4
    else if s == "home" then 5
    else if s == "isrun" then 6
    else if s == "pos" then 7
    else 0
  }

  function Kind(c: Command): nat {
    match c
    case MoveX(_) => 1
    case MoveY(_) => 2
    case MoveZ(_) => 3
    case SetPos(_, _, _) => 4
    case Home => 5
    case IsRun => 6
    case Pos => 7
  }

  lemma MnemonicOfEncode(c: Command)
    ensures Mnemonic(Encode(c)) == Kind(c)
  {
    var s := Encode(c);
    match c
    case MoveX(n) => assert s[..3] == "mox";
    case MoveY(n) => assert s[..3] == "moy";
    case MoveZ(n) => assert s[..3] == "moz";
    case SetPos(_, _, _) => assert s[..3] == "set" && s[..6] == "setpos";
    case Home => assert s[..3] == "hom";
    case IsRun => assert s[..3] == "isr";
    case Pos => assert s[..3] == "pos";
  }

  /** Different commands are written as different lines, so the controller can always
      tell which command and which step counts were meant. */
  lemma EncodeInjective(a: Command, b: Command)
    requires Encode(a) == Encode(b)
    ensures a == b
  {
    MnemonicOfEncode(a);
    MnemonicOfEncode(b);
    assert Kind(a) == Kind(b);
    match a
    case MoveX(n) => ArgumentInjective("mox", n, b.steps);
    case MoveY(n) => ArgumentInjective("moy", n, b.steps);
    case MoveZ(n) => ArgumentInjective("moz", n, b.steps);
    case SetPos(x, y, z) =>
      var j, j' := Join([FormatInt(x), FormatInt(y), FormatInt(z)], ','), Join([FormatInt(b.x), FormatInt(b.y), FormatInt(b.z)], ',');
      assert j == Encode(a)[6..] == j';
      ArgumentsInjective(x, y, z, b.x, b.y, b.z);
    case _ =>
  }

  lemma ArgumentInjective(mnemonic: string, m: int, n: int)
    requires mnemonic + FormatInt(m) == mnemonic + FormatInt(n)
    ensures m == n
  {
    assert FormatInt(m) == (mnemonic + FormatInt(m))[|mnemonic|..];
    assert FormatInt(n) == (mnemonic + FormatInt(n))[|mnemonic|..];
    FormatIntInjective(m, n);
  }

  lemma ArgumentsInjective(x: int, y: int, z: int, x': int, y': int, z': int)
    requires Join([FormatInt(x), FormatInt(y), FormatInt(z)], ',') == Join([FormatInt(x'), FormatInt(y'), FormatInt(z')], ',')
    ensures x == x' && y == y' && z == z'
  {
    var parts := [FormatInt(x), FormatInt(y), FormatInt(z)];
    var parts' := [FormatInt(x'), FormatInt(y'), FormatInt(z')];
    FormatIntHasNoComma(x); FormatIntHasNoComma(y); FormatIntHasNoComma(z);
    FormatIntHasNoComma(x'); FormatIntHasNoComma(y'); FormatIntHasNoComma(z');
    assert forall k :: 0 <= k < 3 ==> ',' !in parts[k] && ',' !in parts'[k];
    SplitJoin(parts, ',');
    SplitJoin(parts', ',');
    assert parts == parts';
    FormatIntInjective(x, x');
    FormatIntInjective(y, y');
    FormatIntInjective(z, z');
  }


  // ---------------------------------------------------------------- status flags

  /** The keys of `flag_dict`: S0 ok, R1 motors running, F0 invalid command, #CF end of
      response. */
  datatype Flag = Ok | Running | Invalid | EndOfResponse

  function FlagText(f: Flag): string {
    match f
    case Ok => "S0"
    case Running => "R1"
    case Invalid => "F0"
    case EndOfResponse => "#CF"
  }

  /** `line in flag_dict.keys()`: only an exact match is a flag. */
  function ParseFlag(line: string): (r: Option<Flag>)
    ensures r.Some? ==> FlagText(r.value) == line
    ensures forall f :: FlagText(f) == line ==> r == Some(f)
  {
    if line == "S0" then Some(Ok)
    else if line == "R1" then Some(Running)
    else if line == "F0" then Some(Invalid)
    else if line == "#CF" then Some(EndOfResponse)
    else None
  }

  /** The flag on the first line of `lines` that is a flag. */
  function FirstFlag(lines: seq<string>): (r: Option<Flag>)
    ensures r.None? <==> forall j :: 0 <= j < |lines| ==> ParseFlag(lines[j]).None?
  {
    if lines == [] then None
    else if ParseFlag(lines[0]).Some? then ParseFlag(lines[0])
    else
      assert forall j :: 1 <= j < |lines| ==> lines[j] == lines[1..][j - 1];
      FirstFlag(lines[1..])
  }

  /** The first flag line decides the result. */
  lemma {:induction false} FirstFlagAt(lines: seq<string>, i: nat)
    requires i < |lines| && ParseFlag(lines[i]).Some?
    requires forall j :: 0 <= j < i ==> ParseFlag(lines[j]).None?
    ensures FirstFlag(lines) == ParseFlag(lines[i])
    decreases i
  {
    if i > 0 {
      FirstFlagAt(lines[1..], i - 1);
    }
  }

  lemma {:induction false} FirstFlagAppend(a: seq<string>, b: seq<string>)
    ensures FirstFlag(a + b) == if FirstFlag(a).Some? then FirstFlag(a) else FirstFlag(b)
    decreases |a|
  {
    if a != [] {
      assert (a + b)[0] == a[0];
      assert (a + b)[1..] == a[1..] + b;
      FirstFlagAppend(a[1..], b);
    } else {
      assert a + b == b;
    }
  }

  // ---------------------------------------------------------------- reads

  /** What one `read_command_from_uno` call returns: the drained text, stripped. */
  function ReadText(raw: string): string {
    Strip(raw)
  }

  /** The text of each read, in arrival order. */
  function Texts(inbox: seq<string>): (r: seq<string>)
    ensures |r| == |inbox|
  {
    if inbox == [] then [] else [ReadText(inbox[0])] + Texts(inbox[1..])
  }

  /** The lines `wait_for_flag` splits each read into, in arrival order. */
  function Lines(inbox: seq<string>): (r: seq<seq<string>>)
    ensures |r| == |inbox|
  {
    if inbox == [] then [] else [SplitLines(ReadText(inbox[0]))] + Lines(inbox[1..])
  }

  /** The flag that the first read holds, followed by those of the later reads. */
  lemma ReadFlagsLinesCons(inbox: seq<string>)
    requires inbox != []
    ensures ReadFlags(Lines(inbox)) == [FirstFlag(SplitLines(ReadText(inbox[0])))] + ReadFlags(Lines(inbox[1..]))
  {
    assert Lines(inbox)[1..] == Lines(inbox[1..]);
  }

  /** The flags of the reads from the `j`-th on. */
  lemma {:induction false} ReadFlagsLinesSuffix(inbox: seq<string>, j: nat)
    requires j <= |inbox|
    ensures ReadFlags(Lines(inbox))[j..] == ReadFlags(Lines(inbox[j..]))
    decreases j
  {
    if j > 0 {
      ReadFlagsLinesCons(inbox);
      ReadFlagsLinesSuffix(inbox[1..], j - 1);
      assert inbox[1..][j - 1..] == inbox[j..];
    }
  }

  /** The lines of all reads together, in arrival order. */
  function Flatten(chunks: seq<seq<string>>): seq<string> {
    if chunks == [] then [] else chunks[0] + Flatten(chunks[1..])
  }

  lemma {:induction false} FlattenAppend(a: seq<seq<string>>, b: seq<seq<string>>)
    ensures Flatten(a + b) == Flatten(a) + Flatten(b)
    decreases |a|
  {
    if a == [] {
      assert a + b == b;
    } else {
      assert (a + b)[0] == a[0];
      assert (a + b)[1..] == a[1..] + b;
      FlattenAppend(a[1..], b);
    }
  }

  /** For each read, the flag that the inner loop of `wait_for_flag` finds in it. */
  function ReadFlags(chunks: seq<seq<string>>): (r: seq<Option<Flag>>)
    ensures |r| == |chunks|
  {
    if chunks == [] then [] else [FirstFlag(chunks[0])] + ReadFlags(chunks[1..])
  }

  /** What a polling loop found, and how many reads it consumed to find it. */
  datatype Scanned<T> = Scanned(value: T, used: nat)

  /** A scan result found `k` reads further on. */
  function Later<T>(r: Option<Scanned<T>>, k: nat): (r': Option<Scanned<T>>)
    ensures r'.None? <==> r.None?
    ensures r.Some? ==> r'.value.value == r.value.value && r'.value.used == r.value.used + k
  {
    if r.None? then None else Some(Scanned(r.value.value, r.value.used + k))
  }

  /** `wait_for_flag`, read by read: the first read in which some line is a flag decides
      the result, and the rest of that read is discarded with it. None: no read holds a
      flag, and the loop would poll forever. */
  function FlagScan(flags: seq<Option<Flag>>): (r: Option<Scanned<Flag>>)
    ensures r.Some? ==> 1 <= r.value.used <= |flags|
  {
    if flags == [] then None
    else if flags[0].Some? then Some(Scanned(flags[0].value, 1))
    else Later(FlagScan(flags[1..]), 1)
  }

  /** The flag `wait_for_flag` returns is the first flag line of the reads it consumed. */
  lemma {:induction false} FlagScanUsed(chunks: seq<seq<string>>)
    requires FlagScan(ReadFlags(chunks)).Some?
    ensures var s := FlagScan(ReadFlags(chunks)).value;
      FirstFlag(Flatten(chunks[..s.used])) == Some(s.value)
    decreases |chunks|
  {
    var flags := ReadFlags(chunks);
    var s := FlagScan(flags).value;
    var used := chunks[..s.used];
    assert used[0] == chunks[0];
    assert Flatten(used) == chunks[0] + Flatten(used[1..]);
    if flags[0].Some? {
      assert used[1..] == [];
      assert chunks[0] + [] == chunks[0];
    } else {
      assert flags[1..] == ReadFlags(chunks[1..]);
      FlagScanUsed(chunks[1..]);
      assert used[1..] == chunks[1..][..s.used - 1];
      FirstFlagAppend(chunks[0], Flatten(used[1..]));
    }
  }

  lemma {:induction false} FlagScanNone(chunks: seq<seq<string>>)
    requires FlagScan(ReadFlags(chunks)).None?
    ensures FirstFlag(Flatten(chunks)).None?
    decreases |chunks|
  {
    if chunks != [] {
      assert ReadFlags(chunks)[1..] == ReadFlags(chunks[1..]);
      FlagScanNone(chunks[1..]);
      FirstFlagAppend(chunks[0], Flatten(chunks[1..]));
    }
  }

  /** `wait_for_flag` returns exactly the first line, over all reads in arrival order,
      that is one of S0, R1, F0, #CF, and waits forever when no such line arrives. */
  lemma FlagScanIsFirstFlagLine(chunks: seq<seq<string>>)
    ensures var s := FlagScan(ReadFlags(chunks));
      && (s.None? <==> FirstFlag(Flatten(chunks)).None?)
      && (s.Some? ==> FirstFlag(Flatten(chunks)) == Some(s.value.value))
  {
    var s := FlagScan(ReadFlags(chunks));
    if s.Some? {
      var u := s.value.used;
      calc {
        FirstFlag(Flatten(chunks));
      == { assert chunks == chunks[..u] + chunks[u..]; FlattenAppend(chunks[..u], chunks[u..]); }
        FirstFlag(Flatten(chunks[..u]) + Flatten(chunks[u..]));
      == { FlagScanUsed(chunks); FirstFlagAppend(Flatten(chunks[..u]), Flatten(chunks[u..])); }
        Some(s.value.value);
      }
    } else {
      FlagScanNone(chunks);
    }
  }

  /** `wait_for_flag` over the raw reads, one read per round of its outer loop. */
  function PollFlag(inbox: seq<string>): (r: Option<Scanned<Flag>>)
    ensures r.Some? ==> 1 <= r.value.used <= |inbox|
  {
    if inbox == [] then None
    else
      var f := FirstFlag(SplitLines(ReadText(inbox[0])));
      if f.Some? then Some(Scanned(f.value, 1)) else Later(PollFlag(inbox[1..]), 1)
  }

  /** Polling the raw reads is the scan of their flags. */
  lemma {:induction false} PollFlagIsFlagScan(inbox: seq<string>)
    ensures PollFlag(inbox) == FlagScan(ReadFlags(Lines(inbox)))
    decreases |inbox|
  {
    if inbox != [] {
      ReadFlagsLinesCons(inbox);
      PollFlagIsFlagScan(inbox[1..]);
      assert ReadFlags(Lines(inbox))[1..] == ReadFlags(Lines(inbox[1..]));
    }
  }

  /** `response[:-len('\r\n#CF')]`: drops the last five characters. */
  function DropEndMarker(response: string): string {
    if |response| >= 5 then response[..|response| - 5] else ""
  }

  /** How `read_from_serial_until` treats one read: an empty one is skipped, one holding
      #CF ends the loop, any other is kept. */
  datatype Reply = Silent | Final(text: string) | Partial(text: string)

  function Classify(text: string): (r: Reply)
    ensures r.Silent? <==> text == ""
    ensures r.Final? <==> text != "" && Contains(text, "#CF")
    ensures !r.Silent? ==> r.text == text
  {
    if text == "" then Silent
    else if Contains(text, "#CF") then Final(text)
    else Partial(text)
  }

  function Replies(texts: seq<string>): (r: seq<Reply>)
    ensures |r| == |texts|
  {
    if texts == [] then [] else [Classify(texts[0])] + Replies(texts[1..])
  }

  /** The class of the first read, followed by those of the later reads. */
  lemma RepliesTextsCons(inbox: seq<string>)
    requires inbox != []
    ensures Replies(Texts(inbox)) == [Classify(ReadText(inbox[0]))] + Replies(Texts(inbox[1..]))
  {
    assert Texts(inbox)[1..] == Texts(inbox[1..]);
  }

  /** A gathering scan result found `k` reads further on, after `got` was gathered. */
  function Gathered(got: seq<string>, k: nat, r: Option<Scanned<seq<string>>>): (r': Option<Scanned<seq<string>>>)
    ensures r'.None? <==> r.None?
    ensures r.Some? ==> r'.value.value == got + r.value.value && r'.value.used == r.value.used + k
  {
    if r.None? then None else Some(Scanned(got + r.value.value, r.value.used + k))
  }

  /** `read_from_serial_until('#CF')`, read by read: gathers the non-empty reads until one
      contains #CF, whose last five characters are cut off. None: no read holds #CF, and
      the loop would poll forever. */
  function ReadUntilScan(replies: seq<Reply>): (r: Option<Scanned<seq<string>>>)
    ensures r.Some? ==> |r.value.value| >= 1 && 1 <= r.value.used <= |replies|
  {
    if replies == [] then None
    else
      match replies[0]
      case Silent => Gathered([], 1, ReadUntilScan(replies[1..]))
      case Final(text) => Some(Scanned([DropEndMarker(text)], 1))
      case Partial(text) => Gathered([text], 1, ReadUntilScan(replies[1..]))
  }

  /** `read_from_serial_until('#CF')` over the raw reads, one read per round. */
  function PollReply(inbox: seq<string>): (r: Option<Scanned<seq<string>>>)
    ensures r.Some? ==> |r.value.value| >= 1 && 1 <= r.value.used <= |inbox|
  {
    if inbox == [] then None
    else
      match Classify(ReadText(inbox[0]))
      case Silent => Gathered([], 1, PollReply(inbox[1..]))
      case Final(text) => Some(Scanned([DropEndMarker(text)], 1))
      case Partial(text) => Gathered([text], 1, PollReply(inbox[1..]))
  }

  /** Polling the raw reads is the scan of their classes. */
  lemma {:induction false} PollReplyIsReadUntilScan(inbox: seq<string>)
    ensures PollReply(inbox) == ReadUntilScan(Replies(Texts(inbox)))
    decreases |inbox|
  {
    if inbox != [] {
      RepliesTextsCons(inbox);
      PollReplyIsReadUntilScan(inbox[1..]);
      assert Replies(Texts(inbox))[1..] == Replies(Texts(inbox[1..]));
    }
  }

  /** The non-empty reads, in arrival order. */
  function NonEmpty(texts: seq<string>): (r: seq<string>)
    ensures forall i :: 0 <= i < |r| ==> r[i] != ""
  {
    if texts == [] then []
    else if texts[0] == "" then NonEmpty(texts[1..])
    else [texts[0]] + NonEmpty(texts[1..])
  }

  /** `got` are the reads as they arrived and `value` what `read_from_serial_until`
      returns for them: the same reads, only the last holding #CF, and that one with its
      last five characters cut off. */
  predicate EndsAtMarker(got: seq<string>, value: seq<string>) {
    && |got| == |value| >= 1
    && got[..|got| - 1] == value[..|value| - 1]
    && value[|value| - 1] == DropEndMarker(got[|got| - 1])
    && Contains(got[|got| - 1], "#CF")
    && forall i :: 0 <= i < |got| - 1 ==> !Contains(got[i], "#CF")
  }

  lemma EndsAtMarkerCons(response: string, got: seq<string>, value: seq<string>)
    requires EndsAtMarker(got, value) && !Contains(response, "#CF")
    ensures EndsAtMarker([response] + got, [response] + value)
  {
    var g, v := [response] + got, [response] + value;
    assert g[..|g| - 1] == [response] + got[..|got| - 1];
    assert v[..|v| - 1] == [response] + value[..|value| - 1];
    forall i | 0 <= i < |g| - 1 ensures !Contains(g[i], "#CF") {
      if i > 0 {
        assert g[i] == got[i - 1];
      }
    }
  }

  /** `read_from_serial_until` returns the non-empty reads it consumed, in arrival
      order; only the last holds #CF, and that one loses its last five characters. */
  lemma {:induction false} ReadUntilScanResponses(texts: seq<string>)
    requires ReadUntilScan(Replies(texts)).Some?
    ensures var s := ReadUntilScan(Replies(texts)).value;
      EndsAtMarker(NonEmpty(texts[..s.used]), s.value)
    decreases |texts|
  {
    var replies := Replies(texts);
    var s := ReadUntilScan(replies).value;
    var used := texts[..s.used];
    assert used[0] == texts[0];
    assert replies[1..] == Replies(texts[1..]);
    if texts[0] == "" {
      ReadUntilScanResponses(texts[1..]);
      assert used[1..] == texts[1..][..s.used - 1];
      assert NonEmpty(used) == NonEmpty(used[1..]);
      assert [] + ReadUntilScan(replies[1..]).value.value == ReadUntilScan(replies[1..]).value.value;
    } else if Contains(texts[0], "#CF") {
      assert used[1..] == [];
      assert NonEmpty(used) == [texts[0]] + NonEmpty(used[1..]);
    } else {
      var more := ReadUntilScan(replies[1..]).value;
      ReadUntilScanResponses(texts[1..]);
      assert used[1..] == texts[1..][..s.used - 1];
      assert NonEmpty(used) == [texts[0]] + NonEmpty(used[1..]);
      EndsAtMarkerCons(texts[0], NonEmpty(used[1..]), more.value);
    }
  }

  /** `wait_for_motors`: one `isrun` per round, each answered by `wait_for_flag`, until
      the answer is S0. `polls` counts the `isrun` commands sent; `used` is None when the
      reads ran out while still waiting. */
  datatype Idle = Idle(polls: nat, used: Option<nat>)

  /** A `wait_for_motors` scan that `p` polls and `u` reads later found `i`. */
  function LaterIdle(i: Idle, p: nat, u: nat): (r: Idle)
    ensures r.polls == i.polls + p
    ensures r.used.None? <==> i.used.None?
    ensures i.used.Some? ==> r.used.value == i.used.value + u
  {
    Idle(i.polls + p, if i.used.None? then None else Some(i.used.value + u))
  }

  function IdleScan(flags: seq<Option<Flag>>): (r: Idle)
    ensures r.polls >= 1
    ensures r.used.Some? ==> 1 <= r.used.value <= |flags|
    decreases |flags|
  {
    var s := FlagScan(flags);
    if s.None? then Idle(1, None)
    else if s.value.value == Ok then Idle(1, Some(s.value.used))
    else
      LaterIdle(IdleScan(flags[s.value.used..]), 1, s.value.used)
  }

  /** `wait_for_motors` over the raw reads: one `wait_for_flag` per round, until S0. */
  function PollIdle(inbox: seq<string>): (r: Idle)
    ensures r.polls >= 1
    ensures r.used.Some? ==> 1 <= r.used.value <= |inbox|
    decreases |inbox|
  {
    var s := PollFlag(inbox);
    if s.None? then Idle(1, None)
    else if s.value.value == Ok then Idle(1, Some(s.value.used))
    else
      LaterIdle(PollIdle(inbox[s.value.used..]), 1, s.value.used)
  }

  lemma {:induction false} PollIdleIsIdleScan(inbox: seq<string>)
    ensures PollIdle(inbox) == IdleScan(ReadFlags(Lines(inbox)))
    decreases |inbox|
  {
    var flags := ReadFlags(Lines(inbox));
    PollFlagIsFlagScan(inbox);
    var s := PollFlag(inbox);
    if s.Some? && s.value.value != Ok {
      var u := s.value.used;
      calc {
        PollIdle(inbox);
        LaterIdle(PollIdle(inbox[u..]), 1, u);
      == { PollIdleIsIdleScan(inbox[u..]); }
        LaterIdle(IdleScan(ReadFlags(Lines(inbox[u..]))), 1, u);
      == { ReadFlagsLinesSuffix(inbox, u); }
        LaterIdle(IdleScan(flags[u..]), 1, u);
        IdleScan(flags);
      }
    }
  }

  /** The flags that `n` successive `wait_for_flag` calls return. */
  function FlagsRead(flags: seq<Option<Flag>>, n: nat): (r: Option<Scanned<seq<Flag>>>)
    ensures r.Some? ==> |r.value.value| == n && r.value.used <= |flags|
  {
    if n == 0 then Some(Scanned([], 0))
    else
      var s := FlagScan(flags);
      if s.None? then None
      else
        var t := FlagsRead(flags[s.value.used..], n - 1);
        if t.None? then None
        else Some(Scanned([s.value.value] + t.value.value, s.value.used + t.value.used))
  }

  /** `n` flags, the last S0 and none before it S0. */
  predicate OkOnlyAtEnd(flags: seq<Flag>, n: nat) {
    n >= 1 && |flags| == n && flags[n - 1] == Ok && forall k :: 0 <= k < n - 1 ==> flags[k] != Ok
  }

  lemma OkOnlyAtEndCons(f: Flag, flags: seq<Flag>, n: nat)
    requires f != Ok && OkOnlyAtEnd(flags, n)
    ensures OkOnlyAtEnd([f] + flags, n + 1)
  {
    var fs := [f] + flags;
    forall k | 0 <= k < n ensures fs[k] != Ok {
      if k > 0 {
        assert fs[k] == flags[k - 1];
      }
    }
  }

  /** `wait_for_motors` returns only once S0 answers one of its `isrun` commands: every
      `isrun` it sent got exactly one flag, the last one S0 and none before it S0. */
  lemma {:induction false} IdleScanEndsOnOk(flags: seq<Option<Flag>>)
    requires IdleScan(flags).used.Some?
    ensures var i := IdleScan(flags);
      var fr := FlagsRead(flags, i.polls);
      fr.Some? && fr.value.used == i.used.value && OkOnlyAtEnd(fr.value.value, i.polls)
    decreases |flags|
  {
    var s := FlagScan(flags).value;
    if s.value == Ok {
      assert FlagsRead(flags[s.used..], 0) == Some(Scanned([], 0));
      assert [s.value] + [] == [Ok];
    } else {
      var rest := flags[s.used..];
      IdleScanEndsOnOk(rest);
      var t := IdleScan(rest);
      var ft := FlagsRead(rest, t.polls).value;
      assert IdleScan(flags) == Idle(t.polls + 1, Some(s.used + t.used.value));
      assert FlagsRead(flags, t.polls + 1) == Some(Scanned([s.value] + ft.value, s.used + ft.used));
      OkOnlyAtEndCons(s.value, ft.value, t.polls);
    }
  }

  /** `n` copies of `isrun`. */
  function IsRuns(n: nat): (r: seq<Command>)
    ensures |r| == n
  {
    if n == 0 then [] else IsRuns(n - 1) + [IsRun]
  }

  lemma {:induction false} IsRunsCons(n: nat)
    ensures [IsRun] + IsRuns(n) == IsRuns(n + 1)
  {
    if n > 0 {
      IsRunsCons(n - 1);
      assert [IsRun] + (IsRuns(n - 1) + [IsRun]) == [IsRun] + IsRuns(n - 1) + [IsRun];
    }
  }

  /** Every command in `IsRuns(n)` is `isrun`. */
  lemma {:induction false} IsRunsAreIsRun(n: nat)
    ensures forall i :: 0 <= i < n ==> IsRuns(n)[i] == IsRun
  {
    if n > 0 {
      IsRunsAreIsRun(n - 1);
    }
  }

  // ---------------------------------------------------------------- position reply

  /** Python's `s[2:-2]`. */
  function TrimTwo(s: string): string {
    if |s| >= 4 then s[2..|s| - 2] else ""
  }

  /** `get_current_position` reads `response[0][2:-2].split(',')` and takes `int` of
      the first two fields; None stands for the IndexError or ValueError that escapes. */
  function ParsePositionReply(line: string): Option<(int, int)> {
    var pos := Split(TrimTwo(line), ',');
    if |pos| < 2 then None
    else
      var x := ParseInt(pos[0]);
      var y := ParseInt(pos[1]);
      if x.None? || y.None? then None else Some((x.value, y.value))
  }

  function FormatAll(ns: seq<int>): (r: seq<string>)
    ensures |r| == |ns| && forall i :: 0 <= i < |ns| ==> r[i] == FormatInt(ns[i])
  {
    seq(|ns|, i requires 0 <= i < |ns| => FormatInt(ns[i]))
  }

  /** A reply holding two or more comma-separated step counts between two framing
      characters on each side reads back as its first two counts. */
  lemma PositionReplyRoundTrip(head: string, ns: seq<int>, tail: string)
    requires |head| == 2 && |tail| == 2 && |ns| >= 2
    ensures ParsePositionReply(head + Join(FormatAll(ns), ',') + tail) == Some((ns[0], ns[1]))
  {
    var parts := FormatAll(ns);
    var body := Join(parts, ',');
    var line := head + body + tail;
    assert TrimTwo(line) == body;
    forall k | 0 <= k < |parts| ensures ',' !in parts[k] {
      FormatIntHasNoComma(ns[k]);
    }
    SplitJoin(parts, ',');
    ParseFormatInt(ns[0]);
    ParseFormatInt(ns[1]);
  }

  // ---------------------------------------------------------------- command dispatch

  /** The handlers registered in `commandDict`. */
  datatype Handler =
    | WaitForMotors | HomeMotors | GoToAngle | CurrentPosition | BasicScan | Debug
    | MoveXSteps | MoveYSteps | SetMotorPositions | MoveZSteps

  /** `commandDict.get(key)` */
  function HandlerFor(key: string): Option<Handler> {
    match key
    case "wait" => Some(WaitForMotors)
    case "home" => Some(HomeMotors)
    case "a" => Some(GoToAngle)
    case "wai" => Some(CurrentPosition)
    case "basic" => Some(BasicScan)
    case "debug" => Some(Debug)
    case "mox" => Some(MoveXSteps)
    case "moy" => Some(MoveYSteps)
    case "setpos" => Some(SetMotorPositions)
    case "z" => Some(MoveZSteps)
    case _ => None
  }

  /** `process_coms`: which handler it calls and with which arguments; None when it
      prints "Invalid command". */
  function Dispatch(command: string): Option<(Handler, seq<string>)> {
    var cmd := Split(command, ' ');
    if |cmd| > 1 then
      var h := HandlerFor(cmd[0]);
      if h.Some? then Some((h.value, cmd[1..])) else None
    else
      var h := HandlerFor(command);
      if h.Some? then Some((h.value, [])) else None
  }

  /** A handler is called exactly when the first space-separated token is a key of
      `commandDict`, and it receives the remaining tokens. */
  lemma DispatchByFirstToken(command: string)
    ensures var cmd := Split(command, ' ');
      Dispatch(command).Some? <==> HandlerFor(cmd[0]).Some?
    ensures var cmd := Split(command, ' ');
      Dispatch(command).Some? ==> Dispatch(command).value == (HandlerFor(cmd[0]).value, cmd[1..])
  {
    var cmd := Split(command, ' ');
    if |cmd| == 1 {
      assert Join(cmd, ' ') == cmd[0];
      assert command == cmd[0];
      assert cmd[1..] == [];
    }
  }
}
