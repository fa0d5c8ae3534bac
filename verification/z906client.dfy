/** Model of the Logitech Z906 serial client (z906client.py).

    The client keeps a mirror of the amplifier's 23-byte status record and a
    mute flag. Every command is a single opcode byte written to the serial
    link; the link is abstracted to the log `sent` of written bytes, and the
    only reply the client reads (the status frame) is passed in as a value.
    Each operation is a pure transition returning the next client and either
    `Done` or the exception the Python code raises.
 */
module Z906Client {
  import opened Exceptions

  /** One octet, the element type of Python's `bytes` and `bytearray`. */
  type byte = x: int | 0 <= x < 256

  const VolumeMax: byte := 43
  const StatusTotalLength: nat := 23

  /** Request opcode for the status record. */
  const GetStatus: byte := 0x34

  /** Indices into the status record. */
  const StatusMainLevel: nat := 3
  const StatusRearLevel: nat := 4
  const StatusCenterLevel: nat := 5
  const StatusSubLevel: nat := 6
  const StatusVerA: nat := 17
  const StatusVerB: nat := 18
  const StatusVerC: nat := 19

  /** Mute and power opcodes. */
  const MuteOn: byte := 0x38
  const MuteOff: byte := 0x39
  const PowerOn: byte := 0x11
  const PowerOff: byte := 0x10

  /** The channel names the level operations accept, with the status index each mirrors. */
  const LevelFields: map<string, nat> :=
    map["main" := StatusMainLevel, "rear" := StatusRearLevel,
        "center" := StatusCenterLevel, "sub" := StatusSubLevel]

  /** The client object: mirrored status, mute flag, and every opcode written so far. */
  datatype Client = Client(status: seq<byte>, muted: bool, sent: seq<byte>)

  /** The client after an operation, and how the operation ended. Python
      mutates the object in place, so a raised exception still leaves behind
      whatever was done before it. */
  datatype Transition = Transition(next: Client, outcome: Outcome)

  /** A fresh client: 23 zero bytes, unmuted, nothing sent. */
  function Initial(): Client {
    Client(seq(StatusTotalLength, _ => 0), false, [])
  }

  function Min(a: nat, b: nat): nat {
    if a < b then a else b
  }

  /** `request`: write one opcode. The reply the link returns is not kept
      in the client, so only the log changes. */
  function Request(c: Client, cmd: byte): (c': Client)
    ensures c'.sent == c.sent + [cmd]
    ensures c'.status == c.status && c'.muted == c.muted
  {
    c.(sent := c.sent + [cmd])
  }

  /** `n` copies of one opcode: the log written by `n` identical steps. */
  function Repeat(op: byte, n: nat): (s: seq<byte>)
    ensures |s| == n
    ensures forall i :: 0 <= i < n ==> s[i] == op
  {
    seq(n, _ => op)
  }

  // ---------------------------------------------------------------------
  // Reference tables, written independently of the Python dispatch code.
  // ---------------------------------------------------------------------

  datatype Channel = Main | Rear | Center | Sub

  function ChannelNamed(name: string): Option<Channel> {
    if name == "main" then Some(Main)
    else if name == "rear" then Some(Rear)
    else if name == "center" then Some(Center)
    else if name == "sub" then Some(Sub)
    else None
  }

  function FieldOf(ch: Channel): nat {
    match ch
    case Main => 3
    case Rear => 4
    case Center => 5
    case Sub => 6
  }

  function UpCode(ch: Channel): byte {
    match ch
    case Main => 0x08
    case Sub => 0x0A
    case Center => 0x0C
    case Rear => 0x0E
  }

  function DownCode(ch: Channel): byte {
    match ch
    case Main => 0x09
    case Sub => 0x0B
    case Center => 0x0D
    case Rear => 0x0F
  }

  // ---------------------------------------------------------------------
  // Status refresh
  // ---------------------------------------------------------------------

  /** `update`: send the status request and replace the mirror with the
      reply, of which the serial read keeps at most 23 bytes. The port is
      opened without a timeout, so the blocking read always delivers exactly
      23; the model also accepts a shorter reply, stored as it is, a case the
      program itself never meets. */
  function Update(c: Client, reply: seq<byte>): (c': Client)
    ensures c'.sent == c.sent + [GetStatus]
    ensures |c'.status| == Min(|reply|, StatusTotalLength)
    ensures c'.status <= reply
    ensures c'.muted == c.muted
  {
    Request(c, GetStatus).(status := reply[..Min(|reply|, StatusTotalLength)])
  }

  /** The status record is replaced wholesale: the previous mirror has no
      influence on the next one. */
  lemma UpdateReplacesStatus(c: Client, d: Client, reply: seq<byte>)
    ensures Update(c, reply).status == Update(d, reply).status
  {
  }

  // ---------------------------------------------------------------------
  // Level steps
  // ---------------------------------------------------------------------

  /** The opcode chain of `level_up`, including its `subwoofer` alias. */
  function UpOpcode(level: string): byte {
    if level == "main" then 0x08
    else if level == "sub" || level == "subwoofer" then 0x0A
    else if level == "center" then 0x0C
    else if level == "rear" then 0x0E
    else 0
  }

  /** The opcode chain of `level_down`, including its `subwoofer` alias. */
  function DownOpcode(level: string): byte {
    if level == "main" then 0x09
    else if level == "sub" || level == "subwoofer" then 0x0B
    else if level == "center" then 0x0D
    else if level == "rear" then 0x0F
    else 0
  }

  /** The Python dictionary and opcode chains agree with the reference tables. */
  lemma LevelTablesAgree(level: string)
    ensures level in LevelFields <==> ChannelNamed(level).Some?
    ensures level in LevelFields ==>
      && LevelFields[level] == FieldOf(ChannelNamed(level).value)
      && UpOpcode(level) == UpCode(ChannelNamed(level).value)
      && DownOpcode(level) == DownCode(ChannelNamed(level).value)
  {
  }

  /** `level_up`. The channel is checked first, then the mirrored level;
      only then is the opcode sent and the mirror incremented. */
  function LevelUp(c: Client, level: string): (t: Transition)
    ensures ChannelNamed(level).None? ==> t == Transition(c, Raised(InvalidLevel))
    ensures ChannelNamed(level).Some? ==>
      var ch := ChannelNamed(level).value;
      var i := FieldOf(ch);
      && (i >= |c.status| ==> t == Transition(c, Raised(StatusTooShort)))
      && (i < |c.status| && c.status[i] == VolumeMax ==>
            t == Transition(c, Raised(AtMaximum)))
      && (i < |c.status| && c.status[i] == 255 ==>
            t == Transition(c.(sent := c.sent + [UpCode(ch)]), Raised(ByteOverflow)))
      && (i < |c.status| && c.status[i] != VolumeMax && c.status[i] != 255 ==>
            t == Transition(c.(status := c.status[i := c.status[i] + 1],
                               sent := c.sent + [UpCode(ch)]), Done))
  {
    LevelTablesAgree(level);
    if level !in LevelFields then Transition(c, Raised(InvalidLevel))
    else
      var field := LevelFields[level];
      var cmd := UpOpcode(level);
      if field >= |c.status| then Transition(c, Raised(StatusTooShort))
      else if c.status[field] == VolumeMax then Transition(c, Raised(AtMaximum))
      else
        var c1 := Request(c, cmd);
        // A bytearray element cannot hold 256: the opcode is already sent.
        if c.status[field] == 255 then Transition(c1, Raised(ByteOverflow))
        else Transition(c1.(status := c.status[field := c.status[field] + 1]), Done)
  }

  /** `level_down`, the mirror image of `level_up`: it stops at 0, which
      also keeps the decremented byte in range. */
  function LevelDown(c: Client, level: string): (t: Transition)
    ensures ChannelNamed(level).None? ==> t == Transition(c, Raised(InvalidLevel))
    ensures ChannelNamed(level).Some? ==>
      var ch := ChannelNamed(level).value;
      var i := FieldOf(ch);
      && (i >= |c.status| ==> t == Transition(c, Raised(StatusTooShort)))
      && (i < |c.status| && c.status[i] == 0 ==>
            t == Transition(c, Raised(AtMinimum)))
      && (i < |c.status| && c.status[i] != 0 ==>
            t == Transition(c.(status := c.status[i := c.status[i] - 1],
                               sent := c.sent + [DownCode(ch)]), Done))
  {
    LevelTablesAgree(level);
    if level !in LevelFields then Transition(c, Raised(InvalidLevel))
    else
      var cmd := DownOpcode(level);
      var field := LevelFields[level];
      if field >= |c.status| then Transition(c, Raised(StatusTooShort))
      else if c.status[field] == 0 then Transition(c, Raised(AtMinimum))
      else Transition(Request(c, cmd).(status := c.status[field := c.status[field] - 1]), Done)
  }

  /** Only the four channel names are accepted; in particular the
      `subwoofer` alias in the opcode chains can never be reached. */
  lemma LevelStepRejectsUnknownChannel(c: Client, level: string)
    requires level !in {"main", "rear", "center", "sub"}
    ensures LevelUp(c, level) == Transition(c, Raised(InvalidLevel))
    ensures LevelDown(c, level) == Transition(c, Raised(InvalidLevel))
    ensures LevelUp(c, "subwoofer").outcome == Raised(InvalidLevel)
  {
  }

  /** Channel by channel: a step that succeeds sends that channel's opcode,
      moves that channel's field by one and changes nothing else. A step up
      needs only its own field present and below 43, a step down needs only
      its own field present and above 0; the other fields play no part. */
  lemma LevelStepOpcodes(c: Client)
    ensures |c.status| > 3 && c.status[3] < VolumeMax ==>
      LevelUp(c, "main") == Transition(c.(status := c.status[3 := c.status[3] + 1], sent := c.sent + [0x08]), Done)
    ensures |c.status| > 6 && c.status[6] < VolumeMax ==>
      LevelUp(c, "sub") == Transition(c.(status := c.status[6 := c.status[6] + 1], sent := c.sent + [0x0A]), Done)
    ensures |c.status| > 5 && c.status[5] < VolumeMax ==>
      LevelUp(c, "center") == Transition(c.(status := c.status[5 := c.status[5] + 1], sent := c.sent + [0x0C]), Done)
    ensures |c.status| > 4 && c.status[4] < VolumeMax ==>
      LevelUp(c, "rear") == Transition(c.(status := c.status[4 := c.status[4] + 1], sent := c.sent + [0x0E]), Done)
    ensures |c.status| > 3 && 0 < c.status[3] ==>
      LevelDown(c, "main") == Transition(c.(status := c.status[3 := c.status[3] - 1], sent := c.sent + [0x09]), Done)
    ensures |c.status| > 6 && 0 < c.status[6] ==>
      LevelDown(c, "sub") == Transition(c.(status := c.status[6 := c.status[6] - 1], sent := c.sent + [0x0B]), Done)
    ensures |c.status| > 5 && 0 < c.status[5] ==>
      LevelDown(c, "center") == Transition(c.(status := c.status[5 := c.status[5] - 1], sent := c.sent + [0x0D]), Done)
    ensures |c.status| > 4 && 0 < c.status[4] ==>
      LevelDown(c, "rear") == Transition(c.(status := c.status[4 := c.status[4] - 1], sent := c.sent + [0x0F]), Done)
  {
  }

  /** A level step followed by the opposite step on the same channel, from
      a level in [0, 42], restores the mirror; only the log remembers. */
  lemma LevelUpThenDown(c: Client, level: string)
    requires ChannelNamed(level).Some?
    requires FieldOf(ChannelNamed(level).value) < |c.status|
    requires c.status[FieldOf(ChannelNamed(level).value)] < VolumeMax
    ensures LevelUp(c, level).outcome == Done
    ensures LevelDown(LevelUp(c, level).next, level).outcome == Done
    ensures LevelDown(LevelUp(c, level).next, level).next.status == c.status
    ensures LevelDown(LevelUp(c, level).next, level).next.muted == c.muted
  {
  }

  /** The other order restores the mirror from every nonzero level except
      44: from a device-reported 44 the step down lands on 43, where the
      step up is refused, because the guard compares for equality with 43. */
  lemma LevelDownThenUp(c: Client, level: string)
    requires ChannelNamed(level).Some?
    requires FieldOf(ChannelNamed(level).value) < |c.status|
    requires c.status[FieldOf(ChannelNamed(level).value)] != 0
    ensures LevelUp(LevelDown(c, level).next, level).outcome == Done
        <==> c.status[FieldOf(ChannelNamed(level).value)] != VolumeMax + 1
    ensures LevelUp(LevelDown(c, level).next, level).outcome == Done ==>
        LevelUp(LevelDown(c, level).next, level).next.status == c.status
  {
  }

  /** `get_level`: the mirrored level of a channel. */
  function GetLevel(c: Client, level: string): (r: Result<byte>)
    ensures ChannelNamed(level).None? ==> r == Err(InvalidLevel)
    ensures r.Ok? <==> ChannelNamed(level).Some? && FieldOf(ChannelNamed(level).value) < |c.status|
    ensures r.Ok? ==> r.value == c.status[FieldOf(ChannelNamed(level).value)]
    ensures r.Err? && ChannelNamed(level).Some? ==> r.error == StatusTooShort
  {
    LevelTablesAgree(level);
    if level !in LevelFields then Err(InvalidLevel)
    else if LevelFields[level] >= |c.status| then Err(StatusTooShort)
    else Ok(c.status[LevelFields[level]])
  }

  /** The channels read status bytes 3 (main), 4 (rear), 5 (center), 6 (sub). */
  lemma GetLevelIndices(c: Client)
    requires |c.status| == StatusTotalLength
    ensures GetLevel(c, "main") == Ok(c.status[3])
    ensures GetLevel(c, "rear") == Ok(c.status[4])
    ensures GetLevel(c, "center") == Ok(c.status[5])
    ensures GetLevel(c, "sub") == Ok(c.status[6])
  {
  }

  /** After a status refresh, the main level is byte 3 of the reply. */
  lemma UpdateThenMainLevel(c: Client, reply: seq<byte>)
    requires |reply| > StatusMainLevel
    ensures GetLevel(Update(c, reply), "main") == Ok(reply[StatusMainLevel])
  {
  }

  /** Before any refresh every level reads 0 and the client is unmuted: a
      step down on any channel raises without sending anything, and a step
      up succeeds and reads back as 1. */
  lemma FreshClient(level: string)
    requires ChannelNamed(level).Some?
    ensures GetLevel(Initial(), level) == Ok(0)
    ensures !IsMuted(Initial()) && Initial().sent == []
    ensures LevelDown(Initial(), level) == Transition(Initial(), Raised(AtMinimum))
    ensures LevelUp(Initial(), level).outcome == Done
    ensures GetLevel(LevelUp(Initial(), level).next, level) == Ok(1)
  {
  }

  // ---------------------------------------------------------------------
  // Input selection
  // ---------------------------------------------------------------------

  /** The argument of `select_input`: a number, or a name such as 'aux'. */
  datatype InputArg = Number(n: int) | Named(name: string)

  /** The input an argument designates, if any: 1 to 6, with 'aux' for 6. */
  function InputNumber(arg: InputArg): Option<int> {
    match arg
    case Number(n) => if 1 <= n <= 6 then Some(n) else None
    case Named(name) => if name == "aux" then Some(6) else None
  }

  /** The opcode chain of `select_input`; 0 means no input matched. */
  function InputOpcode(arg: InputArg): byte {
    if arg == Number(1) then 0x02
    else if arg == Number(2) then 0x05
    else if arg == Number(3) then 0x03
    else if arg == Number(4) then 0x04
    else if arg == Number(5) then 0x06
    else if arg == Named("aux") || arg == Number(6) then 0x07
    else 0
  }

  /** Which input an opcode selects: the inverse of the opcode table. */
  function InputSelectedBy(op: byte): Option<int> {
    if op == 0x02 then Some(1)
    else if op == 0x05 then Some(2)
    else if op == 0x03 then Some(3)
    else if op == 0x04 then Some(4)
    else if op == 0x06 then Some(5)
    else if op == 0x07 then Some(6)
    else None
  }

  /** Decoding the selected opcode recovers the requested input, and an
      argument with no input yields no opcode. */
  lemma InputOpcodeRoundTrip(arg: InputArg)
    ensures InputSelectedBy(InputOpcode(arg)) == InputNumber(arg)
    ensures InputOpcode(arg) == 0 <==> InputNumber(arg).None?
  {
  }

  /** `select_input`: one opcode for a known input, nothing otherwise. The
      mirror is not updated. */
  function SelectInput(c: Client, arg: InputArg): (t: Transition)
    ensures t.outcome == Done <==> InputNumber(arg).Some?
    ensures t.outcome != Done ==> t == Transition(c, Raised(InvalidInput))
    ensures t.outcome == Done ==>
      && t.next.status == c.status && t.next.muted == c.muted
      && |t.next.sent| == |c.sent| + 1 && c.sent <= t.next.sent
      && InputSelectedBy(t.next.sent[|c.sent|]) == InputNumber(arg)
  {
    InputOpcodeRoundTrip(arg);
    var cmd := InputOpcode(arg);
    if cmd == 0 then Transition(c, Raised(InvalidInput))
    else Transition(Request(c, cmd), Done)
  }

  /** The fixed table: 1, 2, 3, 4, 5 and 6 (or 'aux') send 0x02, 0x05, 0x03,
      0x04, 0x06 and 0x07. */
  lemma SelectInputTable(c: Client)
    ensures SelectInput(c, Number(1)).next.sent == c.sent + [0x02]
    ensures SelectInput(c, Number(2)).next.sent == c.sent + [0x05]
    ensures SelectInput(c, Number(3)).next.sent == c.sent + [0x03]
    ensures SelectInput(c, Number(4)).next.sent == c.sent + [0x04]
    ensures SelectInput(c, Number(5)).next.sent == c.sent + [0x06]
    ensures SelectInput(c, Number(6)).next.sent == c.sent + [0x07]
    ensures SelectInput(c, Named("aux")) == SelectInput(c, Number(6))
    ensures SelectInput(c, Number(0)) == Transition(c, Raised(InvalidInput))
    ensures SelectInput(c, Named("6")) == Transition(c, Raised(InvalidInput))
  {
  }

  // ---------------------------------------------------------------------
  // Mute and power
  // ---------------------------------------------------------------------

  /** `mute(on)`: one opcode, and the mirrored flag follows the request. */
  function Mute(c: Client, on: bool): (c': Client)
    ensures c'.muted == on
    ensures c'.status == c.status
    ensures |c'.sent| == |c.sent| + 1 && c.sent <= c'.sent
    ensures c'.sent[|c.sent|] == (if on then 0x38 else 0x39)
  {
    Request(c, if on then MuteOn else MuteOff).(muted := on)
  }

  /** `mute_toggle`: mute with the opposite of the mirrored flag. */
  function MuteToggle(c: Client): (c': Client)
    ensures c'.muted == !c.muted
    ensures c'.status == c.status
    ensures c'.sent == c.sent + [if c.muted then MuteOff else MuteOn]
  {
    Mute(c, !IsMuted(c))
  }

  /** `is_muted`: answered from the client's own flag; nothing is asked of
      the amplifier. */
  function IsMuted(c: Client): (r: bool)
    ensures r == c.muted
  {
    c.muted
  }

  /** The flag `is_muted` reports is the one the last mute request or
      power-on left: a level step, an input selection or a refresh does not
      touch it, whatever the amplifier's own state. */
  lemma IsMutedTracksRequests(c: Client, on: bool, level: string, arg: InputArg, reply: seq<byte>)
    ensures IsMuted(Mute(c, on)) == on
    ensures IsMuted(MuteToggle(c)) == !IsMuted(c)
    ensures !IsMuted(Pwm(c, true)) && IsMuted(Pwm(c, false)) == IsMuted(c)
    ensures IsMuted(LevelUp(c, level).next) == IsMuted(c)
    ensures IsMuted(LevelDown(c, level).next) == IsMuted(c)
    ensures IsMuted(SelectInput(c, arg).next) == IsMuted(c)
    ensures IsMuted(Update(c, reply)) == IsMuted(c)
    ensures !IsMuted(Initial())
  {
  }

  /** Toggling twice restores the flag and sends one mute and one unmute. */
  lemma MuteToggleTwice(c: Client)
    ensures IsMuted(MuteToggle(MuteToggle(c))) == IsMuted(c)
    ensures MuteToggle(MuteToggle(c)).status == c.status
    ensures MuteToggle(MuteToggle(c)).sent ==
      c.sent + (if c.muted then [MuteOff, MuteOn] else [MuteOn, MuteOff])
  {
  }

  /** `pwm(on)`: power on sends 0x11 and then unmutes; power off sends
      0x10 alone and keeps the flag. The bridges' `power_on` and
      `power_off`, which the client does not define, are modelled as
      `pwm(True)` and `pwm(False)`. */
  function Pwm(c: Client, on: bool): (c': Client)
    ensures c'.status == c.status
    ensures on ==> c'.sent == c.sent + [0x11, 0x39] && !c'.muted
    ensures !on ==> c'.sent == c.sent + [0x10] && c'.muted == c.muted
  {
    var c1 := Request(c, if on then PowerOn else PowerOff);
    if on then Mute(c1, false) else c1
  }

  // ---------------------------------------------------------------------
  // Firmware version
  // ---------------------------------------------------------------------

  /** The version number printed by `print_status`, C + 10 B + 100 A over
      status bytes 19, 18 and 17; a record too short to hold them raises. */
  function Version(status: seq<byte>): (v: Result<nat>)
    ensures v.Ok? <==> |status| > StatusVerC
    ensures v.Err? ==> v.error == StatusTooShort
    ensures v.Ok? ==> v.value <= 255 * 111
  {
    if |status| <= StatusVerC then Err(StatusTooShort)
    else Ok(status[StatusVerC] as nat + 10 * status[StatusVerB] as nat + 100 * status[StatusVerA] as nat)
  }

  /** Each version byte carries its own weight: one more in C, B or A adds
      1, 10 or 100 to the number, and all three at zero give 0. Together
      these fix the number as C + 10 B + 100 A for every record. */
  lemma VersionWeights(status: seq<byte>)
    requires |status| > StatusVerC
    ensures Version(status[StatusVerA := 0][StatusVerB := 0][StatusVerC := 0]).value == 0
    ensures status[StatusVerC] < 255 ==>
      Version(status[StatusVerC := status[StatusVerC] + 1]).value == Version(status).value + 1
    ensures status[StatusVerB] < 255 ==>
      Version(status[StatusVerB := status[StatusVerB] + 1]).value == Version(status).value + 10
    ensures status[StatusVerA] < 255 ==>
      Version(status[StatusVerA := status[StatusVerA] + 1]).value == Version(status).value + 100
  {
  }

  /** When the three version bytes are decimal digits, the printed number's
      digits give them back. */
  lemma VersionDigits(status: seq<byte>)
    requires |status| == StatusTotalLength
    requires status[StatusVerA] < 10 && status[StatusVerB] < 10 && status[StatusVerC] < 10
    ensures Version(status).Ok?
    ensures Version(status).value / 100 == status[StatusVerA]
    ensures Version(status).value / 10 % 10 == status[StatusVerB]
    ensures Version(status).value % 10 == status[StatusVerC]
  {
    var a, b, c := status[StatusVerA] as int, status[StatusVerB] as int, status[StatusVerC] as int;
    var v := Version(status).value;
    assert v == 100 * a + (10 * b + c);
    assert v / 10 == 10 * a + b;
  }
}
