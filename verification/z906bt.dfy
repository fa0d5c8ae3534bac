/** Model of the Bluetooth translator (z906bt.py): `play`, `pause` and
    `volume` callbacks become amplifier commands.

    The wire protocol has no command that sets a level, so a volume event
    refreshes the mirror, scales the Bluetooth volume (0 to 127) to the
    amplifier's range (0 to 43), and then walks the main level there one
    step at a time.
 */
module Z906Bt {
  import opened Exceptions
  import opened Z906Client
  import opened BtClient

  /** The translator: its amplifier client and the input to restore on pause. */
  datatype Bridge = Bridge(amp: Client, lastInput: InputArg)

  /** What the amplifier answers while one event is handled: the frame
      returned to the status request, and the input that `get_input` (which
      the client does not define) reports. */
  datatype Answers = Answers(statusFrame: seq<byte>, input: InputArg)

  /** The translator after an event, and how the callback ended. */
  datatype Step = Step(next: Bridge, outcome: Outcome)

  /** A new translator; `last_input` starts at 1. */
  function Start(amp: Client): (b: Bridge)
    ensures b.amp == amp
    ensures InputNumber(b.lastInput) == Some(1)
    ensures SelectInput(amp, b.lastInput).outcome == Done
  {
    Bridge(amp, Number(1))
  }

  /** The amplifier level for a Bluetooth volume, `int(43.0 / 127.0 * v)`,
      computed exactly: the floor of 43 v / 127. */
  function TargetLevel(v: nat): (t: nat)
    ensures t * 127 <= 43 * v < (t + 1) * 127
    ensures v <= 127 ==> t <= VolumeMax
  {
    43 * v / 127
  }

  /** The `for` loops of the volume branch: `n` steps of the main level,
      up or down, abandoned at the first step that raises. */
  function Steps(c: Client, up: bool, n: nat): (t: Transition)
    ensures c.sent <= t.next.sent
    ensures |t.next.sent| <= |c.sent| + n
    ensures t.next.muted == c.muted
    ensures |t.next.status| == |c.status|
    decreases n
  {
    if n == 0 then Transition(c, Done)
    else
      var s := if up then LevelUp(c, "main") else LevelDown(c, "main");
      if s.outcome.Raised? then s else Steps(s.next, up, n - 1)
  }

  /** `n` steps up from a main level at most 43 - n all succeed: the level
      rises by `n`, the log gains `n` copies of 0x08, nothing else moves. */
  lemma {:induction false} StepsUp(c: Client, n: nat)
    requires |c.status| > StatusMainLevel
    requires c.status[StatusMainLevel] + n <= VolumeMax
    decreases n
    ensures Steps(c, true, n) ==
      Transition(c.(status := c.status[StatusMainLevel := c.status[StatusMainLevel] + n], sent := c.sent + Repeat(0x08, n)), Done)
  {
    if n == 0 {
      assert c.status[StatusMainLevel := c.status[StatusMainLevel]] == c.status;
    } else {
      var c1 := LevelUp(c, "main").next;
      assert c1 == c.(status := c.status[StatusMainLevel := c.status[StatusMainLevel] + 1], sent := c.sent + [0x08]);
      StepsUp(c1, n - 1);
      assert c1.sent + Repeat(0x08, n - 1) == c.sent + Repeat(0x08, n);
      assert c1.status[StatusMainLevel := c1.status[StatusMainLevel] + (n - 1)] == c.status[StatusMainLevel := c.status[StatusMainLevel] + n];
    }
  }

  /** `n` steps down from a main level of at least `n` all succeed: the
      level falls by `n`, the log gains `n` copies of 0x09. */
  lemma {:induction false} StepsDown(c: Client, n: nat)
    requires |c.status| > StatusMainLevel
    requires c.status[StatusMainLevel] >= n
    decreases n
    ensures Steps(c, false, n) ==
      Transition(c.(status := c.status[StatusMainLevel := c.status[StatusMainLevel] - n], sent := c.sent + Repeat(0x09, n)), Done)
  {
    if n == 0 {
      assert c.status[StatusMainLevel := c.status[StatusMainLevel]] == c.status;
    } else {
      var c1 := LevelDown(c, "main").next;
      assert c1 == c.(status := c.status[StatusMainLevel := c.status[StatusMainLevel] - 1], sent := c.sent + [0x09]);
      StepsDown(c1, n - 1);
      assert c1.sent + Repeat(0x09, n - 1) == c.sent + Repeat(0x09, n);
      assert c1.status[StatusMainLevel := c1.status[StatusMainLevel] - (n - 1)] == c.status[StatusMainLevel := c.status[StatusMainLevel] - n];
    }
  }

  /** Steps that all succeed moved the main level by exactly `n` in their
      direction and logged `n` copies of that direction's opcode. */
  lemma {:induction false} StepsDone(c: Client, up: bool, n: nat)
    requires |c.status| > StatusMainLevel
    requires Steps(c, up, n).outcome == Done
    decreases n
    ensures up ==>
      && c.status[StatusMainLevel] + n <= 255
      && Steps(c, up, n).next ==
           c.(status := c.status[StatusMainLevel := c.status[StatusMainLevel] + n], sent := c.sent + Repeat(0x08, n))
    ensures !up ==>
      && c.status[StatusMainLevel] >= n
      && Steps(c, up, n).next ==
           c.(status := c.status[StatusMainLevel := c.status[StatusMainLevel] - n], sent := c.sent + Repeat(0x09, n))
  {
    if n == 0 {
      assert c.status[StatusMainLevel := c.status[StatusMainLevel]] == c.status;
    } else if up {
      var c1 := LevelUp(c, "main").next;
      assert c1 == c.(status := c.status[StatusMainLevel := c.status[StatusMainLevel] + 1], sent := c.sent + [0x08]);
      StepsDone(c1, up, n - 1);
      assert c1.sent + Repeat(0x08, n - 1) == c.sent + Repeat(0x08, n);
      assert c1.status[StatusMainLevel := c1.status[StatusMainLevel] + (n - 1)] == c.status[StatusMainLevel := c.status[StatusMainLevel] + n];
    } else {
      var c1 := LevelDown(c, "main").next;
      assert c1 == c.(status := c.status[StatusMainLevel := c.status[StatusMainLevel] - 1], sent := c.sent + [0x09]);
      StepsDone(c1, up, n - 1);
      assert c1.sent + Repeat(0x09, n - 1) == c.sent + Repeat(0x09, n);
      assert c1.status[StatusMainLevel := c1.status[StatusMainLevel] - (n - 1)] == c.status[StatusMainLevel := c.status[StatusMainLevel] - n];
    }
  }

  /** `evtCallback`. `power_on` and `power_off` are `pwm(True)` and
      `pwm(False)`; an exception ends the callback where it is raised. */
  function EvtCallback(b: Bridge, e: BtEvent, answers: Answers): (r: Step)
    ensures b.amp.sent <= r.next.amp.sent
    ensures e.Play? ==>
      && r.outcome == Done
      && r.next.lastInput == answers.input
      && r.next.amp.sent == b.amp.sent + [PowerOn, MuteOff]
      && r.next.amp.status == b.amp.status && !r.next.amp.muted
    ensures !e.Play? ==> r.next.lastInput == b.lastInput
    ensures e.Pause? && InputNumber(b.lastInput).None? ==>
      r == Step(b, Raised(InvalidInput))
    ensures e.Pause? && InputNumber(b.lastInput).Some? ==>
      && r.outcome == Done
      && |r.next.amp.sent| == |b.amp.sent| + 2
      && InputSelectedBy(r.next.amp.sent[|b.amp.sent|]) == InputNumber(b.lastInput)
      && r.next.amp.sent[|b.amp.sent| + 1] == PowerOff
      && r.next.amp.status == b.amp.status && r.next.amp.muted == b.amp.muted
    ensures e.Volume? ==>
      |r.next.amp.sent| > |b.amp.sent| && r.next.amp.sent[|b.amp.sent|] == GetStatus
  {
    match e
    case Play =>
      var input := answers.input;
      Step(Bridge(Pwm(b.amp, true), input), Done)
    case Pause =>
      var t := SelectInput(b.amp, b.lastInput);
      if t.outcome.Raised? then Step(b.(amp := t.next), t.outcome)
      else Step(b.(amp := Pwm(t.next, false)), Done)
    case Volume(v) =>
      var c := Update(b.amp, answers.statusFrame);
      match GetLevel(c, "main")
      case Err(err) => Step(b.(amp := c), Raised(err))
      case Ok(current) =>
        var target := TargetLevel(v);
        var t := if target > current then Steps(c, true, target - current)
                 else Steps(c, false, current - target);
        Step(b.(amp := t.next), t.outcome)
  }

  /** Volume convergence: for a Bluetooth volume in [0, 127] and a status
      frame that holds a main level, the callback succeeds; after the status
      request it sends exactly |target - current| steps, all in the one
      direction that closes the gap; the main level ends at the target and
      every other mirrored byte is the frame's. */
  lemma VolumeConverges(b: Bridge, v: nat, answers: Answers)
    requires v <= 127
    requires |answers.statusFrame| > StatusMainLevel
    ensures
      var frame := Update(b.amp, answers.statusFrame).status;
      var current := answers.statusFrame[StatusMainLevel];
      var target := TargetLevel(v);
      var r := EvtCallback(b, Volume(v), answers);
      && r.outcome == Done
      && r.next.amp.status == frame[StatusMainLevel := target]
      && r.next.amp.muted == b.amp.muted
      && r.next.amp.sent == b.amp.sent + [GetStatus] +
           (if target > current then Repeat(0x08, target - current)
            else Repeat(0x09, current - target))
      && |r.next.amp.sent| == |b.amp.sent| + 1 +
           (if target > current then target - current else current - target)
  {
    var c := Update(b.amp, answers.statusFrame);
    var current := answers.statusFrame[StatusMainLevel];
    var target := TargetLevel(v);
    assert c.status[StatusMainLevel] == current;
    if target > current {
      StepsUp(c, target - current);
      assert c.status[StatusMainLevel := current + (target - current)] == c.status[StatusMainLevel := target];
    } else {
      StepsDown(c, current - target);
      assert c.status[StatusMainLevel := current - (current - target)] == c.status[StatusMainLevel := target];
    }
  }

  /** For any Bluetooth volume, a volume callback that completes leaves the
      main level at the target and every other mirrored byte as refreshed. */
  lemma VolumeDoneReachesTarget(b: Bridge, v: nat, answers: Answers)
    requires EvtCallback(b, Volume(v), answers).outcome == Done
    ensures |answers.statusFrame| > StatusMainLevel
    ensures TargetLevel(v) <= 255
    ensures EvtCallback(b, Volume(v), answers).next.amp.status
      == Update(b.amp, answers.statusFrame).status[StatusMainLevel := TargetLevel(v)]
  {
    var c := Update(b.amp, answers.statusFrame);
    assert |c.status| > StatusMainLevel;
    var current := c.status[StatusMainLevel];
    var target := TargetLevel(v);
    if target > current {
      StepsDone(c, true, target - current);
    } else {
      StepsDone(c, false, current - target);
    }
  }

  /** When the status frame is too short to hold a main level, the volume
      callback stops after the status request with an IndexError. */
  lemma VolumeShortFrame(b: Bridge, v: nat, answers: Answers)
    requires |answers.statusFrame| <= StatusMainLevel
    ensures EvtCallback(b, Volume(v), answers).outcome == Raised(StatusTooShort)
    ensures EvtCallback(b, Volume(v), answers).next.amp.sent == b.amp.sent + [GetStatus]
  {
  }

  /** Bluetooth volume 64 from main level 0: target 21, reached by 21 steps up. */
  lemma VolumeFromSilence(b: Bridge, frame: seq<byte>)
    requires |frame| == StatusTotalLength && frame[StatusMainLevel] == 0
    ensures EvtCallback(b, Volume(64), Answers(frame, Number(1))).outcome == Done
    ensures EvtCallback(b, Volume(64), Answers(frame, Number(1))).next.amp.status[StatusMainLevel] == 21
    ensures EvtCallback(b, Volume(64), Answers(frame, Number(1))).next.amp.sent
      == b.amp.sent + [GetStatus] + Repeat(0x08, 21)
  {
    VolumeConverges(b, 64, Answers(frame, Number(1)));
  }

  /** Play remembers the reported input and pause selects it again before
      powering off. */
  lemma PlayThenPause(b: Bridge, playAnswers: Answers, pauseAnswers: Answers)
    requires InputNumber(playAnswers.input).Some?
    ensures
      var played := EvtCallback(b, Play, playAnswers).next;
      var paused := EvtCallback(played, Pause, pauseAnswers);
      && paused.outcome == Done
      && paused.next.lastInput == playAnswers.input
      && paused.next.amp.sent == b.amp.sent + [PowerOn, MuteOff, InputOpcode(playAnswers.input), PowerOff]
      && InputSelectedBy(paused.next.amp.sent[|b.amp.sent| + 2]) == InputNumber(playAnswers.input)
  {
  }

  /** Before any play, pause selects input 1 (opcode 0x02) and powers off. */
  lemma PauseFromStart(amp: Client, answers: Answers)
    ensures EvtCallback(Start(amp), Pause, answers)
      == Step(Start(amp).(amp := Pwm(Request(amp, 0x02), false)), Done)
    ensures EvtCallback(Start(amp), Pause, answers).next.amp.sent == amp.sent + [0x02, 0x10]
  {
  }
}
