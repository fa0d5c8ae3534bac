/** Model of the HDMI-CEC translator (z906cec.py): CEC event names become
    amplifier steps, audio-status reports and ARC gate requests.

    The CEC client the translator talks to defines none of the calls the
    translator makes (`is_enabled`, `get_src_port`, `enable`, `disable`,
    `reportAudioStatus`), so the CEC side is an abstract record: the state of
    its ARC gate, the physical address of the current source, and the log of
    calls made to it. Whether `enable` and `disable` move the gate is the CEC
    client's business; the translator only makes the calls.
 */
module Z906Cec {
  import opened Exceptions
  import opened Z906Client

  /** A call from the translator to the CEC client. */
  datatype CecCall = Enable | Disable | ReportAudioStatus(level: byte, muted: bool)

  /** The CEC side: `is_enabled()`, `get_src_port()`, and the calls received. */
  datatype CecSide = CecSide(enabled: bool, srcPort: string, calls: seq<CecCall>)

  /** The translator: amplifier client, CEC side, and the HDMI port
      prefixes for which ARC is enabled (an absent list is the empty one). */
  datatype Bridge = Bridge(amp: Client, cec: CecSide, allowedPorts: seq<string>)

  /** The translator after an event, and how the callback ended. */
  datatype Step = Step(next: Bridge, outcome: Outcome)

  /** Events answered with an audio-status report. */
  const ReportingEvents: set<string> := {"level_up", "level_down", "mute", "give_audio_status"}

  /** Every event name the callback acts on. */
  const HandledEvents: set<string> :=
    ReportingEvents + {"arc_start", "arc_stop", "standby", "src_changed"}

  /** Whether some allowed entry is a prefix of the source port, as
      `str.startswith` tests it. */
  function AnyPrefix(ports: seq<string>, src: string): (r: bool)
    ensures r <==> exists i :: 0 <= i < |ports| && ports[i] <= src
  {
    if |ports| == 0 then false
    else if ports[0] <= src then true
    else
      var rest := AnyPrefix(ports[1..], src);
      assert forall i :: 1 <= i < |ports| ==> ports[i] == ports[1..][i - 1];
      rest
  }

  function Call(b: Bridge, call: CecCall): Bridge {
    b.(cec := b.cec.(calls := b.cec.calls + [call]))
  }

  /** The amplifier operation of a reporting event, before its report. */
  function AmpStep(b: Bridge, evt: string): Step {
    if evt == "level_up" then
      var t := LevelUp(b.amp, "main");
      Step(b.(amp := t.next), t.outcome)
    else if evt == "level_down" then
      var t := LevelDown(b.amp, "main");
      Step(b.(amp := t.next), t.outcome)
    else if evt == "mute" then Step(b.(amp := MuteToggle(b.amp)), Done)
    else Step(b, Done)
  }

  /** The audio-status report: the client's main level and mute flag. */
  function ReportAudio(b: Bridge): (r: Step)
    ensures r.next.amp == b.amp
    ensures |b.amp.status| > StatusMainLevel ==>
      r == Step(Call(b, ReportAudioStatus(b.amp.status[StatusMainLevel], b.amp.muted)), Done)
    ensures |b.amp.status| <= StatusMainLevel ==> r == Step(b, Raised(StatusTooShort))
  {
    match GetLevel(b.amp, "main")
    case Err(e) => Step(b, Raised(e))
    case Ok(level) => Step(Call(b, ReportAudioStatus(level, IsMuted(b.amp))), Done)
  }

  /** `src_changed`: with a non-empty allow-list, enable ARC when some
      entry is a prefix of the new source port and disable it otherwise. */
  function SourceChanged(b: Bridge): Bridge {
    var src := b.cec.srcPort;
    if |b.allowedPorts| == 0 then b
    else if AnyPrefix(b.allowedPorts, src) then Call(b, Enable)
    else Call(b, Disable)
  }

  /** `_cecCallback`, with the audio-status report read from the
      translator's own client. `power_on` and `power_off` are `pwm(True)`
      and `pwm(False)`. */
  function CecCallback(b: Bridge, evt: string): (r: Step)
    ensures r.next.allowedPorts == b.allowedPorts
    ensures r.next.cec.enabled == b.cec.enabled && r.next.cec.srcPort == b.cec.srcPort
    ensures b.cec.calls <= r.next.cec.calls && b.amp.sent <= r.next.amp.sent
    ensures evt !in HandledEvents ==> r == Step(b, Done)
    ensures evt in {"level_up", "level_down", "mute"} ==>
      && |r.next.amp.sent| <= |b.amp.sent| + 1
      && (r.outcome == Done ==> |r.next.amp.sent| == |b.amp.sent| + 1)
      && (r.outcome == Done ==> |r.next.amp.status| > StatusMainLevel)
      && (r.outcome == Done ==>
            r.next.cec.calls == b.cec.calls + [ReportAudioStatus(r.next.amp.status[StatusMainLevel], r.next.amp.muted)])
      && (r.outcome != Done ==> r.next.cec.calls == b.cec.calls)
    ensures evt == "level_up" ==>
      && r.next.amp == LevelUp(b.amp, "main").next
      && r.outcome == LevelUp(b.amp, "main").outcome
    ensures evt == "level_down" ==>
      && r.next.amp == LevelDown(b.amp, "main").next
      && r.outcome == LevelDown(b.amp, "main").outcome
    ensures evt == "mute" ==>
      && r.next.amp == MuteToggle(b.amp)
      && r.outcome == (if |b.amp.status| > StatusMainLevel then Done else Raised(StatusTooShort))
    ensures evt == "give_audio_status" ==>
      && r.next.amp == b.amp
      && r.outcome == (if |b.amp.status| > StatusMainLevel then Done else Raised(StatusTooShort))
      && (r.outcome == Done ==>
            r.next.cec.calls == b.cec.calls + [ReportAudioStatus(b.amp.status[StatusMainLevel], b.amp.muted)])
      && (r.outcome != Done ==> r.next.cec.calls == b.cec.calls)
    ensures (evt == "arc_start" || evt == "arc_stop") && !b.cec.enabled ==> r == Step(b, Done)
    ensures evt == "arc_start" && b.cec.enabled ==>
      && r.outcome == Done && r.next.cec == b.cec
      && r.next.amp.sent == b.amp.sent + [0x11, 0x39] && !r.next.amp.muted
      && r.next.amp.status == b.amp.status
    ensures (evt == "arc_stop" && b.cec.enabled) || evt == "standby" ==>
      && r.outcome == Done && r.next.cec == b.cec
      && r.next.amp == b.amp.(sent := b.amp.sent + [0x10])
    ensures evt == "src_changed" ==>
      && r.outcome == Done && r.next.amp == b.amp
      && r.next.cec.calls == b.cec.calls +
           (if |b.allowedPorts| == 0 then []
            else if exists i :: 0 <= i < |b.allowedPorts| && b.allowedPorts[i] <= b.cec.srcPort then [Enable]
            else [Disable])
  {
    if evt in ReportingEvents then
      var s := AmpStep(b, evt);
      if s.outcome.Raised? then s else ReportAudio(s.next)
    else if evt == "arc_start" then
      if b.cec.enabled then Step(b.(amp := Pwm(b.amp, true)), Done) else Step(b, Done)
    else if evt == "arc_stop" then
      if b.cec.enabled then Step(b.(amp := Pwm(b.amp, false)), Done) else Step(b, Done)
    else if evt == "standby" then Step(b.(amp := Pwm(b.amp, false)), Done)
    else if evt == "src_changed" then Step(SourceChanged(b), Done)
    else Step(b, Done)
  }

  /** `_cecCallback` as written: the report reads a module-level `z906`
      that is never defined, so each reporting event raises NameError after
      its amplifier step and before anything reaches the CEC side. */
  function CecCallbackAsWritten(b: Bridge, evt: string): (r: Step)
    ensures evt in ReportingEvents ==>
      && r.outcome.Raised? && r.next.cec == b.cec
      && r.next.amp == CecCallback(b, evt).next.amp
      && (AmpStep(b, evt).outcome == Done ==> r.outcome == Raised(UndefinedName))
      && (AmpStep(b, evt).outcome.Raised? ==> r == CecCallback(b, evt))
    ensures evt !in ReportingEvents ==> r == CecCallback(b, evt)
  {
    if evt in ReportingEvents then
      var s := AmpStep(b, evt);
      if s.outcome.Raised? then s else Step(s.next, Raised(UndefinedName))
    else CecCallback(b, evt)
  }

  /** The discrepancy: a request for the audio status never produces a
      report as written, while the evident intent reports the main level
      and mute flag. */
  lemma GiveAudioStatusAsWrittenRaises(b: Bridge)
    requires |b.amp.status| > StatusMainLevel
    ensures CecCallbackAsWritten(b, "give_audio_status") == Step(b, Raised(UndefinedName))
    ensures CecCallback(b, "give_audio_status")
      == Step(Call(b, ReportAudioStatus(b.amp.status[StatusMainLevel], b.amp.muted)), Done)
  {
  }

  /** As written, a volume-up key from main level 10 still moves the
      amplifier: 0x08 is sent and the mirror reads 11, and only then does
      the report raise NameError, so the CEC side hears nothing. */
  lemma LevelUpAsWrittenRaises(b: Bridge)
    requires |b.amp.status| == StatusTotalLength && b.amp.status[StatusMainLevel] == 10
    ensures CecCallbackAsWritten(b, "level_up").outcome == Raised(UndefinedName)
    ensures CecCallbackAsWritten(b, "level_up").next.amp.sent == b.amp.sent + [0x08]
    ensures CecCallbackAsWritten(b, "level_up").next.amp.status[StatusMainLevel] == 11
    ensures CecCallbackAsWritten(b, "level_up").next.cec == b.cec
  {
  }

  /** A volume-up key from main level 10: one 0x08, then a report of 11. */
  lemma LevelUpReportsNewLevel(b: Bridge)
    requires |b.amp.status| == StatusTotalLength && b.amp.status[StatusMainLevel] == 10
    ensures CecCallback(b, "level_up").outcome == Done
    ensures CecCallback(b, "level_up").next.amp.sent == b.amp.sent + [0x08]
    ensures CecCallback(b, "level_up").next.cec.calls
      == b.cec.calls + [ReportAudioStatus(11, b.amp.muted)]
  {
  }

  /** A volume-up key at the maximum: the step raises, nothing is sent and
      nothing is reported. */
  lemma LevelUpAtMaximum(b: Bridge)
    requires |b.amp.status| == StatusTotalLength && b.amp.status[StatusMainLevel] == VolumeMax
    ensures CecCallback(b, "level_up") == Step(b, Raised(AtMaximum))
  {
  }

  /** The mute key toggles the flag and reports the new one. */
  lemma MuteReportsToggledFlag(b: Bridge)
    requires |b.amp.status| == StatusTotalLength
    ensures CecCallback(b, "mute").outcome == Done
    ensures CecCallback(b, "mute").next.amp.muted == !b.amp.muted
    ensures CecCallback(b, "mute").next.cec.calls
      == b.cec.calls + [ReportAudioStatus(b.amp.status[StatusMainLevel], !b.amp.muted)]
  {
  }

  /** On a source change exactly one gate request is made when the
      allow-list is non-empty, and it is `enable` exactly when some entry
      is a prefix of the port; an empty entry matches every port. */
  lemma SourceChangedSingleRequest(b: Bridge)
    requires |b.allowedPorts| > 0
    ensures |CecCallback(b, "src_changed").next.cec.calls| == |b.cec.calls| + 1
    ensures CecCallback(b, "src_changed").next.cec.calls[|b.cec.calls|] == Enable
      <==> exists i :: 0 <= i < |b.allowedPorts| && b.allowedPorts[i] <= b.cec.srcPort
    ensures "" in b.allowedPorts ==>
      CecCallback(b, "src_changed").next.cec.calls == b.cec.calls + [Enable]
  {
  }
}
