/**
  The command protocol of the video switcher: the MIDI Control Change
  messages that select a transition mode, a fade time and an input port.
  A message is a (channel, control number, value) triple; the MIDI byte
  encoding itself belongs to the transport library and is not modelled.
 */
module Protocol {
  import opened Wrappers

  /** Every message goes out on logical channel 0. */
  const Channel: nat := 0
  /** Control 46 selects the transition mode. */
  const ModeControl: nat := 46
  /** Control 47 selects the fade duration. */
  const FadeTimeControl: nat := 47
  /** Control 14 selects the input port, which performs the switch. */
  const InputControl: nat := 14

  /** Values of the mode control: a cut, or a fade ("mix"). */
  const CutMode: nat := 0
  const MixMode: nat := 1
  /** Fade duration value 4, which the switcher reads as 400 ms. */
  const FadeTime: nat := 4

  datatype Msg = ControlChange(channel: nat, control: nat, value: nat)

  /** What a transition start asks of the hardware. */
  datatype Decision =
    | NoSwitch              // the destination is not a hardware-backed scene
    | Direct(port: nat)     // cut to the port; the software transition shows the change
    | Crossfade(port: nat)  // the switcher fades to the port itself

  /** The ordered messages that realise a decision. */
  function Encode(d: Decision): (ms: seq<Msg>)
    ensures d.NoSwitch? <==> ms == []
    ensures forall i :: 0 <= i < |ms| ==> ms[i].channel == Channel
    // the port is selected exactly once, by the last message
    ensures !d.NoSwitch? ==> ms[|ms| - 1] == ControlChange(Channel, InputControl, d.port)
    ensures forall i :: 0 <= i < |ms| - 1 ==> ms[i].control != InputControl
    // the mode is set first, so it is in force when the port is selected
    ensures !d.NoSwitch? ==> ms[0].control == ModeControl
  {
    match d
    case NoSwitch => []
    case Direct(p) =>
      [ ControlChange(Channel, ModeControl, CutMode),
        ControlChange(Channel, InputControl, p) ]
    case Crossfade(p) =>
      [ ControlChange(Channel, ModeControl, MixMode),
        ControlChange(Channel, FadeTimeControl, FadeTime),
        ControlChange(Channel, InputControl, p) ]
  }

  /** Reads a message batch back as the decision it realises, if any. */
  function Decode(ms: seq<Msg>): Option<Decision>
  {
    if ms == [] then Some(NoSwitch)
    else if |ms| == 2
         && ms[0] == ControlChange(Channel, ModeControl, CutMode)
         && ms[1].channel == Channel && ms[1].control == InputControl
    then Some(Direct(ms[1].value))
    else if |ms| == 3
         && ms[0] == ControlChange(Channel, ModeControl, MixMode)
         && ms[1] == ControlChange(Channel, FadeTimeControl, FadeTime)
         && ms[2].channel == Channel && ms[2].control == InputControl
    then Some(Crossfade(ms[2].value))
    else None
  }

  /** Encoding loses nothing: the decision can be read back from its batch. */
  lemma DecodeEncode(d: Decision)
    ensures Decode(Encode(d)) == Some(d)
  {
  }

  /** The batches Encode produces are exactly the ones Decode accepts. */
  lemma EncodeDecode(ms: seq<Msg>, d: Decision)
    requires Decode(ms) == Some(d)
    ensures Encode(d) == ms
  {
  }

  /** A batch of values fits MIDI data bytes when the port does. */
  lemma EncodeDataBytes(d: Decision)
    requires !d.NoSwitch? ==> d.port < 128
    ensures forall i :: 0 <= i < |Encode(d)| ==> Encode(d)[i].value < 128
  {
  }

  /**
    How the switcher reacts, as the protocol is used here: the mode and
    fade-time controls set parameters, and the input control takes the
    selected port with the parameters in force at that moment.
   */
  datatype Take = Take(mode: nat, fadeTime: nat, input: nat)
  datatype Switcher = Switcher(mode: nat, fadeTime: nat, input: nat, lastTake: Option<Take>)

  function Receive(s: Switcher, m: Msg): Switcher
  {
    if m.channel != Channel then s
    else if m.control == ModeControl then s.(mode := m.value)
    else if m.control == FadeTimeControl then s.(fadeTime := m.value)
    else if m.control == InputControl then
      s.(input := m.value, lastTake := Some(Take(s.mode, s.fadeTime, m.value)))
    else s
  }

  function Play(s: Switcher, ms: seq<Msg>): Switcher
    decreases |ms|
  {
    if ms == [] then s else Play(Receive(s, ms[0]), ms[1..])
  }

  /** Whatever state the switcher is in, a direct batch cuts to the port. */
  lemma DirectBatchCuts(s: Switcher, p: nat)
    ensures Play(s, Encode(Direct(p))).lastTake == Some(Take(CutMode, s.fadeTime, p))
    ensures Play(s, Encode(Direct(p))).input == p
  {
    var m0, m1 := ControlChange(Channel, ModeControl, CutMode), ControlChange(Channel, InputControl, p);
    assert Encode(Direct(p)) == [m0, m1];
    var s1 := Receive(s, m0);
    var s2 := Receive(s1, m1);
    assert Play(s, [m0, m1]) == Play(s1, [m1]) by { assert [m0, m1][1..] == [m1]; }
    assert Play(s1, [m1]) == Play(s2, []) by { assert [m1][1..] == []; }
  }

  /** Whatever state the switcher is in, a crossfade batch fades to the port in 400 ms. */
  lemma CrossfadeBatchFades(s: Switcher, p: nat)
    ensures Play(s, Encode(Crossfade(p))).lastTake == Some(Take(MixMode, FadeTime, p))
    ensures Play(s, Encode(Crossfade(p))).input == p
  {
    var m0 := ControlChange(Channel, ModeControl, MixMode);
    var m1 := ControlChange(Channel, FadeTimeControl, FadeTime);
    var m2 := ControlChange(Channel, InputControl, p);
    assert Encode(Crossfade(p)) == [m0, m1, m2];
    var s1 := Receive(s, m0);
    var s2 := Receive(s1, m1);
    var s3 := Receive(s2, m2);
    assert Play(s, [m0, m1, m2]) == Play(s1, [m1, m2]) by { assert [m0, m1, m2][1..] == [m1, m2]; }
    assert Play(s1, [m1, m2]) == Play(s2, [m2]) by { assert [m1, m2][1..] == [m2]; }
    assert Play(s2, [m2]) == Play(s3, []) by { assert [m2][1..] == []; }
  }

  /** No decision, no change on the switcher. */
  lemma NoSwitchBatchIsInert(s: Switcher)
    ensures Play(s, Encode(NoSwitch)) == s
  {
  }
}
