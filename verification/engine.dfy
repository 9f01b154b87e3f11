/**
  The script's state and its event handlers. The state is one record: the
  configured hardware-backed scene list, the subscription registry, the
  MIDI connection, and the log of calls made on the MIDI transport. Each
  handler is a pure function from the state before the event to the state
  after it; what the transport does (enumeration, open and send outcomes)
  is an argument.
 */
module Engine {
  import opened Wrappers
  import opened Protocol
  import opened SwitchDecision
  import opened DeviceChannel
  import opened Registry

  /** The scene list in force before any configuration is loaded. */
  const DefaultScenes: seq<string> :=
    ["[empty]", "Scene: RX2 Hands", "Scene: AX-Synth", "Scene: Alesis"]

  datatype State = State(
    scenes: seq<string>,       // position in the list is the switcher port
    transitions: set<Uuid>,    // transitions whose handlers are attached
    conn: Conn,
    calls: seq<DeviceCall>)    // every transport call made so far, oldest first

  /** What the MIDI transport does during one event. */
  datatype Io = Io(
    outputs: seq<string>,        // the output names it enumerates
    openSucceeds: bool,          // false when opening raises an I/O error
    sendFailsAt: Option<nat>)    // the send attempt, within the batch, that raises an I/O error

  /** Frontend events; only two of them trigger a resync. */
  datatype FrontendEvent = FinishedLoading | TransitionListChanged | OtherEvent(code: int)

  /** One entry of the "vidswitch_scenes" settings array. */
  datatype SettingsItem = SettingsItem(value: string, selected: bool, hidden: bool)

  function Initial(): (s: State)
    ensures s.scenes == DefaultScenes && s.transitions == {} && s.conn.Absent? && s.calls == []
  {
    State(DefaultScenes, {}, Absent, [])
  }

  /** Applies a transport effect: the new connection, and its calls appended to the log. */
  function Apply(s: State, e: Effect): (t: State)
    ensures t.scenes == s.scenes && t.transitions == s.transitions && t.conn == e.conn
    ensures |t.calls| == |s.calls| + |e.calls|
    ensures s.calls <= t.calls && t.calls[|s.calls|..] == e.calls
  {
    s.(conn := e.conn, calls := s.calls + e.calls)
  }

  /** The transport calls `t` made after `s`. */
  function NewCalls(s: State, t: State): seq<DeviceCall>
    requires |s.calls| <= |t.calls|
  {
    t.calls[|s.calls|..]
  }

  /** Configuration replacement: the scene list becomes the array's "value" strings, in order. */
  function ScriptUpdate(s: State, items: seq<SettingsItem>): (t: State)
    ensures |t.scenes| == |items|
    ensures forall i :: 0 <= i < |items| ==> t.scenes[i] == items[i].value
    ensures t.transitions == s.transitions && t.conn == s.conn && t.calls == s.calls
  {
    s.(scenes := seq(|items|, i requires 0 <= i < |items| => items[i].value))
  }

  /** The "selected" and "hidden" flags never influence the scene list. */
  lemma ScriptUpdateIgnoresFlags(s: State, a: seq<SettingsItem>, b: seq<SettingsItem>)
    requires |a| == |b|
    requires forall i :: 0 <= i < |a| ==> a[i].value == b[i].value
    ensures ScriptUpdate(s, a) == ScriptUpdate(s, b)
  {
    assert ScriptUpdate(s, a).scenes == ScriptUpdate(s, b).scenes;
  }

  /** Script load: resync against the live transitions, then one open attempt. */
  function ScriptLoad(s: State, live: seq<Uuid>, io: Io): (t: State)
    ensures t.scenes == s.scenes
    ensures t.transitions == s.transitions + set u | u in live
    ensures t.conn == OpenMidi(io.outputs, io.openSucceeds).conn
    ensures s.calls <= t.calls
    ensures NewCalls(s, t) == OpenMidi(io.outputs, io.openSucceeds).calls
    ensures t.calls[|s.calls|] == ListOutputs
    ensures Sent(NewCalls(s, t)) == []
  {
    var registered := s.(transitions := Resync(s.transitions, live).registry);
    var t := Apply(registered, OpenMidi(io.outputs, io.openSucceeds));
    assert NewCalls(s, t) == OpenMidi(io.outputs, io.openSucceeds).calls;
    t
  }

  /** Frontend events: only "finished loading" and "transition list changed" resync. */
  function OnFrontendEvent(s: State, ev: FrontendEvent, live: seq<Uuid>): (t: State)
    ensures ev.OtherEvent? ==> t == s
    ensures !ev.OtherEvent? ==> t.transitions == s.transitions + set u | u in live
    ensures t.scenes == s.scenes && t.conn == s.conn && t.calls == s.calls
  {
    match ev
    case FinishedLoading => s.(transitions := Resync(s.transitions, live).registry)
    case TransitionListChanged => s.(transitions := Resync(s.transitions, live).registry)
    case OtherEvent(_) => s
  }

  /** A repeated resync event changes nothing. */
  lemma FrontendResyncIdempotent(s: State, ev: FrontendEvent, live: seq<Uuid>)
    ensures OnFrontendEvent(OnFrontendEvent(s, ev, live), ev, live) == OnFrontendEvent(s, ev, live)
  {
  }

  /** The destroy handler: drops exactly the destroyed UUID, or raises `KeyError`. */
  function OnTransitionDestroy(s: State, uuid: Uuid): (r: Result<State, Fault>)
    ensures r.Failure? <==> uuid !in s.transitions
    ensures r.Failure? ==> r.error == KeyError(uuid)
    ensures r.Success? ==> uuid !in r.value.transitions
    ensures r.Success? ==> forall u :: u != uuid ==> (u in r.value.transitions <==> u in s.transitions)
    ensures r.Success? ==> r.value.scenes == s.scenes && r.value.conn == s.conn && r.value.calls == s.calls
  {
    match Destroy(s.transitions, uuid)
    case Success(registry) => Success(s.(transitions := registry))
    case Failure(fault) => Failure(fault)
  }

  /** The gate at the head of the start handler: one open attempt when there is no connection. */
  function Reopen(conn: Conn, io: Io): Effect
  {
    if conn.Open? then Effect(conn, []) else OpenMidi(io.outputs, io.openSucceeds)
  }

  /** What a transition start does on the transport, from connection `conn`. */
  function StartEffect(conn: Conn, scenes: seq<string>, origin: Option<string>, dest: Option<string>, io: Io): Effect
  {
    var gate := Reopen(conn, io);
    if gate.conn.Absent? then gate
    else
      var d := Classify(origin, dest, scenes);
      if d.NoSwitch? then gate
      else
        var sent := SendSwitch(gate.conn.device, d.port, d.Direct?, io.sendFailsAt);
        Effect(sent.conn, gate.calls + sent.calls)
  }

  /**
    The transition-start handler. The connection gate runs first, whatever
    the destination; with a connection, a hardware-backed destination is
    switched with the batch its classification calls for.
   */
  function OnTransitionStart(s: State, origin: Option<string>, dest: Option<string>, io: Io): (t: State)
    ensures t.scenes == s.scenes && t.transitions == s.transitions
    ensures s.calls <= t.calls
    // the connection changes only through the reopen gate or a failed send
    ensures !HardwareBacked(dest, s.scenes) ==> t.conn == Reopen(s.conn, io).conn
    ensures Reopen(s.conn, io).conn.Absent? ==> t.conn.Absent?
    ensures t.conn.Open? ==> t.conn == Reopen(s.conn, io).conn
  {
    Apply(s, StartEffect(s.conn, s.scenes, origin, dest, io))
  }

  /** Script unload: the connection is closed if open and ends absent; the registry is kept. */
  function ScriptUnload(s: State): (t: State)
    ensures t.conn.Absent?
    ensures t.scenes == s.scenes && t.transitions == s.transitions
    ensures s.calls <= t.calls
    ensures NewCalls(s, t) == (if s.conn.Open? then [Close] else [])
  {
    var t := Apply(s, Shutdown(s.conn));
    assert NewCalls(s, t) == Shutdown(s.conn).calls;
    t
  }

  /** A second unload closes nothing and changes nothing. */
  lemma ScriptUnloadIdempotent(s: State)
    ensures ScriptUnload(ScriptUnload(s)) == ScriptUnload(s)
  {
    var t := ScriptUnload(s);
    assert t.calls + [] == t.calls;
  }

  /** Without a connection, a transition start makes exactly one open attempt, first. */
  lemma StartReopensOnce(s: State, origin: Option<string>, dest: Option<string>, io: Io)
    requires s.conn.Absent?
    ensures var t := OnTransitionStart(s, origin, dest, io);
      var added := NewCalls(s, t);
      && |added| > 0 && added[0] == ListOutputs
      && multiset(added)[ListOutputs] == 1
  {
    var attempt := OpenMidi(io.outputs, io.openSucceeds);
    var e := StartEffect(s.conn, s.scenes, origin, dest, io);
    if e.calls != attempt.calls {
      var d := Classify(origin, dest, s.scenes);
      var sent := SendSwitch(attempt.conn.device, d.port, d.Direct?, io.sendFailsAt);
      assert e.calls == attempt.calls + sent.calls;
      assert ListOutputs !in sent.calls;
      assert multiset(sent.calls)[ListOutputs] == 0;
    }
  }

  /**
    Without a connection, a transition start's log is one open attempt's
    calls followed only by sends and a close: it never opens twice.
   */
  lemma StartOpensAtMostOnce(s: State, origin: Option<string>, dest: Option<string>, io: Io)
    requires s.conn.Absent?
    ensures var t := OnTransitionStart(s, origin, dest, io);
      var added := NewCalls(s, t);
      var attempt := OpenMidi(io.outputs, io.openSucceeds).calls;
      && attempt <= added
      && forall c :: c in added[|attempt|..] ==> c.Send? || c.Close?
  {
    var attempt := OpenMidi(io.outputs, io.openSucceeds);
    var e := StartEffect(s.conn, s.scenes, origin, dest, io);
    if e.calls != attempt.calls {
      var d := Classify(origin, dest, s.scenes);
      var sent := SendSwitch(attempt.conn.device, d.port, d.Direct?, io.sendFailsAt);
      assert e.calls == attempt.calls + sent.calls;
      assert e.calls[|attempt.calls|..] == sent.calls;
    } else {
      assert e.calls[|attempt.calls|..] == [];
    }
  }

  /** With a connection, a transition start never enumerates or opens. */
  lemma StartKeepsOpenConnection(s: State, origin: Option<string>, dest: Option<string>, io: Io)
    requires s.conn.Open?
    ensures var t := OnTransitionStart(s, origin, dest, io);
      forall c :: c in NewCalls(s, t) ==> c.Send? || c.Close?
  {
  }

  /**
    When the reopen attempt yields no connection, nothing is sent and the
    connection stays absent, whatever the destination.
   */
  lemma StartWithoutDeviceSendsNothing(s: State, origin: Option<string>, dest: Option<string>, io: Io)
    requires s.conn.Absent?
    requires !io.openSucceeds || PickMidiDevice(io.outputs, DevicePattern).None?
    ensures var t := OnTransitionStart(s, origin, dest, io);
      && t.conn.Absent?
      && NewCalls(s, t) == OpenMidi(io.outputs, io.openSucceeds).calls
      && Sent(NewCalls(s, t)) == []
  {
  }

  /**
    A destination that is not hardware-backed sends nothing and changes
    the connection only through the reopen gate; with an open connection
    the event makes no transport call at all.
   */
  lemma StartNonHardwareSendsNothing(s: State, origin: Option<string>, dest: Option<string>, io: Io)
    requires !HardwareBacked(dest, s.scenes)
    ensures var t := OnTransitionStart(s, origin, dest, io);
      && t.conn == Reopen(s.conn, io).conn
      && NewCalls(s, t) == Reopen(s.conn, io).calls
      && Sent(NewCalls(s, t)) == []
    ensures s.conn.Open? ==> OnTransitionStart(s, origin, dest, io) == s
  {
    if s.conn.Open? {
      assert s.calls + [] == s.calls;
    }
  }

  /**
    A hardware-backed destination with a connection sends the batch for
    its classification, in order, up to the first failing send; a failure
    closes and drops the connection.
   */
  lemma StartHardwareSendsBatch(s: State, origin: Option<string>, dest: Option<string>, io: Io)
    requires HardwareBacked(dest, s.scenes)
    requires Reopen(s.conn, io).conn.Open?
    ensures var t := OnTransitionStart(s, origin, dest, io);
      var batch := Encode(Classify(origin, dest, s.scenes));
      var k := Completed(io.sendFailsAt, |batch|);
      && Sent(NewCalls(s, t)) == batch[..k]
      && (t.conn.Absent? <==> k < |batch|)
      && (t.conn.Open? ==> t.conn == Reopen(s.conn, io).conn)
      && (k < |batch| ==> NewCalls(s, t)[|NewCalls(s, t)| - 1] == Close)
  {
    var gate := Reopen(s.conn, io);
    var d := Classify(origin, dest, s.scenes);
    var sent := SendSwitch(gate.conn.device, d.port, d.Direct?, io.sendFailsAt);
    assert StartEffect(s.conn, s.scenes, origin, dest, io) == Effect(sent.conn, gate.calls + sent.calls);
    SentAppend(gate.calls, sent.calls);
  }

  /**
    The whole call log of a switching event: the reopen gate's calls, the
    sends before the failing attempt, and one close only if a send failed.
   */
  lemma StartHardwareCallLog(s: State, origin: Option<string>, dest: Option<string>, io: Io)
    requires HardwareBacked(dest, s.scenes)
    requires Reopen(s.conn, io).conn.Open?
    ensures var t := OnTransitionStart(s, origin, dest, io);
      var batch := Encode(Classify(origin, dest, s.scenes));
      var k := Completed(io.sendFailsAt, |batch|);
      NewCalls(s, t) == Reopen(s.conn, io).calls + SendCalls(batch[..k]) + (if k < |batch| then [Close] else [])
  {
  }

  /** A failed send leaves no connection, so the next transition start reopens first. */
  lemma SendFailureForcesReopen(s: State, origin: Option<string>, dest: Option<string>, io: Io,
                                origin': Option<string>, dest': Option<string>, io': Io)
    requires HardwareBacked(dest, s.scenes)
    requires Reopen(s.conn, io).conn.Open?
    requires io.sendFailsAt.Some? && io.sendFailsAt.value < |Encode(Classify(origin, dest, s.scenes))|
    ensures var t := OnTransitionStart(s, origin, dest, io);
      var u := OnTransitionStart(t, origin', dest', io');
      && t.conn.Absent?
      && |NewCalls(t, u)| > 0 && NewCalls(t, u)[0] == ListOutputs
  {
    StartHardwareSendsBatch(s, origin, dest, io);
    var t := OnTransitionStart(s, origin, dest, io);
    StartReopensOnce(t, origin', dest', io');
  }

  /** With at most 128 scenes, every value sent is a valid MIDI data byte. */
  lemma StartSendsDataBytes(s: State, origin: Option<string>, dest: Option<string>, io: Io)
    requires |s.scenes| <= 128
    ensures var t := OnTransitionStart(s, origin, dest, io);
      forall m :: m in Sent(NewCalls(s, t)) ==> m.channel == Channel && m.value < 128
  {
    if !HardwareBacked(dest, s.scenes) {
      StartNonHardwareSendsNothing(s, origin, dest, io);
    } else if Reopen(s.conn, io).conn.Absent? {
      StartWithoutDeviceSendsNothing(s, origin, dest, io);
    } else {
      StartHardwareSendsBatch(s, origin, dest, io);
      EncodeDataBytes(Classify(origin, dest, s.scenes));
    }
  }

  /** The worked examples use ports 1..3 for "A", "B", "C" and a connected switcher. */
  function Example(): (s: State)
    ensures |s.scenes| == 4 && s.scenes[1] == "A" && s.scenes[2] == "B" && s.conn.Open?
  {
    State(["[empty]", "A", "B", "C"], {}, Open("VR-4HD 0"), [])
  }

  /** From a scene outside the list to "A": a cut to port 1. */
  lemma ExampleDirect(io: Io)
    requires io.sendFailsAt == None
    ensures Sent(OnTransitionStart(Example(), Some("Intro"), Some("A"), io).calls)
      == [ControlChange(0, 46, 0), ControlChange(0, 14, 1)]
  {
    var s := Example();
    assert Classify(Some("Intro"), Some("A"), s.scenes) == Direct(1);
    StartHardwareSendsBatch(s, Some("Intro"), Some("A"), io);
  }

  /** From "A" to "B": a 400 ms fade to port 2. */
  lemma ExampleCrossfade(io: Io)
    requires io.sendFailsAt == None
    ensures Sent(OnTransitionStart(Example(), Some("A"), Some("B"), io).calls)
      == [ControlChange(0, 46, 1), ControlChange(0, 47, 4), ControlChange(0, 14, 2)]
  {
    var s := Example();
    assert Classify(Some("A"), Some("B"), s.scenes) == Crossfade(2);
    StartHardwareSendsBatch(s, Some("A"), Some("B"), io);
  }

  /** From "A" to a scene outside the list: no transport call; an unknown destroy raises. */
  lemma ExampleNoSwitch(io: Io)
    ensures OnTransitionStart(Example(), Some("A"), Some("Outro"), io) == Example()
    ensures OnTransitionDestroy(Example(), "never-registered") == Failure(KeyError("never-registered"))
  {
    StartNonHardwareSendsNothing(Example(), Some("A"), Some("Outro"), io);
  }
}
