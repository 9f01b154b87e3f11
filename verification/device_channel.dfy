/**
  The single outbound MIDI connection: picking a device by name pattern,
  opening it, sending a batch of messages, and dropping the connection when
  the transport reports an I/O error. Device enumeration and the success
  of open and send are supplied by the caller; every call made on the
  transport is recorded in a log of `DeviceCall`s.
 */
module DeviceChannel {
  import opened Wrappers
  import opened Protocol

  /** The substring that identifies the switcher among the MIDI outputs. */
  const DevicePattern: string := "VR-4HD"

  /** The connection handle: absent (`None` in the source) or open on a device. */
  datatype Conn = Absent | Open(device: string)

  /** One call made on the MIDI transport. */
  datatype DeviceCall =
    | ListOutputs          // enumerate the output names
    | OpenOutput(name: string)
    | Send(msg: Msg)       // a send that completed
    | Close

  /** The connection after an operation and the transport calls it made. */
  datatype Effect = Effect(conn: Conn, calls: seq<DeviceCall>)

  /** Python's `pattern in name` on strings: `pattern` occurs as a substring. */
  predicate Contains(name: string, pattern: string)
  {
    exists i | 0 <= i <= |name| :: pattern <= name[i..]
  }

  /** Index of the first name containing `pattern`, or `|names|` if none does. */
  function FirstMatch(names: seq<string>, pattern: string): (k: nat)
    ensures k <= |names|
    ensures k < |names| ==> Contains(names[k], pattern)
    ensures forall j :: 0 <= j < k ==> !Contains(names[j], pattern)
  {
    if names == [] then 0
    else if Contains(names[0], pattern) then 0
    else 1 + FirstMatch(names[1..], pattern)
  }

  /**
    The output to open: the first enumerated name that contains `pattern`,
    or `None` when no name does.
   */
  function PickMidiDevice(outputs: seq<string>, pattern: string): (r: Option<string>)
    ensures r.None? <==> forall j :: 0 <= j < |outputs| ==> !Contains(outputs[j], pattern)
    ensures r.Some? ==> r.value in outputs && Contains(r.value, pattern)
    // no matching name comes earlier in the enumeration than the picked one
    ensures r.Some? ==> forall j :: 0 <= j < |outputs| && Contains(outputs[j], pattern) ==>
      r.value in outputs[..j + 1]
  {
    var k := FirstMatch(outputs, pattern);
    if k < |outputs| then Some(outputs[k]) else None
  }

  /**
    One attempt to open the switcher: enumerate, pick, and open the picked
    output; `openSucceeds` is false when opening raises an I/O error.
   */
  function OpenMidi(outputs: seq<string>, openSucceeds: bool): (r: Effect)
    ensures |r.calls| >= 1 && r.calls[0] == ListOutputs
    ensures r.conn.Open? <==> PickMidiDevice(outputs, DevicePattern).Some? && openSucceeds
    ensures r.conn.Open? ==> r.conn.device == PickMidiDevice(outputs, DevicePattern).value
    // an open is attempted exactly when a device was picked, and nothing is sent
    ensures r.calls[1..] == (match PickMidiDevice(outputs, DevicePattern)
                             case None => []
                             case Some(d) => [OpenOutput(d)])
    ensures Sent(r.calls) == []
    ensures multiset(r.calls)[ListOutputs] == 1
  {
    match PickMidiDevice(outputs, DevicePattern)
    case None =>
      assert Sent([ListOutputs]) == Sent([]);
      Effect(Absent, [ListOutputs])
    case Some(d) =>
      assert Sent([ListOutputs, OpenOutput(d)]) == Sent([OpenOutput(d)]) == Sent([]);
      Effect(if openSucceeds then Open(d) else Absent, [ListOutputs, OpenOutput(d)])
  }

  /** The messages a log shows as sent, in order. */
  function Sent(calls: seq<DeviceCall>): seq<Msg>
  {
    if calls == [] then []
    else (if calls[0].Send? then [calls[0].msg] else []) + Sent(calls[1..])
  }

  lemma {:induction false} SentAppend(a: seq<DeviceCall>, b: seq<DeviceCall>)
    ensures Sent(a + b) == Sent(a) + Sent(b)
  {
    if a == [] {
      assert a + b == b;
    } else {
      assert (a + b)[1..] == a[1..] + b;
      SentAppend(a[1..], b);
    }
  }

  /** The log entries for a batch whose sends all complete. */
  function SendCalls(ms: seq<Msg>): (calls: seq<DeviceCall>)
    ensures |calls| == |ms|
    ensures forall i :: 0 <= i < |ms| ==> calls[i] == Send(ms[i])
  {
    seq(|ms|, i requires 0 <= i < |ms| => Send(ms[i]))
  }

  /** Number of sends that complete when send attempt `failAt` raises. */
  function Completed(failAt: Option<nat>, n: nat): (k: nat)
    ensures k <= n
    ensures k < n <==> failAt.Some? && failAt.value < n
  {
    if failAt.Some? && failAt.value < n then failAt.value else n
  }

  /**
    Sends `ms` in order on the open `device`. If send attempt `failAt`
    raises an I/O error, the remaining messages are abandoned and the
    connection is closed and dropped.
   */
  function Transmit(device: string, ms: seq<Msg>, failAt: Option<nat>): (r: Effect)
    decreases |ms|
    ensures var k := Completed(failAt, |ms|);
      r.calls == SendCalls(ms[..k]) + (if k < |ms| then [Close] else [])
    ensures r.conn == (if Completed(failAt, |ms|) < |ms| then Absent else Open(device))
  {
    if ms == [] then Effect(Open(device), [])
    else if failAt == Some(0) then Effect(Absent, [Close])
    else
      var next := if failAt.Some? then Some(failAt.value - 1) else None;
      var rest := Transmit(device, ms[1..], next);
      assert ms[1..][..Completed(next, |ms| - 1)] == ms[1..Completed(failAt, |ms|)];
      Effect(rest.conn, [Send(ms[0])] + rest.calls)
  }

  /** Exactly the completed prefix of the batch is sent, in order. */
  lemma {:induction false} TransmitSendsPrefix(device: string, ms: seq<Msg>, failAt: Option<nat>)
    ensures Sent(Transmit(device, ms, failAt).calls) == ms[..Completed(failAt, |ms|)]
  {
    var k := Completed(failAt, |ms|);
    var calls := Transmit(device, ms, failAt).calls;
    SentAppend(SendCalls(ms[..k]), if k < |ms| then [Close] else []);
    SentOfSendCalls(ms[..k]);
    assert Sent([Close]) == [] by { assert [Close][1..] == []; }
  }

  lemma {:induction false} SentOfSendCalls(ms: seq<Msg>)
    ensures Sent(SendCalls(ms)) == ms
  {
    if ms != [] {
      assert SendCalls(ms)[1..] == SendCalls(ms[1..]);
      SentOfSendCalls(ms[1..]);
    }
  }

  /** The source's `send_switch`: encode the switch and transmit it. */
  function SendSwitch(device: string, port: nat, direct: bool, failAt: Option<nat>): (r: Effect)
    ensures Sent(r.calls) == Encode(if direct then Direct(port) else Crossfade(port))[..Completed(failAt, if direct then 2 else 3)]
    ensures r.conn.Absent? <==> failAt.Some? && failAt.value < (if direct then 2 else 3)
    ensures r.conn.Open? ==> r.conn == Open(device)
    // a send never enumerates or opens
    ensures forall i :: 0 <= i < |r.calls| ==> r.calls[i].Send? || r.calls[i].Close?
    ensures r.conn.Absent? ==> |r.calls| > 0 && r.calls[|r.calls| - 1] == Close
    // a close happens only on failure, once, as the last call
    ensures forall i :: 0 <= i < |r.calls| && r.calls[i] == Close ==> r.conn.Absent? && i == |r.calls| - 1
  {
    var ms := Encode(if direct then Direct(port) else Crossfade(port));
    TransmitSendsPrefix(device, ms, failAt);
    Transmit(device, ms, failAt)
  }

  /** Closing at shutdown: only an open connection is closed, and it ends absent. */
  function Shutdown(conn: Conn): (r: Effect)
    ensures r.conn == Absent
    ensures r.calls == (if conn.Open? then [Close] else [])
  {
    if conn.Open? then Effect(Absent, [Close]) else Effect(Absent, [])
  }
}
