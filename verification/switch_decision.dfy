/**
  The switch decision taken when a transition starts: whether the
  destination scene is hardware-backed, which switcher port it maps to,
  and whether the switcher or the software performs the visual change.
 */
module SwitchDecision {
  import opened Wrappers
  import opened Protocol

  /** Position of the first occurrence of `x`, as Python's `list.index`. */
  function IndexOf(xs: seq<string>, x: string): (i: nat)
    requires x in xs
    ensures i < |xs| && xs[i] == x
    ensures forall j :: 0 <= j < i ==> xs[j] != x
  {
    if xs[0] == x then 0 else 1 + IndexOf(xs[1..], x)
  }

  /** A scene name is hardware-backed when it occurs in the configured list. */
  predicate HardwareBacked(name: Option<string>, scenes: seq<string>)
  {
    name.Some? && name.value in scenes
  }

  /**
    Classifies a transition from `origin` to `dest` against the ordered
    list of hardware-backed scenes; a source without a name (`None`) is
    never hardware-backed.
   */
  function Classify(origin: Option<string>, dest: Option<string>, scenes: seq<string>): (d: Decision)
    ensures d.NoSwitch? <==> !HardwareBacked(dest, scenes)
    ensures !d.NoSwitch? ==>
      && d.port < |scenes|
      && scenes[d.port] == dest.value
      && forall j :: 0 <= j < d.port ==> scenes[j] != dest.value
    ensures d.Crossfade? <==> HardwareBacked(dest, scenes) && HardwareBacked(origin, scenes)
    ensures d.Direct? <==> HardwareBacked(dest, scenes) && !HardwareBacked(origin, scenes)
  {
    if !HardwareBacked(dest, scenes) then NoSwitch
    else
      var port := IndexOf(scenes, dest.value);
      if HardwareBacked(origin, scenes) then Crossfade(port) else Direct(port)
  }

  /** A destination outside the list never switches, whatever the origin. */
  lemma NonHardwareDestinationIgnored(origin: Option<string>, dest: Option<string>, scenes: seq<string>)
    requires !HardwareBacked(dest, scenes)
    ensures Classify(origin, dest, scenes) == NoSwitch
  {
  }

  /** Only the origin's membership matters, never its position in the list. */
  lemma OriginIndexIrrelevant(o1: Option<string>, o2: Option<string>, dest: Option<string>, scenes: seq<string>)
    requires HardwareBacked(o1, scenes) == HardwareBacked(o2, scenes)
    ensures Classify(o1, dest, scenes) == Classify(o2, dest, scenes)
  {
  }

  /** A hardware scene transitioning to itself still crossfades. */
  lemma SelfTransitionCrossfades(name: string, scenes: seq<string>)
    requires name in scenes
    ensures Classify(Some(name), Some(name), scenes) == Crossfade(IndexOf(scenes, name))
  {
  }

  /** With duplicate entries the earliest one decides the port. */
  lemma FirstEntryWins(origin: Option<string>, name: string, scenes: seq<string>, i: nat)
    requires i < |scenes| && scenes[i] == name
    ensures Classify(origin, Some(name), scenes).port <= i
  {
  }
}
