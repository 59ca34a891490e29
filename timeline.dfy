/**
 * The animation timeline: the tick labels under the track, the playback frame and
 * duration, and the per-object animation flags (object id -> animation name ->
 * on/off).
 */
module Timeline {
  import opened Wrappers
  import opened Text

  // ---------------------------------------------------------------------------
  // Tick labels

  /** The distance between two tick labels for a timeline of `duration` frames:
      a timeline of up to 1000 frames gets at most ten steps. */
  function Step(duration: int): (step: int)
    ensures step in {10, 20, 50, 100}
    ensures duration <= 1000 ==> duration <= 10 * step
    ensures duration > 100 ==> duration > 4 * step
  {
    if duration <= 100 then 10
    else if duration <= 200 then 20
    else if duration <= 500 then 50
    else 100
  }

  /** calculateIntervals: the multiples of the step from 0 up to `duration`, and
      `duration` itself after them when it is not one of them. For a negative
      duration the loop adds nothing and the result is just `[duration]`. */
  method CalculateIntervals(duration: int) returns (intervals: seq<int>)
    ensures |intervals| > 0 && intervals[|intervals| - 1] == duration
    ensures forall j, k :: 0 <= j < k < |intervals| ==> intervals[j] < intervals[k]
    ensures forall k :: 0 <= k < |intervals| - 1 ==> intervals[k] == k * Step(duration)
    ensures duration <= (|intervals| - 1) * Step(duration)
    ensures duration >= 0 ==> intervals[0] == 0
    ensures duration >= 0 ==> forall k :: 0 <= k < |intervals| ==> 0 <= intervals[k] <= duration
    ensures duration < 0 ==> intervals == [duration]
  {
    var step := Step(duration);
    intervals := [];
    var i := 0;
    while i <= duration
      invariant i == |intervals| * step
      invariant forall k :: 0 <= k < |intervals| ==> intervals[k] == k * step
      invariant duration >= 0 ==> i <= duration + step
      invariant duration < 0 ==> intervals == []
    {
      intervals := intervals + [i];
      i := i + step;
    }
    if |intervals| == 0 || intervals[|intervals| - 1] != duration {
      intervals := intervals + [duration];
    }
  }

  // ---------------------------------------------------------------------------
  // Animation flags

  /** One property of a per-object flag object. */
  datatype Flag = Flag(name: string, active: bool)

  /** A per-object flag object, its properties in insertion order. */
  type Flags = seq<Flag>

  /** Object id -> flags. */
  type AnimationStates = map<int, Flags>

  /** `name in flags`. */
  predicate Has(flags: Flags, name: string)
  {
    |flags| > 0 && (flags[0].name == name || Has(flags[1..], name))
  }

  /** No property name occurs twice, as in any JavaScript object. */
  predicate UniqueNames(flags: Flags)
  {
    |flags| == 0 || (!Has(flags[1..], flags[0].name) && UniqueNames(flags[1..]))
  }

  /** `!!flags[name]`: a property that is missing reads as false. */
  function Lookup(flags: Flags, name: string): bool
  {
    if |flags| == 0 then false
    else if flags[0].name == name then flags[0].active
    else Lookup(flags[1..], name)
  }

  /** `{ ...flags, [name]: value }`: an existing property keeps its place and takes
      the new value; a new one goes last. */
  function Assign(flags: Flags, name: string, value: bool): (r: Flags)
    ensures Lookup(r, name) == value
    ensures forall other :: other != name ==> Lookup(r, other) == Lookup(flags, other)
    ensures forall other :: Has(r, other) <==> Has(flags, other) || other == name
    ensures UniqueNames(flags) ==> UniqueNames(r)
  {
    if |flags| == 0 then [Flag(name, value)]
    else if flags[0].name == name then [Flag(name, value)] + flags[1..]
    else [flags[0]] + Assign(flags[1..], name, value)
  }

  /** `delete flags[name]`. */
  function Remove(flags: Flags, name: string): (r: Flags)
    ensures !Has(r, name)
    ensures forall other :: other != name ==> Lookup(r, other) == Lookup(flags, other)
    ensures forall other :: Has(r, other) <==> Has(flags, other) && other != name
    ensures UniqueNames(flags) ==> UniqueNames(r)
  {
    if |flags| == 0 then []
    else if flags[0].name == name then Remove(flags[1..], name)
    else [flags[0]] + Remove(flags[1..], name)
  }

  /** `Object.entries(flags).filter(([_, active]) => active).map(([name]) => name)`. */
  function ActiveNames(flags: Flags): (r: seq<string>)
    ensures forall name :: name in r ==> Has(flags, name)
    ensures UniqueNames(flags) ==> forall name :: name in r <==> Lookup(flags, name)
    ensures |r| <= |flags|
  {
    if |flags| == 0 then []
    else if flags[0].active then [flags[0].name] + ActiveNames(flags[1..])
    else ActiveNames(flags[1..])
  }

  /** `!selectedObject?.id`: no object, or one whose id is falsy (0). */
  predicate HasSelection(selectedId: Option<int>)
  {
    selectedId.Some? && selectedId.value != 0
  }

  /** toggleAnimation: with an object selected, negate its flag named after the
      lower-cased `anim` (a missing flag counts as off); otherwise nothing changes. */
  function ToggleAnimation(states: AnimationStates, selectedId: Option<int>, anim: string): (r: AnimationStates)
    ensures !HasSelection(selectedId) ==> r == states
    ensures HasSelection(selectedId) ==>
      var id := selectedId.value;
      var before := if id in states then states[id] else [];
      && r.Keys == states.Keys + {id}
      && (forall other :: other in states && other != id ==> r[other] == states[other])
      && Lookup(r[id], ToLower(anim)) == !Lookup(before, ToLower(anim))
      && (forall name :: name != ToLower(anim) ==> Lookup(r[id], name) == Lookup(before, name))
      && (UniqueNames(before) ==> UniqueNames(r[id]))
  {
    if !HasSelection(selectedId) then states
    else
      var id := selectedId.value;
      var before := if id in states then states[id] else [];
      var key := ToLower(anim);
      states[id := Assign(before, key, !Lookup(before, key))]
  }

  /** getAppliedAnimations: the names of the selected object's flags that are on,
      in property order; empty without a selection or without flags for it. */
  function AppliedAnimations(states: AnimationStates, selectedId: Option<int>): (r: seq<string>)
    ensures !HasSelection(selectedId) || selectedId.value !in states ==> r == []
    ensures HasSelection(selectedId) && selectedId.value in states && UniqueNames(states[selectedId.value]) ==>
      forall name :: name in r <==> Lookup(states[selectedId.value], name)
  {
    if !HasSelection(selectedId) || selectedId.value !in states then []
    else ActiveNames(states[selectedId.value])
  }

  /** Writing back the value a present property had undoes any write to it. */
  lemma {:induction false} AssignRestores(flags: Flags, name: string, v: bool)
    requires Has(flags, name)
    ensures Assign(Assign(flags, name, v), name, Lookup(flags, name)) == flags
  {
    if flags[0].name != name {
      AssignRestores(flags[1..], name, v);
    }
  }

  /** The second of two writes to one property is the one that counts. */
  lemma {:induction false} AssignTwice(flags: Flags, name: string, v: bool, w: bool)
    ensures Assign(Assign(flags, name, v), name, w) == Assign(flags, name, w)
  {
    if |flags| > 0 && flags[0].name != name {
      AssignTwice(flags[1..], name, v, w);
    }
  }

  /** Adding a property that is off does not change which ones are on. */
  lemma {:induction false} ActiveNamesOfNewOff(flags: Flags, name: string)
    requires !Has(flags, name)
    ensures ActiveNames(Assign(flags, name, false)) == ActiveNames(flags)
  {
    if |flags| > 0 {
      ActiveNamesOfNewOff(flags[1..], name);
    }
  }

  lemma {:induction false} LookupAbsent(flags: Flags, name: string)
    requires !Has(flags, name)
    ensures !Lookup(flags, name)
  {
    if |flags| > 0 {
      LookupAbsent(flags[1..], name);
    }
  }

  /** Toggling the same animation twice leaves the applied list as it was,
      order included. */
  lemma ToggleTwiceKeepsApplied(states: AnimationStates, selectedId: Option<int>, anim: string)
    ensures AppliedAnimations(ToggleAnimation(ToggleAnimation(states, selectedId, anim), selectedId, anim), selectedId)
         == AppliedAnimations(states, selectedId)
  {
    if HasSelection(selectedId) {
      var id := selectedId.value;
      var key := ToLower(anim);
      var before := if id in states then states[id] else [];
      var once := Assign(before, key, !Lookup(before, key));
      assert ToggleAnimation(states, selectedId, anim)[id] == once;
      var twice := Assign(once, key, Lookup(before, key));
      assert ToggleAnimation(ToggleAnimation(states, selectedId, anim), selectedId, anim)[id] == twice;
      if Has(before, key) {
        AssignRestores(before, key, !Lookup(before, key));
      } else {
        LookupAbsent(before, key);
        AssignTwice(before, key, true, false);
        ActiveNamesOfNewOff(before, key);
        if id !in states {
          assert ActiveNames([Flag(key, false)]) == [];
        }
      }
    }
  }

  /** After deleteAnimation(anim) on the selected object, `anim` is not among
      its applied animations. */
  lemma DeletedNotApplied(states: AnimationStates, id: int, anim: string)
    requires id != 0 && id in states
    ensures anim !in AppliedAnimations(states[id := Remove(states[id], anim)], Some(id))
  {
  }

  // ---------------------------------------------------------------------------
  // The timeline component's state

  class Timeline {
    var currentFrame: int
    var duration: int
    var isPlaying: bool
    var animationStates: AnimationStates
    var selectedId: Option<int>

    /** The frame lies on a timeline of at least one frame. */
    ghost predicate FrameInRange()
      reads this
    {
      1 <= duration && 0 <= currentFrame <= duration
    }

    /** Every flag object has distinct property names. */
    ghost predicate FlagsWellFormed()
      reads this
    {
      forall id :: id in animationStates ==> UniqueNames(animationStates[id])
    }

    /** The component mounts paused, with `initialDuration` frames (100 when the
        parent passes none); frame, flags and selection are the parent's. */
    constructor (initialDuration: int, frame: int, states: AnimationStates, selected: Option<int>)
      ensures duration == initialDuration && currentFrame == frame && !isPlaying
      ensures animationStates == states && selectedId == selected
    {
      duration, currentFrame, isPlaying := initialDuration, frame, false;
      animationStates, selectedId := states, selected;
    }

    /** One playback tick: advance a frame; on reaching the end, stop at
        `duration` and stop playing. Returns the frame reported to onTimeUpdate,
        if any (the end is not reported). */
    method Tick() returns (reported: Option<int>)
      modifies this
      ensures old(currentFrame) + 1 >= duration ==> currentFrame == duration && !isPlaying && reported == None
      ensures old(currentFrame) + 1 < duration ==>
        currentFrame == old(currentFrame) + 1 && isPlaying == old(isPlaying) && reported == Some(currentFrame)
      ensures duration == old(duration) && animationStates == old(animationStates) && selectedId == old(selectedId)
      ensures old(FrameInRange()) ==> FrameInRange()
    {
      var next := currentFrame + 1;
      if next >= duration {
        isPlaying := false;
        currentFrame := duration;
        reported := None;
      } else {
        currentFrame := next;
        reported := Some(next);
      }
    }

    /** togglePlayPause: from the end, rewind to frame 0; always flip playing. */
    method TogglePlayPause()
      modifies this
      ensures old(currentFrame) >= duration ==> currentFrame == 0
      ensures old(currentFrame) < duration ==> currentFrame == old(currentFrame)
      ensures isPlaying == !old(isPlaying)
      ensures duration == old(duration) && animationStates == old(animationStates) && selectedId == old(selectedId)
      ensures old(FrameInRange()) ==> FrameInRange()
    {
      if currentFrame >= duration {
        currentFrame := 0;
      }
      isPlaying := !isPlaying;
    }

    /** The clamp of handleTimelineClick: store `frame` limited to [0, duration];
        onTimeUpdate still receives `frame` as it was. */
    method Seek(frame: int) returns (reported: int)
      modifies this
      ensures duration >= 0 ==> 0 <= currentFrame <= duration
      ensures 0 <= frame <= duration ==> currentFrame == frame
      ensures frame < 0 && duration >= 0 ==> currentFrame == 0
      ensures frame > duration ==> currentFrame == duration
      ensures reported == frame
      ensures duration == old(duration) && isPlaying == old(isPlaying)
      ensures animationStates == old(animationStates) && selectedId == old(selectedId)
      ensures old(FrameInRange()) ==> FrameInRange()
    {
      var atLeastZero := if frame > 0 then frame else 0;
      currentFrame := if atLeastZero < duration then atLeastZero else duration;
      reported := frame;
    }

    /** handleDurationChange: the duration becomes the number typed, but at least
        1 (text that is no number counts as 0); a frame past the new end moves to
        it and is reported. */
    method ChangeDuration(value: string) returns (reported: Option<int>)
      modifies this
      ensures duration >= 1
      ensures duration == (var typed := ParseInt(value).GetOr(0); if typed > 1 then typed else 1)
      ensures old(currentFrame) > duration ==> currentFrame == duration && reported == Some(duration)
      ensures old(currentFrame) <= duration ==> currentFrame == old(currentFrame) && reported == None
      ensures isPlaying == old(isPlaying) && animationStates == old(animationStates) && selectedId == old(selectedId)
      ensures old(FrameInRange()) ==> FrameInRange()
    {
      var typed := ParseInt(value).GetOr(0);
      var newDuration := if typed > 1 then typed else 1;
      duration := newDuration;
      reported := None;
      if currentFrame > newDuration {
        currentFrame := newDuration;
        reported := Some(newDuration);
      }
    }

    /** toggleAnimation on the component's flags. */
    method Toggle(anim: string)
      modifies this
      ensures animationStates == ToggleAnimation(old(animationStates), selectedId, anim)
      ensures currentFrame == old(currentFrame) && duration == old(duration)
      ensures isPlaying == old(isPlaying) && selectedId == old(selectedId)
      ensures old(FlagsWellFormed()) ==> FlagsWellFormed()
    {
      animationStates := ToggleAnimation(animationStates, selectedId, anim);
    }

    /** deleteAnimation: with an object selected that has flags, delete its flag
        named `anim` (not lower-cased); otherwise nothing changes. */
    method DeleteAnimation(anim: string)
      modifies this
      ensures HasSelection(selectedId) && selectedId.value in old(animationStates) ==>
        var id := selectedId.value;
        && animationStates.Keys == old(animationStates).Keys
        && animationStates[id] == Remove(old(animationStates)[id], anim)
        && forall other :: other in old(animationStates) && other != id ==> animationStates[other] == old(animationStates)[other]
      ensures !(HasSelection(selectedId) && selectedId.value in old(animationStates)) ==>
        animationStates == old(animationStates)
      ensures currentFrame == old(currentFrame) && duration == old(duration)
      ensures isPlaying == old(isPlaying) && selectedId == old(selectedId)
      ensures old(FlagsWellFormed()) ==> FlagsWellFormed()
    {
      if !HasSelection(selectedId) {
        return;
      }
      var id := selectedId.value;
      if id in animationStates {
        animationStates := animationStates[id := Remove(animationStates[id], anim)];
      }
    }
  }
}
