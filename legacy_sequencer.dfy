/** The older sequence controller: the `Matchup` class of src/webgl-matchup.ts.

    It plays its pitches one after another, one `animate` call per frame, and hands the
    strike-zone overlay on from a finished pitch to the next; unlike the newer
    controller it never loops, and the finished last pitch simply loses its overlay.

    The pitch objects it drives (constructed from a telemetry record, with `restart()`,
    `animate()`, `isDone` and `showStrikeZone`) are not the ball of src/webgl-pitch.ts,
    which has none of these; they are modelled abstractly. A pitch's `animate()` reports
    through `isDone` whether it has finished, so the frame takes that outcome as an input. */
module LegacySequencer {

  /** One telemetry record, passed through to the pitch object unchanged. */
  datatype PitchObj = PitchObj(fields: map<string, string>)

  /** The `pitch` member of the data given to setData: an array of records or a single one. */
  datatype PitchData = PitchList(list: seq<PitchObj>) | SinglePitch(single: PitchObj)

  /** The part of a pitch object the controller reads and writes. */
  datatype Display = Display(data: PitchObj, isDone: bool, showStrikeZone: bool)

  /** The controller as a value: the pitches, the current index and the pause flag. */
  datatype LegacyState = LegacyState(pitches: seq<Display>, pitchIndex: int, animate: bool)

  /** The constructor: no pitches, index -1, animating. */
  const Fresh: LegacyState := LegacyState([], -1, true)

  /** A newly constructed pitch object: not finished, overlay off. */
  function Created(data: PitchObj): Display {
    Display(data, false, false)
  }

  /** A pitch object after `restart()`: not finished, overlay off, same record. */
  function Restarted(d: Display): Display {
    d.(isDone := false, showStrikeZone := false)
  }

  /** The records setData builds pitches from, in order. */
  function Records(data: PitchData): (r: seq<PitchObj>)
    ensures data.SinglePitch? ==> r == [data.single]
    ensures data.PitchList? ==> r == data.list
  {
    match data
    case PitchList(list) => list
    case SinglePitch(p) => [p]
  }

  /** Only the current pitch may show its overlay; once the index has passed the last
      pitch none does. */
  ghost predicate ZoneOnlyAtCurrent(s: LegacyState) {
    forall j :: 0 <= j < |s.pitches| && j != s.pitchIndex ==> !s.pitches[j].showStrikeZone
  }

  ghost predicate WellIndexed(s: LegacyState) {
    0 <= s.pitchIndex <= |s.pitches|
  }

  /** setData: index 0 and one new pitch per record. */
  function Loaded(s: LegacyState, data: PitchData): (r: LegacyState)
    ensures r.pitchIndex == 0 && r.animate == s.animate
    ensures |r.pitches| == |Records(data)|
    ensures forall i :: 0 <= i < |r.pitches| ==> r.pitches[i] == Created(Records(data)[i])
  {
    var records := Records(data);
    s.(pitchIndex := 0, pitches := seq(|records|, i requires 0 <= i < |records| => Created(records[i])))
  }

  /** restart: index 0, every pitch restarted, animating. */
  function Rewound(s: LegacyState): (r: LegacyState)
    ensures r.pitchIndex == 0 && r.animate && |r.pitches| == |s.pitches|
    ensures forall j :: 0 <= j < |s.pitches| ==> r.pitches[j] == Restarted(s.pitches[j])
  {
    var n := |s.pitches|;
    s.(pitchIndex := 0, animate := true, pitches := seq(n, j requires 0 <= j < n => Restarted(s.pitches[j])))
  }

  /** One frame of `tick`, given whether the current pitch's animate() leaves it
      finished. The index is never negative here: the host loads data before the first
      frame. */
  function Ticked(s: LegacyState, finished: bool): (r: LegacyState)
    requires 0 <= s.pitchIndex
    ensures |r.pitches| == |s.pitches| && r.animate == s.animate && 0 <= r.pitchIndex
  {
    if !s.animate || s.pitchIndex >= |s.pitches| then s
    else
      var i := s.pitchIndex;
      var shown := s.pitches[i].(isDone := finished, showStrikeZone := true);
      var r := s.(pitches := s.pitches[i := shown]);
      if !finished then r else HandedOff(r)
  }

  /** The rest of the frame on which the current pitch finished: its overlay goes off,
      the index moves on and the next pitch, if any, takes the overlay. */
  function HandedOff(s: LegacyState): (r: LegacyState)
    requires 0 <= s.pitchIndex < |s.pitches|
    ensures |r.pitches| == |s.pitches| && r.animate == s.animate && r.pitchIndex == s.pitchIndex + 1
  {
    var i := s.pitchIndex;
    var moved := s.(pitches := s.pitches[i := s.pitches[i].(showStrikeZone := false)], pitchIndex := i + 1);
    if i + 1 < |s.pitches| then
      moved.(pitches := moved.pitches[i + 1 := moved.pitches[i + 1].(showStrikeZone := true)])
    else
      moved
  }

  /** Frames applied one after another, with the outcome of each frame's animate(). */
  function RunTicks(s: LegacyState, outcomes: seq<bool>): LegacyState
    requires 0 <= s.pitchIndex
    decreases |outcomes|
  {
    if outcomes == [] then s else RunTicks(Ticked(s, outcomes[0]), outcomes[1..])
  }

  /** setData with an array makes one pitch per element, in order; with a single record
      exactly one; either way the index starts at 0 and no overlay is shown. */
  lemma LoadedOnePerRecord(s: LegacyState, data: PitchData)
    ensures var r := Loaded(s, data);
      && (data.PitchList? ==>
            |r.pitches| == |data.list| && forall i :: 0 <= i < |data.list| ==> r.pitches[i].data == data.list[i])
      && (data.SinglePitch? ==> |r.pitches| == 1 && r.pitches[0].data == data.single)
      && WellIndexed(r) && ZoneOnlyAtCurrent(r)
  {
  }

  /** restart leaves index 0, every pitch restarted with its record kept, animation on
      and no overlay shown. */
  lemma RestartRestartsAll(s: LegacyState)
    ensures var r := Rewound(s);
      && WellIndexed(r) && ZoneOnlyAtCurrent(r) && r.animate
      && forall j :: 0 <= j < |s.pitches| ==> !r.pitches[j].isDone && r.pitches[j].data == s.pitches[j].data
  {
  }

  /** A paused controller, or one past its last pitch, leaves every pitch untouched. */
  lemma TickIdleChangesNothing(s: LegacyState, finished: bool)
    requires 0 <= s.pitchIndex && (!s.animate || s.pitchIndex >= |s.pitches|)
    ensures Ticked(s, finished) == s
  {
  }

  /** A frame touches only the current pitch and the next one, and raises the index by
      at most one, never beyond the number of pitches. The current pitch records the
      frame's outcome; every other pitch changes at most in its overlay flag. */
  lemma TickStepsOnlyCurrent(s: LegacyState, finished: bool)
    requires WellIndexed(s)
    ensures var r := Ticked(s, finished); var i := s.pitchIndex;
      && (r.pitchIndex == i || r.pitchIndex == i + 1)
      && r.pitchIndex <= |s.pitches|
      && (forall j :: 0 <= j < |s.pitches| && j != i && j != i + 1 ==> r.pitches[j] == s.pitches[j])
      && (forall j :: 0 <= j < |s.pitches| ==> r.pitches[j].data == s.pitches[j].data)
      && (forall j :: 0 <= j < |s.pitches| && j != i ==>
            r.pitches[j] == s.pitches[j].(showStrikeZone := r.pitches[j].showStrikeZone))
      && (s.animate && i < |s.pitches| ==>
            r.pitches[i] == s.pitches[i].(isDone := finished, showStrikeZone := r.pitches[i].showStrikeZone))
  {
  }

  /** The current pitch keeps the overlay while it plays; on the frame it finishes the
      overlay moves to the next pitch, or goes off for good after the last one. */
  lemma TickHandsOverZone(s: LegacyState, finished: bool)
    requires WellIndexed(s) && s.animate && s.pitchIndex < |s.pitches|
    ensures var r := Ticked(s, finished); var i := s.pitchIndex;
      && (!finished ==> r.pitchIndex == i && r.pitches[i].showStrikeZone)
      && (finished ==> r.pitchIndex == i + 1 && !r.pitches[i].showStrikeZone)
      && (finished && i + 1 < |s.pitches| ==> r.pitches[i + 1].showStrikeZone)
  {
  }

  /** Every frame keeps the index in range and the overlay on the current pitch only. */
  lemma TickKeepsZoneAtCurrent(s: LegacyState, finished: bool)
    requires WellIndexed(s) && ZoneOnlyAtCurrent(s)
    ensures WellIndexed(Ticked(s, finished)) && ZoneOnlyAtCurrent(Ticked(s, finished))
  {
  }

  /** When the last pitch finishes the index reaches the number of pitches and no pitch
      shows its overlay any more. */
  lemma LastPitchEndsSequence(s: LegacyState)
    requires ZoneOnlyAtCurrent(s) && s.animate && s.pitchIndex == |s.pitches| - 1 >= 0
    ensures var r := Ticked(s, true);
      && r.pitchIndex == |s.pitches|
      && forall j :: 0 <= j < |s.pitches| ==> !r.pitches[j].showStrikeZone
  {
  }

  /** Past the last pitch no frame changes anything again: the sequence does not loop. */
  lemma {:induction false} ExhaustedStaysFrozen(s: LegacyState, outcomes: seq<bool>)
    requires s.pitchIndex == |s.pitches|
    ensures RunTicks(s, outcomes) == s
    decreases |outcomes|
  {
    if outcomes != [] {
      TickIdleChangesNothing(s, outcomes[0]);
      ExhaustedStaysFrozen(Ticked(s, outcomes[0]), outcomes[1..]);
    }
  }

  /** The overlay invariant holds across any number of frames. The same induction is
      written for the newer controller of src/matchup.ts, over that controller's own
      state and tick. */
  lemma {:induction false} RunKeepsZoneAtCurrent(s: LegacyState, outcomes: seq<bool>)
    requires WellIndexed(s) && ZoneOnlyAtCurrent(s)
    ensures WellIndexed(RunTicks(s, outcomes)) && ZoneOnlyAtCurrent(RunTicks(s, outcomes))
    decreases |outcomes|
  {
    if outcomes != [] {
      TickKeepsZoneAtCurrent(s, outcomes[0]);
      RunKeepsZoneAtCurrent(Ticked(s, outcomes[0]), outcomes[1..]);
    }
  }

  /** The index never decreases over frames and never passes the number of pitches. */
  lemma {:induction false} RunIndexMonotone(s: LegacyState, outcomes: seq<bool>)
    requires WellIndexed(s)
    ensures s.pitchIndex <= RunTicks(s, outcomes).pitchIndex <= |s.pitches|
    ensures |RunTicks(s, outcomes).pitches| == |s.pitches|
    decreases |outcomes|
  {
    if outcomes != [] {
      TickStepsOnlyCurrent(s, outcomes[0]);
      RunIndexMonotone(Ticked(s, outcomes[0]), outcomes[1..]);
    }
  }

  /** A pitch object of this controller. */
  class Pitch {
    const data: PitchObj
    var isDone: bool
    var showStrikeZone: bool

    function State(): Display
      reads this
    {
      Display(data, isDone, showStrikeZone)
    }

    constructor (data: PitchObj)
      ensures State() == Created(data)
    {
      this.data := data;
      isDone := false;
      showStrikeZone := false;
    }

    method Restart()
      modifies this
      ensures State() == Restarted(old(State()))
    {
      isDone := false;
      showStrikeZone := false;
    }

    /** One animate() frame; whether it finishes the pitch is its outcome. */
    method Animate(finished: bool)
      modifies this
      ensures State() == old(State()).(isDone := finished)
    {
      isDone := finished;
    }
  }

  /** The states of a sequence of pitch objects, in order. Each controller keeps its own
      copy, over its own pitch class. */
  ghost function StatesOf(ps: seq<Pitch>): (r: seq<Display>)
    reads ps
    ensures |r| == |ps| && forall j :: 0 <= j < |ps| ==> r[j] == ps[j].State()
  {
    seq(|ps|, j reads ps requires 0 <= j < |ps| => ps[j].State())
  }

  ghost predicate Distinct(ps: seq<Pitch>) {
    forall i, j :: 0 <= i < j < |ps| ==> ps[i] != ps[j]
  }

  /** The controller object; its pitches are distinct objects updated in place. */
  class Matchup {
    var pitches: seq<Pitch>
    var pitchIndex: int
    var animate: bool

    ghost function Model(): LegacyState
      reads this, pitches
    {
      LegacyState(StatesOf(pitches), pitchIndex, animate)
    }

    ghost predicate Valid()
      reads this, pitches
    {
      && Distinct(pitches)
      && -1 <= pitchIndex <= |pitches|
      && (pitchIndex == -1 ==> pitches == [])
      && ZoneOnlyAtCurrent(Model())
    }

    constructor ()
      ensures Valid() && Model() == Fresh
    {
      pitches := [];
      pitchIndex := -1;
      animate := true;
    }

    method SetData(data: PitchData)
      requires Valid()
      modifies this
      ensures Valid() && forall j :: 0 <= j < |pitches| ==> fresh(pitches[j])
      ensures Model() == Loaded(old(Model()), data)
    {
      pitchIndex := 0;
      pitches := [];
      var records := Records(data);
      match data
      case PitchList(list) =>
        var i := 0;
        while i < |list|
          invariant 0 <= i <= |list| && |pitches| == i && pitchIndex == 0 && animate == old(animate)
          invariant Distinct(pitches)
          invariant forall j :: 0 <= j < i ==> fresh(pitches[j]) && pitches[j].State() == Created(list[j])
        {
          var pitch := new Pitch(list[i]);
          pitches := pitches + [pitch];
          i := i + 1;
        }
      case SinglePitch(single) =>
        var pitch := new Pitch(single);
        pitches := pitches + [pitch];
    }

    method Restart()
      requires Valid()
      modifies this, pitches
      ensures Valid() && pitches == old(pitches)
      ensures Model() == Rewound(old(Model()))
    {
      animate := false;
      pitchIndex := 0;
      var i := 0;
      while i < |pitches|
        invariant 0 <= i <= |pitches| && pitches == old(pitches) && pitchIndex == 0
        invariant forall j :: 0 <= j < i ==> pitches[j].State() == Restarted(old(pitches[j].State()))
        invariant forall j :: i <= j < |pitches| ==> pitches[j].State() == old(pitches[j].State())
      {
        pitches[i].Restart();
        i := i + 1;
      }
      animate := true;
    }

    /** One frame; `finished` is what the current pitch's animate() leaves in isDone. */
    method Tick(finished: bool)
      requires Valid() && 0 <= pitchIndex
      modifies this, pitches
      ensures Valid() && pitches == old(pitches)
      ensures Model() == Ticked(old(Model()), finished)
    {
      ghost var before := Model();
      TickKeepsZoneAtCurrent(before, finished);
      if animate && pitchIndex < |pitches| {
        var i := pitchIndex;
        pitches[i].Animate(finished);
        pitches[i].showStrikeZone := true;
        assert StatesOf(pitches) == before.pitches[i := before.pitches[i].(isDone := finished, showStrikeZone := true)];
        if pitches[i].isDone {
          HandOff();
        }
      }
    }

    /** The branch of tick taken when the current pitch has just finished. */
    method HandOff()
      requires Distinct(pitches) && 0 <= pitchIndex < |pitches|
      modifies this, pitches
      ensures Distinct(pitches) && pitches == old(pitches)
      ensures Model() == HandedOff(old(Model()))
    {
      ghost var before := Model();
      var i := pitchIndex;
      pitches[i].showStrikeZone := false;
      pitchIndex := pitchIndex + 1;
      assert StatesOf(pitches) == before.pitches[i := before.pitches[i].(showStrikeZone := false)];
      if pitchIndex < |pitches| {
        pitches[pitchIndex].showStrikeZone := true;
      }
    }
  }
}
