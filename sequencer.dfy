/** The sequence controller: the `Matchup` class of src/matchup.ts.

    It owns one pitch display per telemetry record, plays them one after another
    (one `animate` step per rendered frame), hands the strike-zone overlay from each
    finished pitch to the next, and at the end either loops back to the first pitch
    or freezes on the last one. The host's frame callback, the one-shot timer of
    `restartTimeout` and the wall clock are explicit here: `Tick(now)` is one frame,
    `TimerFired()` is the deferred re-enable. */
module Sequencer {
  import opened Trajectory
  import opened Playback

  /** The optional `ms` argument of restartTimeout. */
  datatype Delay = NoDelay | Delayed(ms: int)

  /** The controller's state as a value: the displays' states, the current index,
      the pause flag, the loop flag and whether the frame loop has been started. */
  datatype SequenceState = SequenceState(
    displays: seq<PitchState>, pitchIndex: int,
    animate: bool, loop: bool, tickStarted: bool)

  /** The pitch whose strike zone may be shown: the current one, or the last one once
      the sequence is exhausted. */
  function Current(s: SequenceState): int {
    if s.pitchIndex < |s.displays| then s.pitchIndex else |s.displays| - 1
  }

  /** The overlay invariant: no pitch other than the current one shows its strike zone. */
  ghost predicate ZoneOnlyAtCurrent(s: SequenceState) {
    forall j :: 0 <= j < |s.displays| && j != Current(s) ==> !s.displays[j].showStrikeZone
  }

  ghost predicate WellIndexed(s: SequenceState) {
    0 <= s.pitchIndex <= |s.displays|
  }

  /** The freshly constructed controller: no displays yet, index -1, animating, looping. */
  const Fresh: SequenceState := SequenceState([], -1, true, true, false)

  /** setPitches: one freshly constructed display per telemetry record, in order. */
  function Loaded(s: SequenceState, pitches: seq<Telemetry>, endSpeeds: seq<real>): (r: SequenceState)
    requires |endSpeeds| == |pitches|
    requires forall i :: 0 <= i < |pitches| ==> IsEndSpeed(ToKinematics(pitches[i]), endSpeeds[i])
    ensures |r.displays| == |pitches| && r.pitchIndex == 0
    ensures forall i :: 0 <= i < |pitches| ==> r.displays[i].kin == ToKinematics(pitches[i])
    ensures forall i :: 0 <= i < |pitches| ==> r.displays[i] == Launch(pitches[i], endSpeeds[i])
    ensures WellIndexed(r) && ZoneOnlyAtCurrent(r)
  {
    s.(pitchIndex := 0,
       displays := seq(|pitches|, i requires 0 <= i < |pitches| => Launch(pitches[i], endSpeeds[i])))
  }

  /** The common part of every restart: index 0 and every display restarted, showing its
      strike zone only when it is the single pitch of the sequence. */
  function Rewound(s: SequenceState): (r: SequenceState)
    ensures |r.displays| == |s.displays| && r.pitchIndex == 0
    ensures forall j :: 0 <= j < |s.displays| ==> r.displays[j] == Restarted(s.displays[j], |s.displays| == 1)
    ensures r.animate == s.animate && r.loop == s.loop && r.tickStarted == s.tickStarted
    ensures WellIndexed(r) && ZoneOnlyAtCurrent(r)
  {
    var n := |s.displays|;
    s.(pitchIndex := 0, displays := seq(n, j requires 0 <= j < n => Restarted(s.displays[j], n == 1)))
  }

  /** One frame of `tick`: the current pitch animates and shows its strike zone; the
      frame on which it finishes continues with `HandedOff`. The index is never negative
      here: the frame loop is only started by restartTimeout, which sets it to 0 first. */
  function Ticked(s: SequenceState, now: int): (r: SequenceState)
    requires 0 <= s.pitchIndex
    ensures |r.displays| == |s.displays| && 0 <= r.pitchIndex
    ensures r.loop == s.loop && r.tickStarted == s.tickStarted && r.animate == s.animate
    ensures !s.animate || s.pitchIndex >= |s.displays| ==> r == s
  {
    if !s.animate || s.pitchIndex >= |s.displays| then s
    else
      var i := s.pitchIndex;
      var stepped := Step(s.displays[i], now).(showStrikeZone := true);
      var r := s.(displays := s.displays[i := stepped]);
      if !stepped.isDone then r else HandedOff(r)
  }

  /** The rest of a frame on which the current pitch has finished: its overlay goes off,
      the index moves on and the next pitch takes the overlay; moving past the last
      pitch ends the sequence. */
  function HandedOff(s: SequenceState): (r: SequenceState)
    requires 0 <= s.pitchIndex < |s.displays|
    ensures |r.displays| == |s.displays| && 0 <= r.pitchIndex
    ensures r.loop == s.loop && r.tickStarted == s.tickStarted
  {
    var i := s.pitchIndex;
    var moved := s.(displays := s.displays[i := s.displays[i].(showStrikeZone := false)], pitchIndex := i + 1);
    if i + 1 < |s.displays| then
      moved.(displays := moved.displays[i + 1 := moved.displays[i + 1].(showStrikeZone := true)])
    else
      SequenceEnded(moved)
  }

  /** The index has moved past the last pitch: with looping on every pitch restarts and
      advancement continues from the first; otherwise the last pitch's overlay comes back
      on and the index stays at the length. */
  function SequenceEnded(s: SequenceState): (r: SequenceState)
    requires 0 < |s.displays| == s.pitchIndex
    ensures |r.displays| == |s.displays| && 0 <= r.pitchIndex
    ensures r.loop == s.loop && r.tickStarted == s.tickStarted
  {
    var last := |s.displays| - 1;
    if s.loop then Rewound(s).(animate := true)
    else s.(displays := s.displays[last := s.displays[last].(showStrikeZone := true)])
  }

  /** restartTimeout(ms?): restart every display; advancement resumes at once without a
      delay and stays paused with one; the very first call also runs the first frame. */
  function Relaunched(s: SequenceState, delay: Delay, now: int): (r: SequenceState)
    ensures |r.displays| == |s.displays| && 0 <= r.pitchIndex
    ensures r.tickStarted && r.loop == s.loop && r.animate == delay.NoDelay?
    ensures s.tickStarted ==>
      && r.pitchIndex == 0
      && forall j :: 0 <= j < |s.displays| ==> r.displays[j] == Restarted(s.displays[j], |s.displays| == 1)
  {
    var r := Rewound(s).(animate := delay.NoDelay?);
    if s.tickStarted then r else Ticked(r.(tickStarted := true), now)
  }

  /** The deferred callback of restartTimeout(ms). */
  function Resumed(s: SequenceState): (r: SequenceState)
    ensures r.animate && r.displays == s.displays && r.pitchIndex == s.pitchIndex
    ensures r.loop == s.loop && r.tickStarted == s.tickStarted
    ensures WellIndexed(s) && ZoneOnlyAtCurrent(s) ==> WellIndexed(r) && ZoneOnlyAtCurrent(r)
  {
    s.(animate := true)
  }

  /** The current pitch finishes on this frame, it is the last one and looping is on. */
  predicate Wraps(s: SequenceState, now: int)
    requires 0 <= s.pitchIndex
  {
    && s.animate && s.loop
    && s.pitchIndex == |s.displays| - 1
    && Step(s.displays[s.pitchIndex], now).isDone
  }

  /** The hand-off keeps the index in [0, length] and the overlay invariant. */
  lemma HandOffKeepsZoneAtCurrent(s: SequenceState)
    requires 0 <= s.pitchIndex < |s.displays| && ZoneOnlyAtCurrent(s)
    ensures WellIndexed(HandedOff(s)) && ZoneOnlyAtCurrent(HandedOff(s))
  {
  }

  /** A tick keeps the index in [0, length] and the overlay invariant. */
  lemma TickKeepsZoneAtCurrent(s: SequenceState, now: int)
    requires WellIndexed(s) && ZoneOnlyAtCurrent(s)
    ensures WellIndexed(Ticked(s, now)) && ZoneOnlyAtCurrent(Ticked(s, now))
  {
  }

  /** Outside a wrap-around, a tick steps only the current pitch, changes no other
      pitch beyond the overlay flag of the next one, and raises the index by at most one. */
  lemma TickStepsOnlyCurrent(s: SequenceState, now: int)
    requires WellIndexed(s) && s.animate && s.pitchIndex < |s.displays| && !Wraps(s, now)
    ensures var r := Ticked(s, now); var i := s.pitchIndex;
      && r.displays[i] == Step(s.displays[i], now).(showStrikeZone := r.displays[i].showStrikeZone)
      && (forall j :: 0 <= j < |s.displays| && j != i ==>
            r.displays[j] == s.displays[j].(showStrikeZone := r.displays[j].showStrikeZone))
      && (forall j :: 0 <= j < |s.displays| && j != i && j != i + 1 ==> r.displays[j] == s.displays[j])
      && (r.pitchIndex == i || r.pitchIndex == i + 1)
  {
  }

  /** The current pitch keeps the overlay while it plays and hands it to the next pitch
      on the frame it finishes. */
  lemma TickHandsOverZone(s: SequenceState, now: int)
    requires WellIndexed(s) && s.animate && s.pitchIndex < |s.displays|
    ensures var r := Ticked(s, now); var i := s.pitchIndex;
      && (!Step(s.displays[i], now).isDone ==> r.pitchIndex == i && r.displays[i].showStrikeZone)
      && (Step(s.displays[i], now).isDone && i + 1 < |s.displays| ==>
            r.pitchIndex == i + 1 && !r.displays[i].showStrikeZone && r.displays[i + 1].showStrikeZone)
  {
  }

  /** With looping on, finishing the last pitch restarts every pitch, goes back to
      index 0 and keeps animating. */
  lemma {:induction false} TickWrapsAround(s: SequenceState, now: int)
    requires WellIndexed(s) && Wraps(s, now)
    ensures var r := Ticked(s, now);
      && r.pitchIndex == 0 && r.animate
      && |r.displays| == |s.displays|
      && forall j :: 0 <= j < |s.displays| ==> r.displays[j] == Restarted(s.displays[j], |s.displays| == 1)
  {
    var r := Ticked(s, now);
    var n := |s.displays|;
    forall j | 0 <= j < n
      ensures r.displays[j] == Restarted(s.displays[j], n == 1)
    {
      if j == s.pitchIndex {
        RestartForgetsHistory(r.displays[j], s.displays[j], n == 1);
      }
    }
  }

  /** On the wrap-around frame of a sequence of two or more pitches no overlay is shown:
      this is the one transition frame of the cycle. */
  lemma WrapHidesAllZones(s: SequenceState, now: int)
    requires WellIndexed(s) && Wraps(s, now) && |s.displays| >= 2
    ensures forall j :: 0 <= j < |s.displays| ==> !Ticked(s, now).displays[j].showStrikeZone
  {
  }

  /** On every other frame that steps a pitch, exactly one pitch shows its strike zone. */
  lemma TickShowsExactlyOneZone(s: SequenceState, now: int)
    requires WellIndexed(s) && ZoneOnlyAtCurrent(s)
    requires s.animate && s.pitchIndex < |s.displays| && (Wraps(s, now) ==> |s.displays| == 1)
    ensures var r := Ticked(s, now);
      && 0 <= Current(r) < |r.displays|
      && r.displays[Current(r)].showStrikeZone
      && forall j :: 0 <= j < |r.displays| && j != Current(r) ==> !r.displays[j].showStrikeZone
  {
    TickKeepsZoneAtCurrent(s, now);
  }

  /** With looping off, finishing the last pitch leaves the index at the length and the
      last pitch's overlay on. */
  lemma TickFreezesOnLast(s: SequenceState, now: int)
    requires WellIndexed(s) && s.animate && !s.loop
    requires s.pitchIndex == |s.displays| - 1 && Step(s.displays[s.pitchIndex], now).isDone
    ensures var r := Ticked(s, now);
      && r.pitchIndex == |s.displays| && r.displays[|s.displays| - 1].showStrikeZone
      && forall j :: 0 <= j < |s.displays| - 1 ==> r.displays[j] == s.displays[j]
  {
  }

  /** Frames applied one after another. */
  function RunTicks(s: SequenceState, times: seq<int>): SequenceState
    requires 0 <= s.pitchIndex
    decreases |times|
  {
    if times == [] then s else RunTicks(Ticked(s, times[0]), times[1..])
  }

  /** Once exhausted without looping, the sequence never changes again. */
  lemma {:induction false} ExhaustedStaysFrozen(s: SequenceState, times: seq<int>)
    requires s.pitchIndex == |s.displays|
    ensures RunTicks(s, times) == s
    decreases |times|
  {
    if times != [] {
      ExhaustedStaysFrozen(Ticked(s, times[0]), times[1..]);
    }
  }

  /** The overlay invariant holds across any number of frames. The same induction is
      written for the older controller of src/webgl-matchup.ts, over that controller's own
      state and tick. */
  lemma {:induction false} RunKeepsZoneAtCurrent(s: SequenceState, times: seq<int>)
    requires WellIndexed(s) && ZoneOnlyAtCurrent(s)
    ensures WellIndexed(RunTicks(s, times)) && ZoneOnlyAtCurrent(RunTicks(s, times))
    decreases |times|
  {
    if times != [] {
      TickKeepsZoneAtCurrent(s, times[0]);
      RunKeepsZoneAtCurrent(Ticked(s, times[0]), times[1..]);
    }
  }

  /** restartTimeout on a running controller: index 0, every display restarted with the
      overlay shown only for a single-pitch sequence; animate is on without a delay and
      off with one, until the timer fires. */
  lemma RelaunchRestartsAll(s: SequenceState, delay: Delay, now: int)
    requires s.tickStarted
    ensures var r := Relaunched(s, delay, now);
      && r.pitchIndex == 0 && |r.displays| == |s.displays|
      && (forall j :: 0 <= j < |s.displays| ==> r.displays[j] == Restarted(s.displays[j], |s.displays| == 1))
      && r.animate == delay.NoDelay?
      && Resumed(r).animate
  {
  }

  /** The first restartTimeout starts the frame loop; with a delay its first frame is
      paused and changes nothing, without one it steps the first pitch. */
  lemma FirstRelaunchStartsFrames(s: SequenceState, delay: Delay, now: int)
    requires !s.tickStarted
    ensures var r := Relaunched(s, delay, now);
      && r.tickStarted
      && (delay.Delayed? ==> r == Rewound(s).(animate := false, tickStarted := true))
      && (delay.NoDelay? ==> r == Ticked(Rewound(s).(animate := true, tickStarted := true), now) && r.animate)
  {
  }

  /** Every restart leaves a well-indexed state with the overlay invariant. */
  lemma RelaunchKeepsZoneAtCurrent(s: SequenceState, delay: Delay, now: int)
    ensures WellIndexed(Relaunched(s, delay, now)) && ZoneOnlyAtCurrent(Relaunched(s, delay, now))
  {
    if !s.tickStarted {
      var r := Rewound(s).(animate := delay.NoDelay?);
      TickKeepsZoneAtCurrent(r.(tickStarted := true), now);
    }
  }

  /** The states of a sequence of pitch displays, in order. Each controller keeps its own
      copy, over its own pitch class. */
  ghost function StatesOf(ds: seq<Pitch>): (r: seq<PitchState>)
    reads ds
    ensures |r| == |ds| && forall j :: 0 <= j < |ds| ==> r[j] == ds[j].State()
  {
    seq(|ds|, j reads ds requires 0 <= j < |ds| => ds[j].State())
  }

  /** Pitch displays that are distinct objects, each keeping its own invariant. */
  ghost predicate DisplaysValid(ds: seq<Pitch>)
    reads ds
  {
    && (forall i, j :: 0 <= i < j < |ds| ==> ds[i] != ds[j])
    && (forall i :: 0 <= i < |ds| ==> ds[i].Valid())
  }

  /** The controller object. The displays are distinct pitch objects updated in place. */
  class Matchup {
    var displays: seq<Pitch>
    var pitchIndex: int
    var animate: bool
    var tickStarted: bool
    var loop: bool

    ghost function Model(): SequenceState
      reads this, displays
    {
      SequenceState(StatesOf(displays), pitchIndex, animate, loop, tickStarted)
    }

    ghost predicate Valid()
      reads this, displays
    {
      && DisplaysValid(displays)
      && -1 <= pitchIndex <= |displays|
      && (tickStarted ==> 0 <= pitchIndex)
      && (pitchIndex == -1 ==> displays == [])
      && ZoneOnlyAtCurrent(Model())
    }

    constructor ()
      ensures Valid() && Model() == Fresh
    {
      displays := [];
      pitchIndex := -1;
      animate := true;
      loop := true;
      tickStarted := false;
    }

    /** The looping choice made by `initialize`; the rest of it is canvas set-up. */
    method Initialize(loop: bool)
      requires Valid()
      modifies this
      ensures Valid() && displays == old(displays)
      ensures Model() == old(Model()).(loop := loop)
    {
      this.loop := loop;
    }

    method SetPitches(pitches: seq<Telemetry>, endSpeeds: seq<real>)
      requires Valid()
      requires |endSpeeds| == |pitches|
      requires forall i :: 0 <= i < |pitches| ==> IsEndSpeed(ToKinematics(pitches[i]), endSpeeds[i])
      modifies this
      ensures Valid()
      ensures forall i :: 0 <= i < |displays| ==> fresh(displays[i])
      ensures Model() == Loaded(old(Model()), pitches, endSpeeds)
    {
      pitchIndex := 0;
      displays := [];
      var i := 0;
      while i < |pitches|
        invariant 0 <= i <= |pitches| && |displays| == i && pitchIndex == 0
        invariant animate == old(animate) && loop == old(loop) && tickStarted == old(tickStarted)
        invariant forall a, b :: 0 <= a < b < |displays| ==> displays[a] != displays[b]
        invariant forall j :: 0 <= j < i ==> fresh(displays[j])
        invariant forall j :: 0 <= j < i ==> displays[j].Valid() && displays[j].State() == Launch(pitches[j], endSpeeds[j])
      {
        var display := new Pitch(pitches[i], endSpeeds[i]);
        displays := displays + [display];
        i := i + 1;
      }
      assert Model() == Loaded(old(Model()), pitches, endSpeeds);
    }

    method Restart(now: int)
      requires Valid()
      modifies this, displays
      decreases if tickStarted then 0 else 1, 1
      ensures Valid() && displays == old(displays)
      ensures Model() == Relaunched(old(Model()), NoDelay, now)
    {
      RestartTimeout(NoDelay, now);
    }

    method RestartTimeout(delay: Delay, now: int)
      requires Valid()
      modifies this, displays
      decreases if tickStarted then 0 else 1, 0
      ensures Valid() && displays == old(displays)
      ensures Model() == Relaunched(old(Model()), delay, now)
    {
      ghost var restarted := Rewound(Model()).(animate := delay.NoDelay?);
      RelaunchKeepsZoneAtCurrent(Model(), delay, now);
      Rewind();
      if delay.NoDelay? {
        animate := true;
      }
      assert Model() == restarted;
      if !tickStarted {
        tickStarted := true;
        assert Model() == restarted.(tickStarted := true);
        Tick(now);
      }
    }

    /** The first part of restartTimeout: advancement paused, the index back to 0 and
        every display restarted. */
    method Rewind()
      requires Valid()
      modifies this, displays
      ensures Valid() && displays == old(displays)
      ensures Model() == Rewound(old(Model())).(animate := false)
    {
      animate := false;
      pitchIndex := 0;
      var count := |displays|;
      RestartDisplays(count == 1);
    }

    /** The loop of restartTimeout: every display restarted in order, each showing its
        strike zone exactly when `show` holds. */
    method RestartDisplays(show: bool)
      requires DisplaysValid(displays)
      modifies displays
      ensures DisplaysValid(displays)
      ensures forall j :: 0 <= j < |displays| ==> displays[j].State() == Restarted(old(displays[j].State()), show)
    {
      var i := 0;
      while i < |displays|
        invariant 0 <= i <= |displays|
        invariant DisplaysValid(displays)
        invariant forall j :: 0 <= j < i ==> displays[j].State() == Restarted(old(displays[j].State()), show)
        invariant forall j :: i <= j < |displays| ==> displays[j].State() == old(displays[j].State())
      {
        displays[i].Restart(show);
        i := i + 1;
      }
    }

    /** The timer of restartTimeout(ms) going off. */
    method TimerFired()
      requires Valid()
      modifies this
      ensures Valid() && displays == old(displays)
      ensures Model() == Resumed(old(Model()))
    {
      animate := true;
    }

    method Tick(now: int)
      requires Valid() && tickStarted
      modifies this, displays
      decreases 0, 4
      ensures Valid() && displays == old(displays)
      ensures Model() == Ticked(old(Model()), now)
    {
      ghost var before := Model();
      if animate && pitchIndex < |displays| {
        var i := pitchIndex;
        ghost var stepped := Step(before.displays[i], now).(showStrikeZone := true);
        AnimateDisplay(i, now);
        SetZone(i, true);
        assert Model() == before.(displays := before.displays[i := stepped]);
        if displays[i].isDone {
          HandOff(now);
        }
      }
    }

    /** The branch of tick taken when the current pitch has just finished. */
    method HandOff(now: int)
      requires Valid() && tickStarted && 0 <= pitchIndex < |displays|
      modifies this, displays
      decreases 0, 3
      ensures Valid() && displays == old(displays)
      ensures Model() == HandedOff(old(Model()))
    {
      HandOffKeepsZoneAtCurrent(Model());
      MoveOn();
      if pitchIndex < |displays| {
        SetZone(pitchIndex, true);
      } else if pitchIndex == |displays| {
        EndSequence(now);
      }
    }

    /** The current pitch's overlay goes off and the index moves to the next pitch. */
    method MoveOn()
      requires Valid() && 0 <= pitchIndex < |displays|
      modifies this, displays[pitchIndex]
      ensures Valid() && displays == old(displays) && pitchIndex == old(pitchIndex) + 1
      ensures !displays[old(pitchIndex)].showStrikeZone
      ensures var s := old(Model()); var i := s.pitchIndex;
        Model() == s.(displays := s.displays[i := s.displays[i].(showStrikeZone := false)], pitchIndex := i + 1)
    {
      ghost var before := Model();
      var i := pitchIndex;
      SetZone(i, false);
      pitchIndex := pitchIndex + 1;
      ghost var ds := before.displays[i := before.displays[i].(showStrikeZone := false)];
      assert StatesOf(displays) == ds;
      assert forall j :: 0 <= j < |ds| ==> !ds[j].showStrikeZone;
    }

    /** The branch of tick taken when the index has moved past the last pitch. */
    method EndSequence(now: int)
      requires Valid() && tickStarted && 0 < |displays| == pitchIndex
      requires !displays[pitchIndex - 1].showStrikeZone
      modifies this, displays
      decreases 0, 2
      ensures Valid() && displays == old(displays)
      ensures Model() == SequenceEnded(old(Model()))
    {
      if loop {
        Restart(now);
      } else {
        SetZone(pitchIndex - 1, true);
      }
    }

    /** One animate() frame of the display at index k. */
    method AnimateDisplay(k: int, now: int)
      requires DisplaysValid(displays) && 0 <= k < |displays|
      modifies displays[k]
      ensures DisplaysValid(displays)
      ensures StatesOf(displays) == old(StatesOf(displays))[k := Step(old(StatesOf(displays))[k], now)]
    {
      displays[k].Animate(now);
    }

    /** The assignment `displays[k].showStrikeZone = show`. */
    method SetZone(k: int, show: bool)
      requires DisplaysValid(displays) && 0 <= k < |displays|
      modifies displays[k]
      ensures DisplaysValid(displays)
      ensures StatesOf(displays) == old(StatesOf(displays))[k := old(StatesOf(displays))[k].(showStrikeZone := show)]
    {
      displays[k].showStrikeZone := show;
    }
  }
}
