/** The calm corner: a grounding exercise that steps cyclically through five
    prompts, a choice of at most one looping background sound, and a guided
    breathing exercise of inhale, hold and exhale cycles. */
module CalmCorner {
  import opened Common

  const Sounds: seq<string> := ["White Noise", "Brown Noise", "Ocean Waves", "Rain"]

  const GroundingExercises: seq<string> :=
    ["5 things you can see", "4 things you can touch", "3 things you can hear",
     "2 things you can smell", "1 thing you can taste"]

  // ---------------------------------------------------------------- grounding

  /** `nextGroundingStep`'s update: advance below the last prompt, wrap to the
      first after it. */
  function NextGroundingIndex(prev: int): (r: int)
    ensures prev < |GroundingExercises| - 1 ==> r == prev + 1
    ensures prev >= |GroundingExercises| - 1 ==> r == 0
    ensures 0 <= prev < |GroundingExercises| ==> r == (prev + 1) % |GroundingExercises|
  {
    if prev < |GroundingExercises| - 1 then prev + 1 else 0
  }

  /** The index after `steps` presses of "Next Step". */
  function GroundingAfter(start: int, steps: nat): int
  {
    if steps == 0 then start else NextGroundingIndex(GroundingAfter(start, steps - 1))
  }

  /** From any prompt, the index moves round the five prompts modulo five. */
  lemma {:induction false} GroundingAfterIsModular(start: int, steps: nat)
    requires 0 <= start < |GroundingExercises|
    ensures GroundingAfter(start, steps) == (start + steps) % |GroundingExercises|
  {
    if steps > 0 {
      GroundingAfterIsModular(start, steps - 1);
      var n := start + steps - 1;
      var p := n % 5;
      assert n == 5 * (n / 5) + p;
      if p < 4 {
        assert n + 1 == 5 * (n / 5) + (p + 1);
      } else {
        assert n + 1 == 5 * (n / 5 + 1) + 0;
      }
    }
  }

  /** From the initial index 0 every press leaves a valid prompt index, and
      five presses come back to where they started. */
  lemma GroundingCycle(start: int, steps: nat)
    requires 0 <= start < |GroundingExercises|
    ensures 0 <= GroundingAfter(0, steps) < |GroundingExercises|
    ensures GroundingAfter(start, |GroundingExercises|) == start
    ensures GroundingAfter(start, steps + |GroundingExercises|) == GroundingAfter(start, steps)
  {
    var n := |GroundingExercises|;
    GroundingAfterIsModular(0, steps);
    GroundingAfterIsModular(start, n);
    GroundingAfterIsModular(start, steps);
    GroundingAfterIsModular(start, steps + n);
    assert (start + steps + n) % n == (start + steps) % n by {
      ModuloFivePeriodic(start + steps);
    }
  }

  lemma ModuloFivePeriodic(k: int)
    ensures (k + 5) % 5 == k % 5
  {
  }

  // ---------------------------------------------------------------- breathing

  datatype BreathingPhase = Inhale | Hold | Exhale

  /** Timer delays after entering each phase. */
  const InhaleMs := 4000
  const HoldMs := 2000
  const ExhaleMs := 4000

  /** The durations offered by the "1 Min", "3 Min" and "5 Min" buttons. */
  predicate ValidDuration(d: int)
  {
    d == 1 || d == 3 || d == 5
  }

  /** `breathingDuration * 3`, the number of cycles a run performs. */
  function TotalCycles(duration: int): (n: nat)
    requires ValidDuration(duration)
    ensures n % 3 == 0 && 3 <= n <= 15
  {
    duration * 3
  }

  /** The phases a run of `cycles` cycles enters, in order. */
  function PhaseTrace(cycles: nat): (t: seq<BreathingPhase>)
  {
    if cycles == 0 then [] else PhaseTrace(cycles - 1) + [Inhale, Hold, Exhale]
  }

  /** The phase the `k`-th step of a cycle enters. */
  function PhaseOfStep(k: int): BreathingPhase
  {
    if k % 3 == 0 then Inhale else if k % 3 == 1 then Hold else Exhale
  }

  /** Each cycle runs inhale, then hold, then exhale, and nothing else. */
  lemma {:induction false} PhaseTraceShape(cycles: nat)
    ensures |PhaseTrace(cycles)| == 3 * cycles
    ensures forall i :: 0 <= i < |PhaseTrace(cycles)| ==> PhaseTrace(cycles)[i] == PhaseOfStep(i)
  {
    if cycles > 0 {
      PhaseTraceShape(cycles - 1);
      var prev := PhaseTrace(cycles - 1);
      var t := PhaseTrace(cycles);
      forall i | 0 <= i < |t| ensures t[i] == PhaseOfStep(i) {
        if i < |prev| {
          assert t[i] == prev[i];
        } else {
          assert i - 3 * (cycles - 1) == 0 || i - 3 * (cycles - 1) == 1 || i - 3 * (cycles - 1) == 2;
        }
      }
    }
  }

  /** One cycle lasts ten seconds of timer delays, so a run for `d` minutes
      lasts `30 * d` seconds and enters `9 * d` phases. */
  lemma SessionLength(duration: int)
    requires ValidDuration(duration)
    ensures |PhaseTrace(TotalCycles(duration))| == 9 * duration
    ensures TotalCycles(duration) * (InhaleMs + HoldMs + ExhaleMs) == 30000 * duration
  {
    PhaseTraceShape(TotalCycles(duration));
  }

  // ---------------------------------------------------------------- sounds

  /** The sound fields hang together: a name is selected exactly when a handle
      is held, and every sound still loaded and playing is the held one. */
  predicate SoundStateOk(currentSound: Option<string>, sound: Option<nat>, playing: set<nat>)
  {
    && (currentSound.Some? <==> sound.Some?)
    && forall h :: h in playing ==> sound == Some(h)
  }

  /** So at most one sound ever plays. */
  lemma AtMostOneSound(currentSound: Option<string>, sound: Option<nat>, playing: set<nat>)
    requires SoundStateOk(currentSound, sound, playing)
    ensures |playing| <= 1
    ensures sound.None? ==> playing == {}
  {
    if sound.Some? {
      if sound.value in playing {
        assert playing == {sound.value};
      } else {
        assert playing == {};
      }
    }
  }

  /** What an unmount cleanup leaves playing when it unloads `captured`. */
  function PlayingAfterCleanup(captured: Option<nat>, playing: set<nat>): (r: set<nat>)
    ensures r <= playing
    ensures captured.Some? ==> r == playing - {captured.value}
    ensures captured.None? ==> r == playing
  {
    if captured.Some? then playing - {captured.value} else playing
  }

  /** The cleanup registered on mount closes over the first render's `sound`,
      which is null, so unmounting stops nothing: a sound playing at that time
      stays loaded and playing. */
  lemma UnmountLeavesSoundPlaying(h: nat)
    ensures SoundStateOk(Some(Sounds[3]), Some(h), {h})
    ensures PlayingAfterCleanup(None, {h}) == {h}
  {
  }

  /** Unloading the sound held at unmount silences the screen. */
  lemma ReleasingHeldSoundSilences(currentSound: Option<string>, sound: Option<nat>, playing: set<nat>)
    requires SoundStateOk(currentSound, sound, playing)
    ensures PlayingAfterCleanup(sound, playing) == {}
  {
    AtMostOneSound(currentSound, sound, playing);
  }

  // ---------------------------------------------------------------- screen

  class CalmCornerScreen {
    var isBreathing: bool
    var breathingPhase: BreathingPhase
    var breathingDuration: int
    /** Every phase the screen has been set to, in order. */
    var phaseLog: seq<BreathingPhase>
    var currentSound: Option<string>
    /** The handle of the `Audio.Sound` held in state. */
    var sound: Option<nat>
    /** Handles of sounds created and not yet stopped and unloaded. */
    var playing: set<nat>
    var nextHandle: nat
    var currentGroundingIndex: int

    ghost predicate Valid()
      reads this
    {
      && ValidDuration(breathingDuration)
      && SoundStateOk(currentSound, sound, playing)
      && (forall h :: h in playing ==> h < nextHandle)
      && (sound.Some? ==> sound.value < nextHandle)
      && 0 <= currentGroundingIndex < |GroundingExercises|
    }

    constructor ()
      ensures Valid()
      ensures !isBreathing && breathingPhase == Inhale && breathingDuration == 1 && phaseLog == []
      ensures currentSound == None && sound == None && playing == {} && currentGroundingIndex == 0
    {
      isBreathing, breathingPhase, breathingDuration, phaseLog := false, Inhale, 1, [];
      currentSound, sound, playing, nextHandle := None, None, {}, 0;
      currentGroundingIndex := 0;
    }

    /** `nextGroundingStep()` */
    method NextGroundingStep()
      requires Valid()
      modifies this`currentGroundingIndex
      ensures Valid()
      ensures currentGroundingIndex == NextGroundingIndex(old(currentGroundingIndex))
      ensures currentGroundingIndex == (old(currentGroundingIndex) + 1) % |GroundingExercises|
    {
      currentGroundingIndex := NextGroundingIndex(currentGroundingIndex);
    }

    /** `runBreathingCycle()` with the timer chain run to its end: each cycle
        enters inhale, hold and exhale; after the last one the exercise stops
        and the phase goes back to inhale. */
    method RunBreathingCycle(capturedDuration: int)
      requires ValidDuration(capturedDuration)
      modifies this`isBreathing, this`breathingPhase, this`phaseLog
      ensures phaseLog == old(phaseLog) + PhaseTrace(TotalCycles(capturedDuration)) + [Inhale]
      ensures !isBreathing && breathingPhase == Inhale
    {
      var totalCycles := capturedDuration * 3;
      var currentCycle := 0;
      while currentCycle < totalCycles
        invariant 0 <= currentCycle <= totalCycles
        invariant phaseLog == old(phaseLog) + PhaseTrace(currentCycle)
      {
        breathingPhase := Inhale;
        phaseLog := phaseLog + [Inhale];
        breathingPhase := Hold;
        phaseLog := phaseLog + [Hold];
        breathingPhase := Exhale;
        phaseLog := phaseLog + [Exhale];
        currentCycle := currentCycle + 1;
      }
      isBreathing := false;
      breathingPhase := Inhale;
      phaseLog := phaseLog + [Inhale];
    }

    /** `startBreathing(duration)` as written: the new duration is stored, but
        the run reads the duration of the render the handler came from, which
        is the one chosen by the previous press (1 on a fresh screen). */
    method StartBreathing(duration: int)
      requires Valid() && ValidDuration(duration)
      modifies this`breathingDuration, this`isBreathing, this`breathingPhase, this`phaseLog
      ensures Valid() && breathingDuration == duration
      ensures phaseLog == old(phaseLog) + PhaseTrace(TotalCycles(old(breathingDuration))) + [Inhale]
      ensures !isBreathing && breathingPhase == Inhale
    {
      var captured := breathingDuration;
      breathingDuration := duration;
      isBreathing := true;
      RunBreathingCycle(captured);
    }

    /** `startBreathing(duration)` with the run reading the duration just chosen. */
    method StartBreathingAsIntended(duration: int)
      requires Valid() && ValidDuration(duration)
      modifies this`breathingDuration, this`isBreathing, this`breathingPhase, this`phaseLog
      ensures Valid() && breathingDuration == duration
      ensures phaseLog == old(phaseLog) + PhaseTrace(TotalCycles(duration)) + [Inhale]
      ensures !isBreathing && breathingPhase == Inhale
    {
      breathingDuration := duration;
      isBreathing := true;
      RunBreathingCycle(duration);
    }

    /** `toggleSound(soundName)`, given whether creating the new sound succeeds.
        Pressing the current sound stops and releases it; pressing another one
        stops and releases the held sound first, then starts the new one. When
        creating it fails, the old name and the released handle stay in state. */
    method ToggleSound(soundName: string, loadOk: bool)
      requires Valid()
      modifies this`currentSound, this`sound, this`playing, this`nextHandle
      ensures Valid()
      ensures old(currentSound) == Some(soundName) ==>
        currentSound == None && sound == None && playing == {}
      ensures old(currentSound) != Some(soundName) && loadOk ==>
        currentSound == Some(soundName) && sound == Some(old(nextHandle)) && playing == {old(nextHandle)}
      ensures old(currentSound) != Some(soundName) && !loadOk ==>
        currentSound == old(currentSound) && sound == old(sound) && playing == {}
      ensures old(sound).Some? ==> old(sound).value !in playing
    {
      AtMostOneSound(currentSound, sound, playing);
      if currentSound == Some(soundName) {
        if sound.Some? {
          playing := playing - {sound.value};
        }
        currentSound := None;
        sound := None;
      } else {
        if sound.Some? {
          playing := playing - {sound.value};
        }
        if !loadOk {
          return;
        }
        var handle := nextHandle;
        nextHandle := nextHandle + 1;
        playing := playing + {handle};
        sound := Some(handle);
        currentSound := Some(soundName);
      }
    }

    /** The unmount cleanup as written: it tests the `sound` of the first
        render, which is null, and so unloads nothing. */
    method Unmount()
      requires Valid()
      modifies this`playing
      ensures Valid()
      ensures playing == PlayingAfterCleanup(None, old(playing)) == old(playing)
    {
      playing := PlayingAfterCleanup(None, playing);
    }

    /** The unmount cleanup reading the sound held at unmount time. */
    method UnmountReleasingSound()
      requires Valid()
      modifies this`playing
      ensures Valid()
      ensures playing == {}
    {
      ReleasingHeldSoundSilences(currentSound, sound, playing);
      playing := PlayingAfterCleanup(sound, playing);
    }
  }

  /** On a fresh screen the first press of "5 Min" runs three cycles, the one
      minute's worth of the initial duration, instead of fifteen. */
  method FirstFiveMinutePress() returns (cycles: nat)
    ensures cycles == TotalCycles(1) == 3
    ensures cycles != TotalCycles(5)
  {
    var screen := new CalmCornerScreen();
    screen.StartBreathing(5);
    PhaseTraceShape(TotalCycles(1));
    cycles := (|screen.phaseLog| - 1) / 3;
  }

  /** A sound started on a fresh screen is still playing after the screen unmounts. */
  method SoundOutlivesScreen() returns (stillPlaying: set<nat>)
    ensures |stillPlaying| == 1
  {
    var screen := new CalmCornerScreen();
    screen.ToggleSound(Sounds[0], true);
    screen.Unmount();
    stillPlaying := screen.playing;
  }
}
