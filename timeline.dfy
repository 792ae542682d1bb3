/** The host audio API seen as a recorder: every call the scheduler makes on
    the audio context and its nodes becomes one `Event` in a log. This module
    defines the log one `beep` call produces and proves what it promises:
    one frequency change per remaining tone, at the cumulative start time of
    that tone, in input order, followed by start/stop at the sequence's ends. */
module Timeline {
  import opened Tones

  /** An opaque host audio context (what `new AudioContext()` returns). */
  datatype Ctx = Ctx(id: nat)

  /** The nodes one `beep` call wires together. */
  datatype Node = Oscillator | Gain | Destination(ctx: Ctx)

  datatype Event =
    | CreateGain(ctx: Ctx)            // ctx.createGain()
    | SetGain(level: real)            // gainNode.gain.value = level
    | CreateOscillator(ctx: Ctx)      // ctx.createOscillator()
    | SetType(waveType: string)       // oscillatorNode.type = waveType
    | SetFreq(freq: real)             // oscillatorNode.frequency.value = freq
    | SetAt(freq: real, time: real)   // oscillatorNode.frequency.setValueAtTime(freq, time)
    | Connect(from: Node, to: Node)   // from.connect(to)
    | Start(time: real)               // oscillatorNode.start(time)
    | Stop(time: real)                // oscillatorNode.stop(time)

  /** `_createGainNode`: a gain node on `ctx` whose level is `volume`, unclamped. */
  function GainSetup(ctx: Ctx, volume: real): (events: seq<Event>)
    ensures |events| == 2 && CreateGain(ctx) in events && SetGain(volume) in events
  {
    [CreateGain(ctx), SetGain(volume)]
  }

  /** `_createOscillatorNode`: an oscillator on `ctx` of wave type `waveType`. */
  function OscillatorSetup(ctx: Ctx, waveType: string): (events: seq<Event>)
    ensures |events| == 2 && CreateOscillator(ctx) in events && SetType(waveType) in events
  {
    [CreateOscillator(ctx), SetType(waveType)]
  }

  /** The nodes `beep` creates before it looks at the tones: both on `ctx`,
      the gain at `volume` and the oscillator of `waveType`; nothing is
      connected, started, stopped or scheduled yet. */
  function NodeSetup(ctx: Ctx, volume: real, waveType: string): (events: seq<Event>)
    ensures |events| == 4
    ensures CreateGain(ctx) in events && SetGain(volume) in events
    ensures CreateOscillator(ctx) in events && SetType(waveType) in events
  {
    GainSetup(ctx, volume) + OscillatorSetup(ctx, waveType)
  }

  /** The frequency changes for every tone after the first: tone `k` is
      switched on at the instant it begins. */
  function ScheduledChanges(start: real, tones: seq<Tone>): (changes: seq<Event>)
    requires |tones| > 0
    ensures |changes| == |tones| - 1
    ensures forall j :: 0 <= j < |changes| ==> changes[j].SetAt? && changes[j].freq == tones[j + 1].freq
  {
    seq(|tones| - 1, j requires 0 <= j < |tones| - 1 => SetAt(tones[j + 1].freq, StartOf(start, tones, j + 1)))
  }

  /** The changes for the first `i + 1` remaining tones extend those for
      the first `i` by the change for tone `i + 1`. */
  lemma ChangesSnoc(start: real, tones: seq<Tone>, i: nat)
    requires i < |tones| - 1
    ensures ScheduledChanges(start, tones)[..i + 1] ==
      ScheduledChanges(start, tones)[..i] + [SetAt(tones[i + 1].freq, StartOf(start, tones, i + 1))]
  {
  }

  /** Everything one successful `beep(tones)` call does on the host, in order. */
  function Playback(ctx: Ctx, volume: real, waveType: string, start: real, tones: seq<Tone>): (events: seq<Event>)
    requires |tones| > 0
    ensures |events| == |tones| + 8
  {
    NodeSetup(ctx, volume, waveType)
    + [SetFreq(tones[0].freq)]
    + ScheduledChanges(start, tones)
    + [Connect(Oscillator, Gain), Connect(Gain, Destination(ctx)),
       Start(start), Stop(StartOf(start, tones, |tones|))]
  }

  /** Proof step for `Beep.Play`: `Playback` regrouped in the order in
      which the log receives its pieces. */
  lemma PlaybackAppended(before: seq<Event>, ctx: Ctx, volume: real, waveType: string, start: real, tones: seq<Tone>)
    requires |tones| > 0
    ensures before + Playback(ctx, volume, waveType, start, tones) ==
      before + NodeSetup(ctx, volume, waveType) + [SetFreq(tones[0].freq)] + ScheduledChanges(start, tones)
      + [Connect(Oscillator, Gain), Connect(Gain, Destination(ctx)),
         Start(start), Stop(StartOf(start, tones, |tones|))]
  {
  }

  /** Exactly one change per remaining tone, carrying that tone's frequency
      and the sum of all earlier durations (in seconds) after `start`; none
      for a single tone. */
  lemma ChangesAreCumulative(start: real, tones: seq<Tone>)
    requires |tones| > 0
    ensures |ScheduledChanges(start, tones)| == |tones| - 1
    ensures |tones| == 1 ==> ScheduledChanges(start, tones) == []
    ensures forall j :: 0 <= j < |tones| - 1 ==>
      ScheduledChanges(start, tones)[j] == SetAt(tones[j + 1].freq, start + MsToS(TotalMs(tones[..j + 1])))
  {
  }

  /** With non-negative durations the change times are non-decreasing and
      lie between the start and the stop time. */
  lemma ChangesOrdered(start: real, tones: seq<Tone>)
    requires |tones| > 0 && NonNegative(tones)
    ensures forall j, k :: 0 <= j <= k < |tones| - 1 ==>
      ScheduledChanges(start, tones)[j].time <= ScheduledChanges(start, tones)[k].time
    ensures forall j :: 0 <= j < |tones| - 1 ==>
      start <= ScheduledChanges(start, tones)[j].time <= StartOf(start, tones, |tones|)
  {
    var changes := ScheduledChanges(start, tones);
    forall j, k | 0 <= j <= k < |tones| - 1 ensures changes[j].time <= changes[k].time {
      StartOfMonotone(start, tones, j + 1, k + 1);
    }
    forall j | 0 <= j < |tones| - 1 ensures start <= changes[j].time <= StartOf(start, tones, |tones|) {
      StartOfMonotone(start, tones, j + 1, |tones|);
    }
  }

  /** The body of a successful call's log: the nodes first, then the
      immediate frequency of the first tone, then the changes. */
  lemma PlaybackShape(ctx: Ctx, volume: real, waveType: string, start: real, tones: seq<Tone>)
    requires |tones| > 0
    ensures Playback(ctx, volume, waveType, start, tones)[..4] == NodeSetup(ctx, volume, waveType)
    ensures Playback(ctx, volume, waveType, start, tones)[4] == SetFreq(tones[0].freq)
    ensures Playback(ctx, volume, waveType, start, tones)[5..|tones| + 4] == ScheduledChanges(start, tones)
  {
    var head := NodeSetup(ctx, volume, waveType) + [SetFreq(tones[0].freq)];
    var changes := ScheduledChanges(start, tones);
    var tail := [Connect(Oscillator, Gain), Connect(Gain, Destination(ctx)),
                 Start(start), Stop(StartOf(start, tones, |tones|))];
    assert Playback(ctx, volume, waveType, start, tones) == head + changes + tail;
    assert (head + changes + tail)[..4] == head[..4];
    assert (head + changes + tail)[5..|tones| + 4] == changes;
  }

  /** The end of a successful call's log: oscillator to gain, gain to the
      context's destination, then the start at `start` and the stop after
      all durations, in seconds. */
  lemma PlaybackEnds(ctx: Ctx, volume: real, waveType: string, start: real, tones: seq<Tone>)
    requires |tones| > 0
    ensures Playback(ctx, volume, waveType, start, tones)[|tones| + 4] == Connect(Oscillator, Gain)
    ensures Playback(ctx, volume, waveType, start, tones)[|tones| + 5] == Connect(Gain, Destination(ctx))
    ensures Playback(ctx, volume, waveType, start, tones)[|tones| + 6] == Start(start)
    ensures Playback(ctx, volume, waveType, start, tones)[|tones| + 7] == Stop(start + MsToS(TotalMs(tones)))
  {
    var p := Playback(ctx, volume, waveType, start, tones);
    var stop, total := StartOf(start, tones, |tones|), start + MsToS(TotalMs(tones));
    assert p[|tones| + 4] == Connect(Oscillator, Gain) && p[|tones| + 5] == Connect(Gain, Destination(ctx))
      && p[|tones| + 6] == Start(start) && p[|tones| + 7] == Stop(stop) by {
      var head := NodeSetup(ctx, volume, waveType) + [SetFreq(tones[0].freq)];
      var tail := [Connect(Oscillator, Gain), Connect(Gain, Destination(ctx)),
                   Start(start), Stop(StartOf(start, tones, |tones|))];
      assert p == head + ScheduledChanges(start, tones) + tail;
    }
    EndIsTotal(start, tones);
    assert Stop(stop) == Stop(total);
  }

  /** The frequency changes are exactly the `setValueAtTime` calls of the
      log: no event outside positions `5 .. |tones| + 3` schedules one. */
  lemma OnlyChangesScheduled(ctx: Ctx, volume: real, waveType: string, start: real, tones: seq<Tone>)
    requires |tones| > 0
    ensures forall i :: 0 <= i < |Playback(ctx, volume, waveType, start, tones)| ==>
      (Playback(ctx, volume, waveType, start, tones)[i].SetAt? <==> 5 <= i < |tones| + 4)
  {
  }

  /** The host's automation timeline, for the initial `frequency.value` and
      the `setValueAtTime` events in the order they were inserted: at time
      `t` the oscillator runs at the frequency of the last inserted change
      whose time is not after `t`, or at the initial value if there is none. */
  function Heard(initial: real, changes: seq<Event>, t: real): (freq: real)
  {
    if changes == [] then initial
    else
      var last := changes[|changes| - 1];
      if last.SetAt? && last.time <= t then last.freq
      else Heard(initial, changes[..|changes| - 1], t)
  }

  /** The first `n` changes only ever switch to tones `1..n`; while tone `i`
      (with `i <= n`) is playing, none of the later ones has taken effect. */
  lemma {:induction false} HeardPrefix(start: real, tones: seq<Tone>, i: nat, t: real, n: nat)
    requires NonNegative(tones)
    requires i <= n < |tones|
    requires StartOf(start, tones, i) <= t < StartOf(start, tones, i + 1)
    ensures Heard(tones[0].freq, ScheduledChanges(start, tones)[..n], t) == tones[i].freq
  {
    var prefix := ScheduledChanges(start, tones)[..n];
    if n == 0 {
      assert prefix == [];
    } else {
      assert prefix[n - 1] == SetAt(tones[n].freq, StartOf(start, tones, n));
      if n == i {
        assert prefix[n - 1].time <= t;
      } else {
        StartOfMonotone(start, tones, i + 1, n);
        assert prefix[..n - 1] == ScheduledChanges(start, tones)[..n - 1];
        HeardPrefix(start, tones, i, t, n - 1);
      }
    }
  }

  /** The tones play back to back: between the instant tone `i` begins and
      the instant it ends, the oscillator sounds tone `i`'s frequency. */
  lemma PlaysBackToBack(start: real, tones: seq<Tone>, i: nat, t: real)
    requires NonNegative(tones)
    requires i < |tones|
    requires StartOf(start, tones, i) <= t < StartOf(start, tones, i + 1)
    ensures Heard(tones[0].freq, ScheduledChanges(start, tones), t) == tones[i].freq
  {
    var changes := ScheduledChanges(start, tones);
    assert changes[..|tones| - 1] == changes;
    HeardPrefix(start, tones, i, t, |tones| - 1);
  }

  /** `[[440, 200], [880, 300]]`: 440 Hz from the start, a switch to 880 Hz
      0.2 s later, and the stop 0.5 s after the start. */
  lemma TwoTones(start: real)
    ensures ScheduledChanges(start, [Tone(440.0, 200.0), Tone(880.0, 300.0)]) == [SetAt(880.0, start + 0.2)]
    ensures StartOf(start, [Tone(440.0, 200.0), Tone(880.0, 300.0)], 2) == start + 0.5
    ensures Heard(440.0, ScheduledChanges(start, [Tone(440.0, 200.0), Tone(880.0, 300.0)]), start) == 440.0
    ensures Heard(440.0, ScheduledChanges(start, [Tone(440.0, 200.0), Tone(880.0, 300.0)]), start + 0.2) == 880.0
  {
    var tones := [Tone(440.0, 200.0), Tone(880.0, 300.0)];
    assert tones[..1] == [Tone(440.0, 200.0)];
    assert tones[..1][1..] == [];
    assert TotalMs(tones[..1]) == 200.0;
    assert tones[..2] == tones;
    assert tones[1..] == [Tone(880.0, 300.0)];
    assert tones[1..][1..] == [];
    assert TotalMs(tones) == 500.0;
    var changes := ScheduledChanges(start, tones);
    assert changes == [SetAt(880.0, start + 0.2)];
    assert changes[..0] == [];
  }
}
