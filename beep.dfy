/** The `Beep` class: a lazily created audio context and the `beep` call that
    turns a list of tone pairs into calls on the host's audio nodes. The host
    is a recorder (`log`); the context that `_getAudioContext` would create
    and the context's `currentTime` are passed in as parameters. */
module Beeper {
  import opened Tones
  import opened Timeline

  datatype Option<T> = None | Some(value: T)

  /** The only error the code raises: destructuring `undefined`. */
  datatype JsError = TypeError

  /** How the returned promise settles: `init`'s promise is already resolved;
      `beep`'s resolves when the host fires the oscillator's `onended`, or
      rejects when the executor throws. */
  datatype Completion = Resolved | ResolvesOnEnded | Rejected(error: JsError)

  /** The audio context after `init`: created only when there is none. */
  function Initialized(current: Option<Ctx>, created: Ctx): (after: Option<Ctx>)
    ensures after.Some?
    ensures current.Some? ==> after == current
    ensures current.None? ==> after == Some(created)
  {
    if current.None? then Some(created) else current
  }

  /** `init` always leaves a context, keeps an existing one, and a second
      call changes nothing. */
  lemma InitIdempotent(current: Option<Ctx>, created: Ctx, again: Ctx)
    ensures Initialized(current, created).Some?
    ensures current.Some? ==> Initialized(current, created) == current
    ensures Initialized(Initialized(current, created), again) == Initialized(current, created)
  {
  }

  /** The caller's JavaScript array of tone pairs, which `beep` shifts in place. */
  class ToneList {
    var elems: seq<Tone>

    constructor (tones: seq<Tone>)
      ensures elems == tones
    {
      elems := tones;
    }

    /** `Array.prototype.shift`: removes and returns the first element, or
        returns `undefined` (here `None`) on an empty array. */
    method Shift() returns (first: Option<Tone>)
      modifies this
      ensures old(elems) == [] ==> first == None && elems == []
      ensures old(elems) != [] ==> first == Some(old(elems)[0]) && elems == old(elems)[1..]
    {
      if elems == [] {
        first := None;
      } else {
        first := Some(elems[0]);
        elems := elems[1..];
      }
    }
  }

  class Beep {
    var volume: real
    var waveType: string
    var audioContext: Option<Ctx>
    /** The calls made on the host audio API so far. */
    var log: seq<Event>

    /** `new Beep(volume = 1, waveType = 'square')`; `None` stands for a
        missing or `undefined` argument. */
    constructor (volumeArg: Option<real>, waveTypeArg: Option<string>)
      ensures volumeArg.None? ==> volume == 1.0
      ensures volumeArg.Some? ==> volume == volumeArg.value
      ensures waveTypeArg.None? ==> waveType == "square"
      ensures waveTypeArg.Some? ==> waveType == waveTypeArg.value
      ensures audioContext == None && log == []
    {
      volume := if volumeArg.Some? then volumeArg.value else 1.0;
      waveType := if waveTypeArg.Some? then waveTypeArg.value else "square";
      audioContext := None;
      log := [];
    }

    /** `init`: creates the context (`created`) only when there is none yet;
        resolves either way. */
    method Init(created: Ctx) returns (c: Completion)
      modifies this`audioContext
      ensures audioContext == Initialized(old(audioContext), created)
      ensures audioContext.Some?
      ensures old(audioContext).Some? ==> audioContext == old(audioContext)
      ensures c == Resolved
    {
      if audioContext.None? {
        audioContext := Some(created);
        c := Resolved;
      } else {
        c := Resolved;
      }
    }

    /** `_createGainNode`: a new gain node whose level is `level`, unclamped. */
    method CreateGainNode(level: real)
      requires audioContext.Some?
      modifies this`log
      ensures log == old(log) + GainSetup(audioContext.value, level)
    {
      log := log + [CreateGain(audioContext.value)];
      log := log + [SetGain(level)];
    }

    /** `_createOscillatorNode`: a new oscillator of wave type `wave`. */
    method CreateOscillatorNode(wave: string)
      requires audioContext.Some?
      modifies this`log
      ensures log == old(log) + OscillatorSetup(audioContext.value, wave)
    {
      log := log + [CreateOscillator(audioContext.value)];
      log := log + [SetType(wave)];
    }

    /** `beep(freqArray)`, with `now` the context's `currentTime` when the
        tones are scheduled: `init()`, then the executor `Play`. */
    method Beep(freqArray: ToneList, created: Ctx, now: real) returns (c: Completion)
      modifies this`audioContext, this`log, freqArray
      ensures audioContext == Initialized(old(audioContext), created)
      ensures old(freqArray.elems) == [] ==>
        && c == Rejected(TypeError)
        && freqArray.elems == []
        && log == old(log) + NodeSetup(audioContext.value, volume, waveType)
      ensures old(freqArray.elems) != [] ==>
        && c == ResolvesOnEnded
        && freqArray.elems == old(freqArray.elems)[1..]
        && log == old(log) + Playback(audioContext.value, volume, waveType, now, old(freqArray.elems))
    {
      var _ := Init(created);
      c := Play(freqArray, now);
    }

    /** The promise executor of `beep`, run once the context exists. On an
        empty array the nodes exist but nothing is connected, started or
        stopped, and the promise rejects. Otherwise the first pair is
        shifted off the caller's array and the log grows by exactly
        `Playback` of the original pairs, started at `now`. */
    method Play(freqArray: ToneList, now: real) returns (c: Completion)
      requires audioContext.Some?
      modifies this`log, freqArray
      ensures old(freqArray.elems) == [] ==>
        && c == Rejected(TypeError)
        && freqArray.elems == []
        && log == old(log) + NodeSetup(audioContext.value, volume, waveType)
      ensures old(freqArray.elems) != [] ==>
        && c == ResolvesOnEnded
        && freqArray.elems == old(freqArray.elems)[1..]
        && log == old(log) + Playback(audioContext.value, volume, waveType, now, old(freqArray.elems))
    {
      var ctx := audioContext.value;
      ghost var tones := freqArray.elems;
      ghost var before := log;
      CreateGainNode(volume);
      CreateOscillatorNode(waveType);
      assert log == before + NodeSetup(ctx, volume, waveType);
      var startTime := now;
      var first := freqArray.Shift();
      if first.None? {
        c := Rejected(TypeError);
        return;
      }
      var cumulativeTime := startTime + MsToS(first.value.ms);
      log := log + [SetFreq(first.value.freq)];

      var rest := freqArray.elems;
      assert tones == [first.value] + rest;
      ghost var changes := ScheduledChanges(startTime, tones);
      ghost var base := log;
      assert base == before + NodeSetup(ctx, volume, waveType) + [SetFreq(tones[0].freq)];
      StartOfNext(startTime, tones, 0);
      var i := 0;
      while i < |rest|
        invariant 0 <= i <= |rest|
        invariant cumulativeTime == StartOf(startTime, tones, i + 1)
        invariant log == base + changes[..i]
        modifies this`log
      {
        ChangesSnoc(startTime, tones, i);
        StartOfNext(startTime, tones, i + 1);
        log := log + [SetAt(rest[i].freq, cumulativeTime)];
        cumulativeTime := cumulativeTime + MsToS(rest[i].ms);
        i := i + 1;
      }
      assert changes[..i] == changes;

      assert log == base + changes;
      log := log + [Connect(Oscillator, Gain), Connect(Gain, Destination(ctx)),
                    Start(startTime), Stop(cumulativeTime)];
      c := ResolvesOnEnded;
      PlaybackAppended(before, ctx, volume, waveType, startTime, tones);
    }
  }
}
