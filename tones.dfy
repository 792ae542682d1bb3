/** Tone pairs and the time arithmetic of the scheduler: milliseconds to
    seconds, running totals of durations, and the instant each tone begins.
    All arithmetic is exact (`real`); the host's floating point is not modelled. */
module Tones {

  /** One `[frequency (Hz), duration (ms)]` pair of the caller's array. */
  datatype Tone = Tone(freq: real, ms: real)

  /** `_msToS`: a duration in milliseconds, expressed in seconds. */
  function MsToS(ms: real): (s: real)
    ensures s * 1000.0 == ms
    ensures s >= 0.0 <==> ms >= 0.0
  {
    ms / 1000.0
  }

  /** Every duration is non-negative. */
  predicate NonNegative(tones: seq<Tone>)
  {
    forall i :: 0 <= i < |tones| ==> tones[i].ms >= 0.0
  }

  /** Sum of all durations, in milliseconds. */
  function TotalMs(tones: seq<Tone>): (total: real)
    ensures NonNegative(tones) ==> total >= 0.0
  {
    if tones == [] then 0.0 else tones[0].ms + TotalMs(tones[1..])
  }

  lemma {:induction false} TotalMsAppend(a: seq<Tone>, b: seq<Tone>)
    ensures TotalMs(a + b) == TotalMs(a) + TotalMs(b)
  {
    if a == [] {
      assert a + b == b;
    } else {
      assert (a + b)[1..] == a[1..] + b;
      TotalMsAppend(a[1..], b);
    }
  }

  /** Extending a prefix by one tone adds exactly that tone's duration. */
  lemma TotalMsSnoc(tones: seq<Tone>, k: nat)
    requires k < |tones|
    ensures TotalMs(tones[..k + 1]) == TotalMs(tones[..k]) + tones[k].ms
  {
    assert tones[..k + 1] == tones[..k] + [tones[k]];
    TotalMsAppend(tones[..k], [tones[k]]);
    assert [tones[k]][1..] == [];
  }

  /** The instant (seconds) at which tone `k` begins to sound when the
      sequence starts at `start`: `start` plus the earlier durations.
      `StartOf(start, tones, |tones|)` is the instant the last tone ends. */
  function StartOf(start: real, tones: seq<Tone>, k: nat): (t: real)
    requires k <= |tones|
    ensures (t - start) * 1000.0 == TotalMs(tones[..k])
    ensures k == 0 ==> t == start
  {
    start + MsToS(TotalMs(tones[..k]))
  }

  /** The end of the whole sequence is `start` plus all durations. */
  lemma EndIsTotal(start: real, tones: seq<Tone>)
    ensures StartOf(start, tones, |tones|) == start + MsToS(TotalMs(tones))
  {
    assert tones[..|tones|] == tones;
  }

  /** The scheduler's step `cumulativeTime += _msToS(time)`: the next tone
      starts one duration (in seconds) after the current one. */
  lemma StartOfNext(start: real, tones: seq<Tone>, k: nat)
    requires k < |tones|
    ensures StartOf(start, tones, k + 1) == StartOf(start, tones, k) + MsToS(tones[k].ms)
  {
    TotalMsSnoc(tones, k);
  }

  /** With non-negative durations, tones begin in order and never before `start`. */
  lemma StartOfMonotone(start: real, tones: seq<Tone>, j: nat, k: nat)
    requires NonNegative(tones)
    requires j <= k <= |tones|
    ensures start <= StartOf(start, tones, j) <= StartOf(start, tones, k)
  {
    assert tones[..k] == tones[..j] + tones[j..k];
    TotalMsAppend(tones[..j], tones[j..k]);
    assert NonNegative(tones[..j]) by {
      forall i | 0 <= i < j ensures tones[..j][i].ms >= 0.0 {
        assert tones[..j][i] == tones[i];
      }
    }
    assert NonNegative(tones[j..k]) by {
      forall i | 0 <= i < k - j ensures tones[j..k][i].ms >= 0.0 {
        assert tones[j..k][i] == tones[j + i];
      }
    }
  }
}
