/** When the energy-based speech detector reports an onset, and where its noise floor can lie. */
module Vad {
  import opened Pcm16

  // ------------------------------------------------------ the energy of a frame

  function Magnitudes(samples: seq<int16>): (total: nat) {
    if samples == [] then 0
    else Magnitudes(samples[..|samples| - 1]) + Magnitude(samples[|samples| - 1])
  }

  function Magnitude(sample: int16): nat {
    if sample < 0 then -(sample as int) else sample
  }

  /** The magnitudes' sum over their number, and zero if there is not one whole sample. */
  function Energy(frame: seq<byte>): real {
    var samples := Unpack(frame[..|frame| - |frame| % 2]);
    if samples == [] then 0.0 else Magnitudes(samples) as real / |samples| as real
  }

  method PcmFrameEnergy(frame: seq<byte>) returns (energy: real)
    ensures energy == Energy(frame)
  {
    ghost var samples := Unpack(frame[..|frame| - |frame| % 2]);
    if |frame| < 2 {
      return 0.0;
    }
    var n := |frame| / 2;
    var total := 0;
    for i := 0 to n
      invariant total == Magnitudes(samples[..i])
    {
      var sample := Sample(frame[2 * i], frame[2 * i + 1]);
      total := total + Magnitude(sample);
      assert samples[..i + 1] == samples[..i] + [sample];
    }
    assert samples[..n] == samples;
    energy := total as real / n as real;
  }

  lemma {:induction false} MagnitudesBound(samples: seq<int16>)
    ensures Magnitudes(samples) <= 0x8000 * |samples|
  {
    if samples != [] {
      MagnitudesBound(samples[..|samples| - 1]);
    }
  }

  /** Energies stay within 0 and 32768; the upper end, reached by LoudestFrame, is one more than documented. */
  lemma EnergyBound(frame: seq<byte>)
    ensures 0.0 <= Energy(frame) <= 32768.0
  {
    var samples := Unpack(frame[..|frame| - |frame| % 2]);
    if samples != [] {
      MagnitudesBound(samples);
      var total, n := Magnitudes(samples) as real, |samples| as real;
      Ratio(total, n, 32768.0);
    }
  }

  /** How many samples are -32768, the one whose magnitude is over 32767. */
  function Lowest(samples: seq<int16>): nat {
    if samples == [] then 0
    else Lowest(samples[..|samples| - 1]) + if samples[|samples| - 1] == -0x8000 then 1 else 0
  }

  /** How far the magnitudes of the others are below 32767, in all. */
  function Slack(samples: seq<int16>): nat {
    if samples == [] then 0
    else Slack(samples[..|samples| - 1]) + SlackOf(samples[|samples| - 1])
  }

  function SlackOf(sample: int16): nat {
    if sample == -0x8000 then 0 else 0x7fff - Magnitude(sample)
  }

  lemma {:induction false} MagnitudesAre(samples: seq<int16>)
    ensures Magnitudes(samples) == 0x7fff * |samples| + Lowest(samples) - Slack(samples)
  {
    if samples != [] {
      MagnitudesAre(samples[..|samples| - 1]);
    }
  }

  lemma {:induction false} LowestMeaning(samples: seq<int16>)
    ensures Lowest(samples) <= |samples|
    ensures Lowest(samples) == 0 <==> forall i :: 0 <= i < |samples| ==> samples[i] != -0x8000
    ensures Lowest(samples) == |samples| <==> forall i :: 0 <= i < |samples| ==> samples[i] == -0x8000
    ensures Lowest(samples) == |samples| ==> Slack(samples) == 0
  {
    if samples != [] {
      LowestMeaning(samples[..|samples| - 1]);
    }
  }

  /**
   The documented range 0 to 32767 is left exactly by the frames that have more samples of -32768
   than the other samples' magnitudes are below 32767 in all: never without such a sample. The
   energy is 32768 exactly when there are no other samples.
   */
  lemma EnergyOverRangeIff(frame: seq<byte>)
    ensures var samples := Unpack(frame[..|frame| - |frame| % 2]);
            && (Energy(frame) > 32767.0 <==> Lowest(samples) > Slack(samples))
            && ((forall i :: 0 <= i < |samples| ==> samples[i] != -0x8000) ==> Energy(frame) <= 32767.0)
            && (Energy(frame) == 32768.0 <==>
                  samples != [] && forall i :: 0 <= i < |samples| ==> samples[i] == -0x8000)
  {
    var samples := Unpack(frame[..|frame| - |frame| % 2]);
    MagnitudesAre(samples);
    LowestMeaning(samples);
    hide Magnitudes, Lowest, Slack;
    if samples != [] {
      var total, n := Magnitudes(samples), |samples|;
      QuotientOver(total, n, 32767);
      QuotientIs(total, n, 32768);
      hide Unpack;
    }
  }

  lemma QuotientOver(total: nat, n: nat, most: nat)
    requires n > 0
    ensures total as real / n as real > most as real <==> total > most * n
  {
    var q := total as real / n as real;
    assert q * n as real == total as real;
    assert (most * n) as real == most as real * n as real;
    Scales(q, most as real, n as real);
  }

  lemma QuotientIs(total: nat, n: nat, most: nat)
    requires n > 0
    ensures total as real / n as real == most as real <==> total == most * n
  {
    var q := total as real / n as real;
    assert q * n as real == total as real;
    assert (most * n) as real == most as real * n as real;
    Scales(q, most as real, n as real);
    Scales(most as real, q, n as real);
  }

  lemma Scales(a: real, b: real, n: real)
    requires n > 0.0
    ensures a > b <==> a * n > b * n
  {
    if a > b {
      assert (a - b) * n > 0.0;
    } else {
      NonNegative(b - a, n);
    }
    assert (a - b) * n == a * n - b * n;
  }

  lemma LoudestFrame()
    ensures Energy([0, 128]) == 32768.0
  {
    var samples := Unpack([0, 128][..2]);
    assert samples == [-32768] && samples[..0] == [];
    assert Magnitudes(samples) == Magnitudes(samples[..0]) + Magnitude(-32768);
  }

  lemma Ratio(total: real, n: real, most: real)
    requires 0.0 <= total <= most * n && n > 0.0
    ensures 0.0 <= total / n <= most
  {
    var ratio := total / n;
    assert ratio * n == total;
    if ratio > most {
      assert ratio * n > most * n;
    }
  }

  // ------------------------------------------------------ what counts as loud

  datatype Settings = Settings(
    minEnergy: real, noiseRatio: real, speechFrames: int, noiseAlpha: real, initialNoise: real)

  function Threshold(s: Settings, floor: real): real {
    if s.minEnergy >= floor * s.noiseRatio then s.minEnergy else floor * s.noiseRatio
  }

  /** The noise floor after some frames, given by their energies alone. */
  function FloorAfter(s: Settings, energies: seq<real>): real {
    if energies == [] then s.initialNoise
    else Learnt(s, FloorAfter(s, energies[..|energies| - 1]), energies[|energies| - 1])
  }

  function Learnt(s: Settings, floor: real, energy: real): real {
    if energy >= Threshold(s, floor) then floor else floor + s.noiseAlpha * (energy - floor)
  }

  predicate Loud(s: Settings, energies: seq<real>, k: nat)
    requires k < |energies|
  {
    energies[k] >= Threshold(s, FloorAfter(s, energies[..k]))
  }

  function Needed(s: Settings): nat
    ensures Needed(s) >= 1
  {
    if s.speechFrames < 1 then 1 else s.speechFrames
  }

  ghost predicate AllLoud(s: Settings, energies: seq<real>, first: nat, end: nat)
    requires end <= |energies|
  {
    forall k :: first <= k < end ==> Loud(s, energies, k)
  }

  /** A run of loud frames that does not go on to the left of `first`; runs do not reach over a reset. */
  ghost predicate Starts(s: Settings, energies: seq<real>, since: nat, first: nat)
    requires first <= |energies|
  {
    since <= first && (first == since || !Loud(s, energies, first - 1))
  }

  /** Speech starts at frame k: the unbroken loud run that k is in is exactly as long as needed at k. */
  ghost predicate Onset(s: Settings, energies: seq<real>, since: nat, k: nat)
    requires k < |energies|
  {
    && Needed(s) <= k + 1
    && AllLoud(s, energies, k + 1 - Needed(s), k + 1)
    && Starts(s, energies, since, k + 1 - Needed(s))
  }

  /** Between two starts of speech there is a quiet frame or a reset: one start for each loud run. */
  lemma OneOnsetPerRun(s: Settings, energies: seq<real>, since: nat, j: nat, k: nat)
    requires j < k < |energies| && Onset(s, energies, since, j) && Onset(s, energies, since, k)
    ensures exists q :: j < q < k && !Loud(s, energies, q)
  {
    hide Loud, Needed;
    assert !Loud(s, energies, k - Needed(s));
  }

  /** And every loud run that gets as long as needed has one, at the frame where it does. */
  lemma LongRunHasOnset(s: Settings, energies: seq<real>, since: nat, first: nat, end: nat)
    requires first + Needed(s) <= end <= |energies|
    requires Starts(s, energies, since, first) && AllLoud(s, energies, first, end)
    ensures Onset(s, energies, since, first + Needed(s) - 1)
    ensures forall k :: first <= k < end && Onset(s, energies, since, k) ==> k == first + Needed(s) - 1
  {
    hide Loud, Needed;
    forall k | first <= k < end && Onset(s, energies, since, k)
      ensures k == first + Needed(s) - 1
    {
      assert AllLoud(s, energies, k + 1 - Needed(s), k + 1);
    }
  }

  /** Nothing is learnt from loud frames: within a loud run the threshold stands still. */
  lemma {:induction false} ThresholdWithinRun(s: Settings, energies: seq<real>, first: nat, k: nat)
    requires first <= k <= |energies| && AllLoud(s, energies, first, k)
    ensures FloorAfter(s, energies[..k]) == FloorAfter(s, energies[..first])
    decreases k
  {
    if first < k {
      ThresholdWithinRun(s, energies, first, k - 1);
      assert energies[..k][..k - 1] == energies[..k - 1];
      assert Loud(s, energies, k - 1);
    }
  }

  /** The floor never leaves the range of its first value and the quiet energies it has learnt from. */
  lemma {:induction false} FloorInRange(s: Settings, energies: seq<real>, low: real, high: real)
    requires 0.0 <= s.noiseAlpha <= 1.0
    requires low <= s.initialNoise <= high
    requires forall k :: 0 <= k < |energies| && !Loud(s, energies, k) ==> low <= energies[k] <= high
    ensures low <= FloorAfter(s, energies) <= high
  {
    if energies != [] {
      var front, energy := energies[..|energies| - 1], energies[|energies| - 1];
      forall k | 0 <= k < |front| && !Loud(s, front, k)
        ensures low <= front[k] <= high
      {
        assert front[..k] == energies[..k];
        assert !Loud(s, energies, k);
      }
      FloorInRange(s, front, low, high);
      assert energies == front + [energy];
      Appended(s, front, energy);
      hide FloorAfter, Threshold, Loud, Learnt;
      LearntInRange(s, FloorAfter(s, front), energy, low, high);
    }
  }

  lemma LearntInRange(s: Settings, floor: real, energy: real, low: real, high: real)
    requires 0.0 <= s.noiseAlpha <= 1.0 && low <= floor <= high
    requires energy < Threshold(s, floor) ==> low <= energy <= high
    ensures low <= Learnt(s, floor, energy) <= high
  {
    if energy < Threshold(s, floor) {
      Between(floor, energy - floor, s.noiseAlpha, low, high);
    }
  }

  lemma Between(floor: real, change: real, alpha: real, low: real, high: real)
    requires 0.0 <= alpha <= 1.0 && low <= floor <= high && low <= floor + change <= high
    ensures low <= floor + alpha * change <= high
  {
    if change >= 0.0 {
      NonNegative(alpha, change);
      NonNegative(1.0 - alpha, change);
    } else {
      NonPositive(alpha, change);
      NonPositive(1.0 - alpha, change);
    }
    assert (1.0 - alpha) * change == change - alpha * change;
  }

  lemma NonPositive(a: real, b: real)
    requires a >= 0.0 && b <= 0.0
    ensures a * b <= 0.0
  {
  }

  lemma NonNegative(a: real, b: real)
    requires a >= 0.0 && b >= 0.0
    ensures a * b >= 0.0
  {
  }

  // ------------------------------------------------------ the detector

  class EnergyVAD {
    const settings: Settings
    var noiseFloor: real
    var run: nat
    var inSpeech: bool
    ghost var energies: seq<real>  // of all the frames so far
    ghost var since: nat           // how many of them came before the last reset

    ghost predicate Valid()
      reads this
    {
      && InRun(settings, energies, since, run)
      && noiseFloor == FloorAfter(settings, energies)
      && (inSpeech <==> run >= Needed(settings))
    }

    constructor (settings: Settings)
      ensures Valid() && energies == [] && since == 0 && this.settings == settings
    {
      this.settings := settings;
      noiseFloor, run, inSpeech := settings.initialNoise, 0, false;
      energies, since := [], 0;
    }

    method Update(frame: seq<byte>) returns (speechStarted: bool)
      requires Valid()
      modifies this
      ensures Valid() && since == old(since)
      ensures energies == old(energies) + [Energy(frame)]
      ensures speechStarted <==> Onset(settings, energies, since, |energies| - 1)
    {
      hide Loud, FloorAfter, Energy, Threshold, Needed, InRun, Onset;
      var energy := PcmFrameEnergy(frame);
      Appended(settings, energies, energy);
      OneMore(settings, energies, since, run, energy);
      NeededIs(settings, run + 1);
      energies := energies + [energy];
      if energy >= Threshold(settings, noiseFloor) {
        run := run + 1;
        if !inSpeech && run >= settings.speechFrames {
          inSpeech := true;
          return true;
        }
        return false;
      }
      run := 0;
      inSpeech := false;
      noiseFloor := noiseFloor + settings.noiseAlpha * (energy - noiseFloor);
      return false;
    }

    method Reset()
      requires Valid()
      modifies this
      ensures Valid() && since == |energies| && energies == old(energies)
    {
      run := 0;
      inSpeech := false;
      since := |energies|;
    }
  }

  /** The last `run` frames are the loud run so far. */
  ghost predicate InRun(s: Settings, energies: seq<real>, since: nat, run: nat) {
    && since + run <= |energies|
    && AllLoud(s, energies, |energies| - run, |energies|)
    && Starts(s, energies, since, |energies| - run)
  }

  lemma OneMore(s: Settings, energies: seq<real>, since: nat, run: nat, energy: real)
    requires InRun(s, energies, since, run)
    ensures var more := energies + [energy];
            if Loud(s, more, |energies|) then
              InRun(s, more, since, run + 1) && (Onset(s, more, since, |energies|) <==> run + 1 == Needed(s))
            else
              InRun(s, more, since, 0) && !Onset(s, more, since, |energies|)
  {
    Appended(s, energies, energy);
    hide Loud, Needed, FloorAfter, Threshold;
    var more, n := energies + [energy], |energies|;
    if Loud(s, more, n) {
      if Onset(s, more, since, n) {
        SameStart(s, more, since, n - run, n + 1 - Needed(s), n + 1);
      }
    } else {
      assert AllLoud(s, more, n + 1, n + 1);
    }
  }

  /** A run of loud frames has one first frame. */
  lemma SameStart(s: Settings, energies: seq<real>, since: nat, a: nat, b: nat, end: nat)
    requires a < end && b < end <= |energies|
    requires AllLoud(s, energies, a, end) && AllLoud(s, energies, b, end)
    requires Starts(s, energies, since, a) && Starts(s, energies, since, b)
    ensures a == b
  {
    hide Loud;
  }

  lemma NeededIs(s: Settings, run: nat)
    requires run >= 1
    ensures run >= s.speechFrames <==> run >= Needed(s)
  {
  }

  /** One more frame changes nothing about the earlier ones. */
  lemma Appended(s: Settings, energies: seq<real>, energy: real)
    ensures var more := energies + [energy];
            && (forall k {:trigger Loud(s, more, k)} {:trigger Loud(s, energies, k)} ::
                  0 <= k < |energies| ==> (Loud(s, more, k) <==> Loud(s, energies, k)))
            && (Loud(s, more, |energies|) <==> energy >= Threshold(s, FloorAfter(s, energies)))
            && FloorAfter(s, more) == Learnt(s, FloorAfter(s, energies), energy)
  {
    hide Learnt, Threshold;
    var more := energies + [energy];
    forall k | 0 <= k < |energies|
      ensures Loud(s, more, k) <==> Loud(s, energies, k)
    {
      assert more[..k] == energies[..k];
    }
    assert more[..|energies|] == energies;
  }

  function Energies(frames: seq<seq<byte>>): (energies: seq<real>)
    ensures |energies| == |frames|
  {
    if frames == [] then [] else Energies(frames[..|frames| - 1]) + [Energy(frames[|frames| - 1])]
  }

  /** For every sequence of frames, the detector reports speech at exactly the frames where it starts. */
  method Detect(settings: Settings, frames: seq<seq<byte>>) returns (reports: seq<bool>)
    ensures |reports| == |frames|
    ensures forall k :: 0 <= k < |frames| ==> (reports[k] <==> Onset(settings, Energies(frames), 0, k))
  {
    hide Onset, Loud, Energy, EnergyVAD.Valid;
    var vad := new EnergyVAD(settings);
    reports := [];
    for i := 0 to |frames|
      invariant vad.Valid() && vad.settings == settings && vad.since == 0
      invariant vad.energies == Energies(frames[..i]) && |reports| == i
      invariant forall k :: 0 <= k < i ==> (reports[k] <==> Onset(settings, vad.energies, 0, k))
      modifies vad
    {
      ghost var before := vad.energies;
      var report := vad.Update(frames[i]);
      assert frames[..i + 1][..i] == frames[..i];
      forall k | 0 <= k < i
        ensures Onset(settings, vad.energies, 0, k) <==> Onset(settings, before, 0, k)
      {
        OnsetStable(settings, before, Energy(frames[i]), 0, k);
      }
      reports := reports + [report];
    }
    assert frames[..|frames|] == frames;
  }

  lemma OnsetStable(s: Settings, energies: seq<real>, energy: real, since: nat, k: nat)
    requires k < |energies|
    ensures Onset(s, energies + [energy], since, k) <==> Onset(s, energies, since, k)
  {
    Appended(s, energies, energy);
    hide Loud, Needed;
  }
}
