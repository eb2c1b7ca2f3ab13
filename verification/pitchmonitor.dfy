/** The pitch monitor of src/qualcomm/pitch_monitor.py: three parallel
    histories (pitch, volume, timestamp) trimmed to the last ten seconds of
    audio chunks, statistics over the positive readings, and the simulated
    capture loop that feeds it clamped random readings. */
module PitchMonitoring {
  import opened Basics
  import opened Landmarks

  const SampleRate: nat := 16000
  const ChunkSize: nat := 1024

  /** `10 * sample_rate // chunk_size`: the chunks in ten seconds, rounded down. */
  const MaxHistory: nat := 10 * SampleRate / ChunkSize

  lemma MaxHistoryValue()
    ensures MaxHistory == 156
  {
  }

  datatype Monitor = Monitor(pitches: seq<real>, volumes: seq<real>, timestamps: seq<real>)

  /** A fresh monitor. */
  const Initial: Monitor := Monitor([], [], [])

  /** The three histories have one entry per recorded chunk. */
  predicate Aligned(m: Monitor)
  {
    |m.pitches| == |m.volumes| == |m.timestamps|
  }

  /** The recorded chunks as (pitch, volume, timestamp) triples. */
  function Samples(m: Monitor): (r: seq<(real, real, real)>)
    requires Aligned(m)
    ensures |r| == |m.pitches|
  {
    seq(|m.pitches|, k requires 0 <= k < |m.pitches| => (m.pitches[k], m.volumes[k], m.timestamps[k]))
  }

  /** `_update_pitch_data`: append to the three lists, then, when the pitch
      history exceeds `MaxHistory`, keep the last `MaxHistory` of each. */
  function UpdatePitchData(m: Monitor, pitch: real, volume: real, timestamp: real): (r: Monitor)
    ensures |r.pitches| == MinNat(|m.pitches| + 1, MaxHistory)
    ensures r.pitches == Push(m.pitches, pitch, MaxHistory)
    ensures Aligned(m) ==> Aligned(r)
    ensures Aligned(m) ==> r.volumes == Push(m.volumes, volume, MaxHistory)
    ensures Aligned(m) ==> r.timestamps == Push(m.timestamps, timestamp, MaxHistory)
  {
    var pitches := m.pitches + [pitch];
    var volumes := m.volumes + [volume];
    var timestamps := m.timestamps + [timestamp];
    if |pitches| > MaxHistory then
      Monitor(TakeLast(pitches, MaxHistory), TakeLast(volumes, MaxHistory),
              TakeLast(timestamps, MaxHistory))
    else Monitor(pitches, volumes, timestamps)
  }

  /** Trimming the three lists together keeps each reading with its chunk:
      the recorded chunks are the previous ones plus the new one, capped. */
  lemma UpdateKeepsChunksTogether(m: Monitor, pitch: real, volume: real, timestamp: real)
    requires Aligned(m)
    ensures var r := UpdatePitchData(m, pitch, volume, timestamp);
            Aligned(r) && Samples(r) == Push(Samples(m), (pitch, volume, timestamp), MaxHistory)
  {
    var all := Monitor(m.pitches + [pitch], m.volumes + [volume], m.timestamps + [timestamp]);
    SamplesAppend(m, pitch, volume, timestamp);
    if |all.pitches| > MaxHistory {
      SamplesTakeLast(all, MaxHistory);
    }
  }

  lemma SamplesAppend(m: Monitor, pitch: real, volume: real, timestamp: real)
    requires Aligned(m)
    ensures var all := Monitor(m.pitches + [pitch], m.volumes + [volume], m.timestamps + [timestamp]);
            Aligned(all) && Samples(all) == Samples(m) + [(pitch, volume, timestamp)]
  {
    var all := Monitor(m.pitches + [pitch], m.volumes + [volume], m.timestamps + [timestamp]);
    var s := Samples(all);
    forall k | 0 <= k < |m.pitches|
      ensures s[k] == Samples(m)[k]
    {
      assert all.pitches[k] == m.pitches[k] && all.volumes[k] == m.volumes[k];
      assert all.timestamps[k] == m.timestamps[k];
    }
  }

  lemma SamplesTakeLast(m: Monitor, cap: nat)
    requires Aligned(m) && cap < |m.pitches|
    ensures var t := Monitor(TakeLast(m.pitches, cap), TakeLast(m.volumes, cap), TakeLast(m.timestamps, cap));
            Aligned(t) && Samples(t) == TakeLast(Samples(m), cap)
  {
    var t := Monitor(TakeLast(m.pitches, cap), TakeLast(m.volumes, cap), TakeLast(m.timestamps, cap));
    var off := |m.pitches| - cap;
    forall k | 0 <= k < cap
      ensures Samples(t)[k] == Samples(m)[off + k]
    {
      assert t.pitches[k] == m.pitches[off + k] && t.volumes[k] == m.volumes[off + k];
      assert t.timestamps[k] == m.timestamps[off + k];
    }
  }

  datatype PitchStats = PitchStats(
    currentPitch: real, averagePitch: real, pitchRange: real, pitchStability: real,
    currentVolume: real, averageVolume: Option<real>, totalSamples: nat)

  /** `np.mean` of a list, `None` for the NaN that an empty list gives. */
  function MeanOrNaN(s: seq<real>): (r: Option<real>)
    ensures r.None? <==> |s| == 0
    ensures r.Some? ==> r.value * |s| as real == Sum(s)
  {
    if |s| == 0 then None
    else
      var m := Mean(s);
      DivideBack(Sum(s), |s| as real, m);
      Some(m)
  }

  /** The spread figures over the positive pitches: range and standard deviation. */
  function Spread(voiced: seq<real>, sqrt: real -> real): (r: (real, real))
    requires |voiced| > 0 && IsSqrt(sqrt)
    ensures r.0 >= 0.0 && r.1 >= 0.0
  {
    (Largest(voiced) - Smallest(voiced), Std(voiced, sqrt))
  }

  /** A reading when it is positive, else 0. */
  function PositiveOrZero(x: real): (r: real)
    ensures r >= 0.0 && (x > 0.0 ==> r == x) && (x <= 0.0 ==> r == 0.0)
  {
    if x > 0.0 then x else 0.0
  }

  /** `get_statistics`: nothing without a positive pitch; otherwise figures
      over the positive pitches and volumes, and the latest readings when
      they are positive. */
  function GetStatistics(m: Monitor, sqrt: real -> real): (r: Option<PitchStats>)
    requires Aligned(m) && IsSqrt(sqrt)
    ensures r.None? <==> forall k | 0 <= k < |m.pitches| :: m.pitches[k] <= 0.0
    ensures r.Some? ==> r.value.totalSamples == |m.pitches|
    ensures r.Some? ==> r.value.currentPitch == PositiveOrZero(m.pitches[|m.pitches| - 1])
    ensures r.Some? ==> r.value.currentVolume == PositiveOrZero(m.volumes[|m.volumes| - 1])
    ensures r.Some? ==> Some(r.value.averagePitch) == MeanOrNaN(Positives(m.pitches))
    ensures r.Some? ==> r.value.averageVolume == MeanOrNaN(Positives(m.volumes))
    ensures r.Some? ==> r.value.pitchRange >= 0.0 && r.value.pitchStability >= 0.0
  {
    var voiced := Positives(m.pitches);
    if |voiced| == 0 then None
    else
      var spread := Spread(voiced, sqrt);
      Some(PitchStats(
        PositiveOrZero(m.pitches[|m.pitches| - 1]),
        MeanOrNaN(voiced).value,
        spread.0,
        spread.1,
        PositiveOrZero(m.volumes[|m.volumes| - 1]),
        MeanOrNaN(Positives(m.volumes)),
        |m.pitches|))
  }

  /** The simulated capture: a pitch draw clamped to [80, 400] Hz. */
  function SimulatedPitch(draw: real): (p: real)
    ensures 80.0 <= p <= 400.0
  {
    Max(80.0, Min(400.0, draw))
  }

  /** The simulated capture: a volume draw clamped to [-60, 0] dB. */
  function SimulatedVolume(draw: real): (v: real)
    ensures -60.0 <= v <= 0.0
  {
    Max(-60.0, Min(0.0, draw))
  }

  /** One pass of `_audio_processing_loop` with the two normal draws and the clock reading. */
  function SimulatedStep(m: Monitor, pitchDraw: real, volumeDraw: real, now: real): Monitor
  {
    UpdatePitchData(m, SimulatedPitch(pitchDraw), SimulatedVolume(volumeDraw), now)
  }

  /** Every reading lies in the simulated ranges. */
  predicate Simulated(m: Monitor)
  {
    AllIn(m.pitches, 80.0, 400.0) && AllIn(m.volumes, -60.0, 0.0)
  }

  lemma SimulationStaysInRange(m: Monitor, pitchDraw: real, volumeDraw: real, now: real)
    requires Aligned(m) && Simulated(m)
    ensures Simulated(SimulatedStep(m, pitchDraw, volumeDraw, now))
  {
    var r := SimulatedStep(m, pitchDraw, volumeDraw, now);
    var ps := m.pitches + [SimulatedPitch(pitchDraw)];
    var vs := m.volumes + [SimulatedVolume(volumeDraw)];
    assert AllIn(ps, 80.0, 400.0) by {
      forall k | 0 <= k < |ps| ensures 80.0 <= ps[k] <= 400.0 {
        if k < |m.pitches| {
          assert ps[k] == m.pitches[k];
        }
      }
    }
    assert AllIn(vs, -60.0, 0.0) by {
      forall k | 0 <= k < |vs| ensures -60.0 <= vs[k] <= 0.0 {
        if k < |m.volumes| {
          assert vs[k] == m.volumes[k];
        }
      }
    }
    forall k | 0 <= k < |r.pitches| ensures 80.0 <= r.pitches[k] <= 400.0 {
      assert r.pitches[k] == ps[|ps| - |r.pitches| + k];
    }
    forall k | 0 <= k < |r.volumes| ensures -60.0 <= r.volumes[k] <= 0.0 {
      assert r.volumes[k] == vs[|vs| - |r.volumes| + k];
    }
  }

  /** Under the simulated capture, statistics exist as soon as one chunk is
      recorded, but the volume is never positive: the current volume reads 0
      and the average volume is the NaN of an empty mean. */
  lemma SimulatedVolumeIsNeverPositive(m: Monitor, sqrt: real -> real)
    requires Aligned(m) && Simulated(m) && |m.pitches| > 0 && IsSqrt(sqrt)
    ensures GetStatistics(m, sqrt).Some?
    ensures GetStatistics(m, sqrt).value.currentVolume == 0.0
    ensures GetStatistics(m, sqrt).value.averageVolume.None?
  {
    assert m.pitches[0] > 0.0;
  }
}
