/** The statistics the capture loop of `run_whisper_core` keeps for each
    drained batch of microphone frames: its size and its duration. With
    mono capture every queued frame holds one float per sample, so a
    batch's size counts samples, not bytes. With more than one channel the
    capture paths queue a single scalar per frame, on which `len` raises,
    so only mono batches ever reach these statistics. */
module BatchStats {
  import opened Wrappers
  import opened Timebase
  import opened AudioFormat

  /** `sum([len(x) for x in _audio_batch])`: the samples in the batch, given
      the length of each frame. */
  function BatchSize(lens: seq<nat>): (n: nat)
    ensures forall i :: 0 <= i < |lens| ==> lens[i] <= n
  {
    if lens == [] then 0 else lens[0] + BatchSize(lens[1..])
  }

  /** What appending the frames one after another adds to the storage's
      total duration: each `append_audio` adds `len(frame) / rate`. */
  function AppendedDuration(lens: seq<nat>, rate: int): (d: real)
    requires rate > 0
    ensures 0.0 <= d
  {
    if lens == [] then 0.0 else Secs(lens[0], rate) + AppendedDuration(lens[1..], rate)
  }

  /** `_audio_time = _audio_size / mic.get_bytes_per_second()`, as written:
      a sample count over a byte rate. `None` where Python raises (no sample
      size for the format, or a zero byte rate). */
  function BatchTime(c: AudioConfig, samples: nat): (r: Option<real>)
    ensures r.Some? <==> BytesPerSecond(c).Some? && BytesPerSecond(c).value != 0
    ensures r.Some? ==> r.value * BytesPerSecond(c).value as real == samples as real
  {
    match BytesPerSecond(c)
    case None => None
    case Some(bps) => if bps == 0 then None else Some(samples as real / bps as real)
  }

  /** The batch duration the statistic evidently means: the sample count
      over the sample rate. `None` for a rate that is not positive. */
  function BatchSeconds(c: AudioConfig, samples: nat): (r: Option<real>)
    ensures r.Some? <==> c.sampleRate > 0
    ensures r.Some? ==> r.value * c.sampleRate as real == samples as real
  {
    if c.sampleRate > 0 then Some(Secs(samples, c.sampleRate)) else None
  }

  /** The corrected duration of a batch is exactly what appending its frames
      adds to the storage's total duration. */
  lemma {:induction false} BatchSecondsIsAppendedDuration(c: AudioConfig, lens: seq<nat>)
    requires c.sampleRate > 0
    ensures BatchSeconds(c, BatchSize(lens)) == Some(AppendedDuration(lens, c.sampleRate))
  {
    if lens != [] {
      BatchSecondsIsAppendedDuration(c, lens[1..]);
      SecsAdd(lens[0], BatchSize(lens[1..]), c.sampleRate);
    }
  }

  /** For frames of the given lengths, the statistic as written is the
      batch's real duration divided by the channel count times the sample
      size. */
  lemma BatchTimeScaled(c: AudioConfig, lens: seq<nat>)
    requires c.sampleRate > 0 && c.channels > 0 && BytesPerSample(c).Some?
    ensures BatchTime(c, BatchSize(lens))
              == Some(AppendedDuration(lens, c.sampleRate) / (c.channels * BytesPerSample(c).value) as real)
  {
    BatchSecondsIsAppendedDuration(c, lens);
    BatchTimeOverSize(c, BatchSize(lens), AppendedDuration(lens, c.sampleRate));
  }

  /** For the mono batches the source can measure, the statistic as written
      is the batch's real duration divided by the sample size: half of it
      for 16-bit audio. */
  lemma BatchTimeMono(c: AudioConfig, lens: seq<nat>)
    requires c.sampleRate > 0 && c.channels == 1 && BytesPerSample(c).Some?
    ensures BatchTime(c, BatchSize(lens))
              == Some(AppendedDuration(lens, c.sampleRate) / BytesPerSample(c).value as real)
  {
    BatchTimeScaled(c, lens);
    assert c.channels * BytesPerSample(c).value == BytesPerSample(c).value;
  }

  /** The statistic as written, for `n` samples lasting `d` seconds at the
      sample rate, is `d` over channels times size. */
  lemma BatchTimeOverSize(c: AudioConfig, n: nat, d: real)
    requires c.sampleRate > 0 && c.channels > 0 && BytesPerSample(c).Some?
    requires d == n as real / c.sampleRate as real
    ensures BatchTime(c, n) == Some(d / (c.channels * BytesPerSample(c).value) as real)
  {
    var f := c.channels * BytesPerSample(c).value;
    var bps := BytesPerSecond(c).value;
    ByteRateAsReal(c);
    assert SamplesPerSecond(c) >= c.sampleRate;
    assert bps >= c.sampleRate;
    assert BatchTime(c, n) == Some(n as real / bps as real);
    assert f > 0 by {
      assert f >= c.channels;
    }
    QuotientSplit(n as real, bps as real, c.sampleRate as real, f as real, d);
  }

  /** A quotient by `r * f` is the quotient by `r`, then by `f`. */
  lemma QuotientSplit(n: real, b: real, r: real, f: real, d: real)
    requires r > 0.0 && f > 0.0 && b == r * f && d == n / r
    ensures n / b == d / f
  {
    DivDiv(n, r, f);
  }

  /** The byte rate, as a real, is the sample rate times channels times size. */
  lemma ByteRateAsReal(c: AudioConfig)
    requires BytesPerSample(c).Some?
    ensures BytesPerSecond(c).value as real
              == c.sampleRate as real * (c.channels * BytesPerSample(c).value) as real
  {
    var b := BytesPerSample(c).value;
    MulAssoc(c.sampleRate, c.channels, b);
    CastProduct(c.sampleRate, c.channels * b);
  }

  /** Integer multiplication is associative. */
  lemma MulAssoc(x: int, y: int, z: int)
    ensures x * y * z == x * (y * z)
  {
  }

  /** The cast to `real` distributes over a product. */
  lemma CastProduct(x: int, y: int)
    ensures (x * y) as real == x as real * y as real
  {
  }

  /** Dividing by a product is dividing by each factor in turn. */
  lemma DivDiv(n: real, d: real, f: real)
    requires d > 0.0 && f > 0.0
    ensures n / (d * f) == (n / d) / f
  {
    var p := (n / d) / f;
    assert p * f == n / d;
    assert p * f * d == n;
    assert p * (d * f) == n;
  }

  /** One second of the engine's 16 kHz mono 16-bit audio is reported as
      half a second; the corrected statistic gives one second. */
  lemma BatchTimeHalved()
    ensures BatchTime(AudioConfig(16000, 1, PaInt16), BatchSize([16000])) == Some(0.5)
    ensures BatchSeconds(AudioConfig(16000, 1, PaInt16), BatchSize([16000])) == Some(1.0)
  {
    assert BatchSize([16000]) == 16000;
  }
}
