/** `AudioConfig`: sample rate, channel count and PortAudio sample format,
    with the derived byte and sample rates. */
module AudioFormat {
  import opened Wrappers

  /** PortAudio sample-format flags, as exposed by `pyaudio`. */
  const PaFloat32: int := 0x1
  const PaInt32: int := 0x2
  const PaInt24: int := 0x4
  const PaInt16: int := 0x8
  const PaInt8: int := 0x10
  const PaUInt8: int := 0x20

  datatype AudioConfig = AudioConfig(sampleRate: int, channels: int, audioFormat: int)

  /** `pyaudio.get_sample_size`: bytes per sample of a format; `None` where
      PortAudio reports the format as unsupported and `pyaudio` raises. */
  function SampleSize(format: int): (r: Option<nat>)
    ensures r.Some? <==> format in {PaFloat32, PaInt32, PaInt24, PaInt16, PaInt8, PaUInt8}
    ensures r.Some? ==> 1 <= r.value <= 4
  {
    if format == PaFloat32 || format == PaInt32 then Some(4)
    else if format == PaInt24 then Some(3)
    else if format == PaInt16 then Some(2)
    else if format == PaInt8 || format == PaUInt8 then Some(1)
    else None
  }

  /** `get_bytes_per_sample` (and its duplicate `get_sample_size_bytes`):
      the size of one sample of the configured format. */
  function BytesPerSample(c: AudioConfig): (r: Option<nat>)
    ensures r.Some? <==> c.audioFormat in {PaFloat32, PaInt32, PaInt24, PaInt16, PaInt8, PaUInt8}
    ensures r.Some? ==> 1 <= r.value <= 4
  {
    SampleSize(c.audioFormat)
  }

  /** `get_samples_per_second`: samples across all channels, with no byte
      factor; for mono audio, the sample rate itself. */
  function SamplesPerSecond(c: AudioConfig): (r: int)
    ensures c.channels == 1 ==> r == c.sampleRate
    ensures 0 <= c.sampleRate && 1 <= c.channels ==> c.sampleRate <= r
  {
    c.sampleRate * c.channels
  }

  /** `get_bytes_per_second`: defined exactly when the sample size is, and
      then the sample rate across all channels scaled by the sample size, so
      between one and four bytes per sample for non-negative rates. */
  function BytesPerSecond(c: AudioConfig): (r: Option<int>)
    ensures r.Some? <==> BytesPerSample(c).Some?
    ensures r.Some? ==> r.value == SamplesPerSecond(c) * BytesPerSample(c).value
    ensures r.Some? && 0 <= c.sampleRate && 0 <= c.channels ==>
              SamplesPerSecond(c) <= r.value <= 4 * SamplesPerSecond(c)
  {
    match BytesPerSample(c)
    case None => None
    case Some(b) =>
      var spc := c.sampleRate * c.channels;
      assert c.sampleRate * b * c.channels == spc * b;
      assert 0 <= spc ==> spc <= spc * b <= 4 * spc by {
        if 0 <= spc {
          MulBounds(spc, b);
        }
      }
      Some(c.sampleRate * b * c.channels)
  }

  /** A non-negative count times a factor between 1 and 4 lies between the
      count and four times it. */
  lemma MulBounds(x: int, b: int)
    requires 0 <= x && 1 <= b <= 4
    ensures x <= x * b <= 4 * x
  {
  }

  /** The configuration every capture in the engine uses: 16 kHz mono 16-bit
      audio is 32000 bytes per second. */
  lemma Int16MonoRate()
    ensures BytesPerSecond(AudioConfig(16000, 1, PaInt16)) == Some(32000)
    ensures SamplesPerSecond(AudioConfig(16000, 1, PaInt16)) == 16000
  {
  }
}
