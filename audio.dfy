/** `AudioChunk` and `AudioStorage`: a chunked, time-indexed store of mono
    samples. Samples are opaque values of type `S`; times are seconds. */
module Audio {
  import opened Timebase
  import opened AudioFormat

  /** A bounded run of samples starting at `startTime` seconds. */
  class AudioChunk<S> {
    const config: AudioConfig
    const startTime: real
    var samples: seq<S>
    var numSamples: nat
    var endTime: real

    /** The stored sample count and end time agree with the samples. */
    ghost predicate Valid()
      reads this
    {
      && config.sampleRate > 0
      && numSamples == |samples|
      && endTime == startTime + Secs(|samples|, config.sampleRate)
    }

    constructor (config: AudioConfig, defaultData: seq<S>, startTime: real)
      requires config.sampleRate > 0
      ensures Valid()
      ensures this.config == config && this.startTime == startTime && samples == defaultData
    {
      this.config := config;
      this.startTime := startTime;
      samples := defaultData;
      numSamples := |defaultData|;
      endTime := startTime + Secs(|defaultData|, config.sampleRate);
    }

    /** `append_audio_data`: an empty frame is ignored, otherwise its samples
        go to the end and the end time moves with them. */
    method AppendAudioData(data: seq<S>)
      requires Valid()
      modifies this
      ensures Valid()
      ensures samples == old(samples) + data
      ensures data == [] ==> unchanged(this)
    {
      if |data| == 0 {
        return;
      }
      samples := samples + data;
      numSamples := |samples|;
      endTime := startTime + Secs(numSamples, config.sampleRate);
    }

    /** `get_audio_duration`. */
    function Duration(): (d: real)
      reads this
      requires Valid()
      ensures d == endTime - startTime
      ensures 0.0 <= d
    {
      Secs(numSamples, config.sampleRate)
    }

    /** `get_audio_from_time`: the samples of this chunk inside
        `[start, end]` (`end == -1` meaning the chunk's end), or nothing when
        the request misses the chunk. */
    function GetAudioFromTime(start: real, end: real): (r: seq<S>)
      reads this
      requires Valid()
      ensures (start > endTime || (if end == -1.0 then endTime else end) < startTime) ==> r == []
      ensures exists i, j :: 0 <= i <= j <= |samples| && r == samples[i..j]
    {
      var end := if end == -1.0 then endTime else end;
      if start > endTime || end < startTime then
        assert [] == samples[0..0];
        []
      else
        var start := if start > startTime then start else startTime;
        var end := if end < endTime then end else endTime;
        var startSample := SampleIndex(start, startTime, config.sampleRate);
        var endSample := SampleIndex(end, startTime, config.sampleRate);
        var startSample := Clamp(startSample, 0, numSamples);
        var endSample := Clamp(endSample, startSample, numSamples);
        samples[startSample..endSample]
    }
  }

  /** A chunk whose first sample sits at index `offset` of the whole
      timeline returns exactly the samples whose timeline index lies in
      `[IndexAt(start), IndexAt(end))`, in chunk-local terms. */
  lemma AlignedSlice<S>(c: AudioChunk<S>, offset: int, start: real, end: real)
    requires c.Valid() && c.startTime == Secs(offset, c.config.sampleRate) && end != -1.0
    ensures var n, rate := |c.samples|, c.config.sampleRate;
            var lo := Clamp(IndexAt(start, rate) - offset, 0, n);
            c.GetAudioFromTime(start, end) == c.samples[lo..Clamp(IndexAt(end, rate) - offset, lo, n)]
  {
    var n, rate := |c.samples|, c.config.sampleRate;
    SecsAdd(offset, n, rate);
    var lo := Clamp(IndexAt(start, rate) - offset, 0, n);
    if start > c.endTime {
      IndexAtLeast(start, offset + n, rate);
    } else if end < c.startTime {
      IndexAtMost(end, offset, rate);
    } else {
      StartIndex(offset, n, rate, start);
      EndIndex(offset, n, rate, end, lo);
    }
  }

  /** A slice of a slice is a slice of the whole. */
  lemma SliceOfSlice<T>(all: seq<T>, a: int, b: int, i: int, j: int)
    requires 0 <= a <= b <= |all| && 0 <= i <= j <= b - a
    ensures all[a..b][i..j] == all[a + i..a + j]
  {
    forall k | 0 <= k < j - i
      ensures all[a..b][i..j][k] == all[a + i..a + j][k]
    {
      assert all[a..b][i..j][k] == all[a..b][i + k] == all[a + i + k];
    }
  }

  /** Two adjacent slices make up the slice across both. */
  lemma AdjacentSlices<T>(all: seq<T>, x: int, y: int, z: int)
    requires 0 <= x <= y <= z <= |all|
    ensures all[x..y] + all[y..z] == all[x..z]
  {
    forall k | 0 <= k < z - x
      ensures (all[x..y] + all[y..z])[k] == all[x..z][k]
    {
      if k < y - x {
        assert (all[x..y] + all[y..z])[k] == all[x..y][k];
      } else {
        assert (all[x..y] + all[y..z])[k] == all[y..z][k - (y - x)];
      }
    }
  }

  /** Consecutive pieces of one sequence: the part of `[fs, fe)` below `a`,
      followed by the part inside `[a, b)`, is the part below `b`. */
  lemma SliceStep<T>(all: seq<T>, fs: int, fe: int, a: int, b: int)
    requires 0 <= fs <= fe && 0 <= a <= b <= |all|
    ensures var lo := Clamp(fs - a, 0, b - a);
            all[Min(fs, a)..Min(fe, a)] + all[a..b][lo..Clamp(fe - a, lo, b - a)]
              == all[Min(fs, b)..Min(fe, b)]
  {
    var lo := Clamp(fs - a, 0, b - a);
    var hi := Clamp(fe - a, lo, b - a);
    if fe <= a {
      assert lo == 0 && hi == 0;
      assert all[a..b][lo..hi] == [];
    } else if b <= fs {
      assert lo == b - a && hi == b - a;
      assert all[a..b][lo..hi] == [];
    } else if fs <= a {
      var e := Min(fe, b);
      assert lo == 0 && hi == e - a;
      SliceOfSlice(all, a, b, lo, hi);
      AdjacentSlices(all, fs, a, e);
    } else {
      var e := Min(fe, b);
      assert lo == fs - a && hi == e - a;
      SliceOfSlice(all, a, b, lo, hi);
      assert all[a..a] == [];
    }
  }

  /** One step of a range query: the part of the window below a chunk's
      first sample, followed by what the chunk returns, is the part of the
      window below the chunk's end. */
  lemma ChunkStep<S>(c: AudioChunk<S>, all: seq<S>, a: nat, b: int, start: real, end: real)
    requires c.Valid() && c.startTime == Secs(a, c.config.sampleRate) && end != -1.0
    requires a <= b <= |all| && c.samples == all[a..b]
    requires 0 <= IndexAt(start, c.config.sampleRate) <= IndexAt(end, c.config.sampleRate)
    ensures var fs, fe := IndexAt(start, c.config.sampleRate), IndexAt(end, c.config.sampleRate);
            all[Min(fs, a)..Min(fe, a)] + c.GetAudioFromTime(start, end) == all[Min(fs, b)..Min(fe, b)]
  {
    AlignedSlice(c, a, start, end);
    SliceStep(all, IndexAt(start, c.config.sampleRate), IndexAt(end, c.config.sampleRate), a, b);
  }

  /** Where part `k` of a tiling starts; the length of the whole past the last part. */
  function Bound(offsets: seq<nat>, total: nat, k: int): int {
    if 0 <= k < |offsets| then offsets[k] else total
  }

  /** Part `k` is the run of `all` from `offsets[k]` up to where the next
      part starts. */
  ghost predicate Tile<T>(parts: seq<seq<T>>, offsets: seq<nat>, all: seq<T>, k: int) {
    && 0 <= k < |parts| && |offsets| == |parts|
    && offsets[k] + |parts[k]| == Bound(offsets, |all|, k + 1) <= |all|
    && parts[k] == all[offsets[k]..Bound(offsets, |all|, k + 1)]
  }

  /** `parts`, laid end to end from `offsets[0] == 0`, make up `all` exactly. */
  ghost predicate Tiling<T>(parts: seq<seq<T>>, offsets: seq<nat>, all: seq<T>) {
    && |parts| == |offsets|
    && (|parts| == 0 ==> all == [])
    && (|parts| > 0 ==> offsets[0] == 0)
    && (forall k {:trigger Tile(parts, offsets, all, k)} :: 0 <= k < |parts| ==> Tile(parts, offsets, all, k))
  }

  /** An empty part opened at the end keeps the tiling. */
  lemma TilingOpen<T>(parts: seq<seq<T>>, offsets: seq<nat>, all: seq<T>)
    requires Tiling(parts, offsets, all)
    ensures Tiling(parts + [[]], offsets + [|all|], all)
  {
    var parts', offsets' := parts + [[]], offsets + [|all|];
    forall k | 0 <= k < |parts'|
      ensures Tile(parts', offsets', all, k)
    {
      if k < |parts| {
        assert Tile(parts, offsets, all, k);
        assert Bound(offsets', |all|, k + 1) == Bound(offsets, |all|, k + 1);
      }
    }
  }

  /** Samples appended to the last part, and to the whole, keep the tiling. */
  lemma TilingAppend<T>(parts: seq<seq<T>>, offsets: seq<nat>, all: seq<T>, frame: seq<T>)
    requires Tiling(parts, offsets, all) && parts != []
    ensures Tiling(parts[|parts| - 1 := parts[|parts| - 1] + frame], offsets, all + frame)
  {
    var last := |parts| - 1;
    var parts', all' := parts[last := parts[last] + frame], all + frame;
    forall k | 0 <= k < |parts'|
      ensures Tile(parts', offsets, all', k)
    {
      assert Tile(parts, offsets, all, k);
      if k < last {
        assert all'[offsets[k]..offsets[k + 1]] == all[offsets[k]..offsets[k + 1]];
      } else {
        assert all'[offsets[k]..|all'|] == all[offsets[k]..] + frame;
      }
    }
  }

  /** What a range query over the samples `all` at `rate` samples per
      second returns: the request clamped to the buffer's duration
      (`end == -1` meaning its end) and to time 0, then the samples whose
      index lies in `[Floor(start * rate), Floor(end * rate))`. */
  function WindowOf<S>(all: seq<S>, rate: int, start: real, end: real): (r: seq<S>)
    requires rate > 0
    ensures end != -1.0 && end <= start ==> r == []
  {
    var total := Secs(|all|, rate);
    var end := if end == -1.0 then total else end;
    var start := if start < 0.0 then 0.0 else start;
    var end := if end > total then total else end;
    if start >= end then []
    else
      IndexBounds(start, end, |all|, rate);
      all[IndexAt(start, rate)..IndexAt(end, rate)]
  }

  /** The sample indices of a request inside `[0, Secs(n)]` lie inside `[0, n]`. */
  lemma IndexBounds(start: real, end: real, n: nat, rate: int)
    requires rate > 0 && 0.0 <= start <= end <= Secs(n, rate)
    ensures 0 <= IndexAt(start, rate) <= IndexAt(end, rate) <= n
  {
    IndexAtLeast(start, 0, rate);
    IndexMono(start, end, rate);
    IndexAtMost(end, n, rate);
  }

  /** A request already inside `[0, Secs(|all|)]` is cut at the indices of
      its two ends, with no clamping. */
  lemma InnerWindow<S>(all: seq<S>, rate: int, start: real, end: real)
    requires rate > 0 && 0.0 <= start < end <= Secs(|all|, rate)
    ensures 0 <= IndexAt(start, rate) <= IndexAt(end, rate) <= |all|
    ensures WindowOf(all, rate, start, end) == all[IndexAt(start, rate)..IndexAt(end, rate)]
  {
    IndexBounds(start, end, |all|, rate);
  }

  /** A request that covers the whole buffer returns every sample in order. */
  lemma WholeWindow<S>(all: seq<S>, rate: int, start: real, end: real)
    requires rate > 0 && start <= 0.0 && (end == -1.0 || end >= Secs(|all|, rate))
    ensures WindowOf(all, rate, start, end) == all
  {
    IndexOfSecs(|all|, rate);
    IndexOfSecs(0, rate);
    if Secs(|all|, rate) <= 0.0 {
      IndexAtMost(Secs(|all|, rate), 0, rate);
    }
  }

  /** Adjacent windows stitch together: splitting a request at any point
      and concatenating the two answers gives the answer to the whole. */
  lemma WindowsStitch<S>(all: seq<S>, rate: int, a: real, b: real, c: real)
    requires rate > 0 && 0.0 <= a <= b <= c
    ensures WindowOf(all, rate, a, b) + WindowOf(all, rate, b, c) == WindowOf(all, rate, a, c)
  {
    var t := Secs(|all|, rate);
    var b' := if b > t then t else b;
    var c' := if c > t then t else c;
    if a < b' && b' < c' {
      IndexBounds(a, b', |all|, rate);
      IndexBounds(b', c', |all|, rate);
      assert all[IndexAt(a, rate)..IndexAt(b', rate)] + all[IndexAt(b', rate)..IndexAt(c', rate)]
          == all[IndexAt(a, rate)..IndexAt(c', rate)];
    }
  }

  /** Three seconds of 16 kHz audio: the request `[0.5, 2.5)` returns the
      two seconds of samples from index 8000 up to 40000. */
  lemma HalfSecondWindow<S>(all: seq<S>)
    requires |all| == 48000
    ensures WindowOf(all, 16000, 0.5, 2.5) == all[8000..40000]
    ensures |WindowOf(all, 16000, 0.5, 2.5)| == 32000
  {
    assert IndexAt(0.5, 16000) == 8000 && IndexAt(2.5, 16000) == 40000;
  }

  /** Chunk `c` is valid, has the storage's format, holds `part` and starts
      at the time of sample `offset`. */
  ghost predicate Placed<S>(c: AudioChunk<S>, config: AudioConfig, part: seq<S>, offset: nat)
    reads c
  {
    && c.Valid() && c.config == config && c.samples == part
    && c.startTime == Secs(offset, config.sampleRate)
  }

  /** The chunked store. `Contents` is every sample appended since creation
      or the last reset, in order; chunk `k` holds the run of `Contents`
      starting at `Offsets[k]`. */
  class AudioStorage<S> {
    const config: AudioConfig
    const maxChunkDuration: real
    var totalDuration: real
    var chunks: seq<AudioChunk<S>>
    ghost var Contents: seq<S>
    ghost var Parts: seq<seq<S>>
    ghost var Offsets: seq<nat>

    /** Chunks are valid, share the storage's format and start at the time
        of their first sample; the last one (the only one appended to) is
        distinct from the others; their samples tile `Contents`; all but the
        last have reached the maximum duration; and the running total is the
        duration of `Contents`. */
    ghost predicate Valid()
      reads this, chunks
    {
      && config.sampleRate > 0
      && |Offsets| == |Parts| == |chunks|
      && (forall k {:trigger Placed(chunks[k], config, Parts[k], Offsets[k])} :: 0 <= k < |chunks| ==>
            Placed(chunks[k], config, Parts[k], Offsets[k]))
      && (chunks != [] ==> Placed(chunks[|chunks| - 1], config, Parts[|chunks| - 1], Offsets[|chunks| - 1]))
      && (forall k :: 0 <= k < |chunks| - 1 ==> chunks[k] != chunks[|chunks| - 1])
      && Tiling(Parts, Offsets, Contents)
      && (forall k :: 0 <= k < |Parts| - 1 ==> Secs(|Parts[k]|, config.sampleRate) >= maxChunkDuration)
      && totalDuration == Secs(|Contents|, config.sampleRate)
    }

    /** Index in `Contents` where chunk `k` starts; `|Contents|` past the last chunk. */
    ghost function Boundary(k: int): int
      reads this
    {
      Bound(Offsets, |Contents|, k)
    }

    /** What the invariant says about chunk `i`. */
    lemma ChunkAt(i: int)
      requires Valid() && 0 <= i < |chunks|
      ensures chunks[i].Valid() && chunks[i].config == config
      ensures chunks[i].startTime == Secs(Offsets[i], config.sampleRate)
      ensures Offsets[i] + |chunks[i].samples| == Boundary(i + 1) <= |Contents|
      ensures chunks[i].samples == Contents[Offsets[i]..Boundary(i + 1)]
    {
      assert Placed(chunks[i], config, Parts[i], Offsets[i]);
      assert Tile(Parts, Offsets, Contents, i);
    }

    constructor (config: AudioConfig, maxChunkDuration: real)
      requires config.sampleRate > 0
      ensures Valid() && fresh(this)
      ensures this.config == config && this.maxChunkDuration == maxChunkDuration
      ensures chunks == [] && Contents == [] && totalDuration == 0.0
    {
      this.config := config;
      this.maxChunkDuration := maxChunkDuration;
      totalDuration := 0.0;
      chunks := [];
      Contents := [];
      Parts := [];
      Offsets := [];
    }

    /** `append_audio`: an empty frame changes nothing; otherwise the frame
        goes to the end of the last chunk, opening a first chunk at time 0
        when there is none and a new chunk at the current total duration when
        the last one has reached the maximum. */
    method AppendAudio(frame: seq<S>)
      requires Valid()
      modifies this, chunks
      ensures Valid()
      ensures Contents == old(Contents) + frame
      ensures totalDuration == old(totalDuration) + Secs(|frame|, config.sampleRate)
      ensures frame == [] ==> unchanged(this) && unchanged(old(chunks))
      ensures |old(chunks)| <= |chunks|
      ensures forall k :: 0 <= k < |old(chunks)| - 1 ==>
                chunks[k] == old(chunks[k]) && chunks[k].samples == old(chunks[k].samples)
      ensures (frame != [] && old(chunks) != [] && old(chunks[|chunks| - 1].Duration()) < maxChunkDuration)
                ==> chunks == old(chunks)
                    && chunks[|chunks| - 1].samples == old(chunks[|chunks| - 1].samples) + frame
      ensures (frame != [] && old(chunks) != [] && old(chunks[|chunks| - 1].Duration()) >= maxChunkDuration)
                ==> && |chunks| == |old(chunks)| + 1 && chunks[..|old(chunks)|] == old(chunks)
                    && fresh(chunks[|chunks| - 1])
                    && chunks[|chunks| - 1].startTime == old(totalDuration)
                    && chunks[|chunks| - 1].samples == frame
                    && chunks[|chunks| - 2].samples == old(chunks[|chunks| - 1].samples)
      ensures (frame != [] && old(chunks) == [])
                ==> && chunks[0].startTime == 0.0 && fresh(chunks[0])
                    && |chunks| == (if maxChunkDuration <= 0.0 then 2 else 1)
                    && chunks[|chunks| - 1].samples == frame
    {
      if |frame| == 0 {
        return;
      }
      if |chunks| == 0 {
        OpenChunk();
      }
      if chunks[|chunks| - 1].Duration() >= maxChunkDuration {
        OpenChunk();
      }
      AppendToLast(frame);
    }

    /** Opens an empty chunk at the current total duration, once the last
        chunk (if any) has reached the maximum. */
    method OpenChunk()
      requires Valid()
      requires chunks == [] || chunks[|chunks| - 1].Duration() >= maxChunkDuration
      modifies this
      ensures Valid()
      ensures Contents == old(Contents) && totalDuration == old(totalDuration)
      ensures |chunks| == |old(chunks)| + 1 && chunks[..|old(chunks)|] == old(chunks)
      ensures fresh(chunks[|chunks| - 1]) && chunks[|chunks| - 1].samples == []
      ensures chunks[|chunks| - 1].startTime == totalDuration
    {
      var next := new AudioChunk(config, [], totalDuration);
      chunks := chunks + [next];
      TilingOpen(Parts, Offsets, Contents);
      Parts := Parts + [[]];
      Offsets := Offsets + [|Contents|];
      forall k | 0 <= k < |chunks| - 1
        ensures Placed(chunks[k], config, Parts[k], Offsets[k])
      {
        assert old(Placed(chunks[k], config, Parts[k], Offsets[k]));
      }
    }

    /** Puts a non-empty frame at the end of the last chunk. */
    method AppendToLast(frame: seq<S>)
      requires Valid() && chunks != []
      modifies this, chunks[|chunks| - 1]
      ensures Valid()
      ensures Contents == old(Contents) + frame && chunks == old(chunks)
      ensures chunks[|chunks| - 1].samples == old(chunks[|chunks| - 1].samples) + frame
      ensures forall k :: 0 <= k < |chunks| - 1 ==> chunks[k].samples == old(chunks[k].samples)
      ensures totalDuration == old(totalDuration) + Secs(|frame|, config.sampleRate)
    {
      var rate := config.sampleRate;
      var last := |chunks| - 1;
      var current := chunks[last];
      ghost var n := |Contents|;
      SecsAdd(n, |frame|, rate);
      TilingAppend(Parts, Offsets, Contents, frame);
      current.AppendAudioData(frame);
      Parts := Parts[last := Parts[last] + frame];
      Contents := Contents + frame;
      totalDuration := totalDuration + Secs(|frame|, rate);
      assert |Contents| == n + |frame|;
      forall k | 0 <= k < last
        ensures Placed(chunks[k], config, Parts[k], Offsets[k])
      {
        assert old(Placed(chunks[k], config, Parts[k], Offsets[k]));
      }
    }

    /** `get_audio_range_seconds`: the request is clamped to
        `[0, totalDuration]` (`end == -1` meaning the end of the buffer) and
        the per-chunk pieces of what is left, concatenated in chunk order,
        are exactly the window. */
    method GetAudioRangeSeconds(startSec: real, endSec: real) returns (r: seq<S>)
      requires Valid()
      ensures r == WindowOf(Contents, config.sampleRate, startSec, endSec)
    {
      var start, end := startSec, endSec;
      if end == -1.0 {
        end := totalDuration;
      }
      if start < 0.0 {
        start := 0.0;
      }
      if end > totalDuration {
        end := totalDuration;
      }
      if start >= end {
        return [];
      }
      r := CollectPieces(start, end);
    }

    /** The loop of `get_audio_range_seconds` over a clamped, non-empty
        request: every chunk's piece, in chunk order, skipping empty ones. */
    method CollectPieces(start: real, end: real) returns (r: seq<S>)
      requires Valid() && 0.0 <= start < end <= totalDuration
      ensures r == WindowOf(Contents, config.sampleRate, start, end)
    {
      ghost var fs, fe := IndexAt(start, config.sampleRate), IndexAt(end, config.sampleRate);
      IndexBounds(start, end, |Contents|, config.sampleRate);
      r := [];
      var i := 0;
      while i < |chunks|
        invariant 0 <= i <= |chunks| && 0 <= fs <= fe <= |Contents|
        invariant r == Sofar(fs, fe, i)
      {
        PieceExtends(i, start, end, fs, fe);
        var piece := chunks[i].GetAudioFromTime(start, end);
        if |piece| > 0 {
          r := r + piece;
        }
        i := i + 1;
      }
      CollectedIsWindow(start, end);
    }

    /** Once every chunk has been visited, what the loop of `CollectPieces`
        has gathered is the window of the request. */
    lemma CollectedIsWindow(start: real, end: real)
      requires Valid() && 0.0 <= start < end <= totalDuration
      ensures 0 <= IndexAt(start, config.sampleRate) <= IndexAt(end, config.sampleRate) <= |Contents|
      ensures Sofar(IndexAt(start, config.sampleRate), IndexAt(end, config.sampleRate), |chunks|)
              == WindowOf(Contents, config.sampleRate, start, end)
    {
      var fs, fe := IndexAt(start, config.sampleRate), IndexAt(end, config.sampleRate);
      IndexBounds(start, end, |Contents|, config.sampleRate);
      SofarAll(fs, fe);
      InnerWindow(Contents, config.sampleRate, start, end);
    }

    /** The part of the samples with index in `[fs, fe)` that lies below chunk `i`. */
    ghost function Sofar(fs: int, fe: int, i: int): seq<S>
      reads this
      requires 0 <= fs <= fe <= |Contents|
    {
      var b := Min(Boundary(i), |Contents|);
      Contents[Min(fs, b)..Min(fe, b)]
    }

    /** Boundaries lie inside `Contents`. */
    lemma BoundaryRange(i: int)
      requires Valid() && 0 <= i <= |chunks|
      ensures 0 <= Boundary(i) <= |Contents|
    {
      if i < |chunks| {
        ChunkAt(i);
      }
    }

    /** Past the last chunk, the part below is everything in `[fs, fe)`. */
    lemma SofarAll(fs: int, fe: int)
      requires Valid() && 0 <= fs <= fe <= |Contents|
      ensures Sofar(fs, fe, |chunks|) == Contents[fs..fe]
    {
    }

    /** What chunk `i` returns for a clamped request extends the part of the
        window below the chunk's first sample to the part below its end. */
    lemma PieceExtends(i: int, start: real, end: real, fs: int, fe: int)
      requires Valid() && 0 <= i < |chunks| && 0.0 <= start < end <= totalDuration
      requires fs == IndexAt(start, config.sampleRate) && fe == IndexAt(end, config.sampleRate)
      ensures chunks[i].Valid() && 0 <= fs <= fe <= |Contents|
      ensures Sofar(fs, fe, i) + chunks[i].GetAudioFromTime(start, end) == Sofar(fs, fe, i + 1)
    {
      IndexBounds(start, end, |Contents|, config.sampleRate);
      BoundaryRange(i);
      BoundaryRange(i + 1);
      ChunkAt(i);
      ChunkStep(chunks[i], Contents, Boundary(i), Boundary(i + 1), start, end);
    }

    /** `get_audio_range_millis`: the same query with millisecond bounds;
        an end of `-1` means the end of the buffer. */
    method GetAudioRangeMillis(startMs: int, endMs: int) returns (r: seq<S>)
      requires Valid()
      ensures r == WindowOf(Contents, config.sampleRate, MillisToSeconds(startMs), if endMs != -1 then MillisToSeconds(endMs) else -1.0)
    {
      var startSec := MillisToSeconds(startMs);
      var endSec := if endMs != -1 then MillisToSeconds(endMs) else -1.0;
      r := GetAudioRangeSeconds(startSec, endSec);
    }

    /** `get_total_duration_millis`: the stored sample count in whole
        milliseconds, rounded down. */
    function TotalDurationMillis(): (ms: int)
      reads this, chunks
      requires Valid()
      ensures ms == |Contents| * 1000 / config.sampleRate
    {
      SecsToMillisIsDivision(|Contents|, config.sampleRate);
      SecondsToMillis(totalDuration)
    }

    /** `reset`: drop every chunk and zero the duration. */
    method Reset()
      requires Valid()
      modifies this
      ensures Valid()
      ensures chunks == [] && Contents == [] && totalDuration == 0.0
    {
      chunks := [];
      totalDuration := 0.0;
      Contents := [];
      Parts := [];
      Offsets := [];
    }

    /** Chunks are contiguous in time: the first starts at 0, each starts
        where the previous ends, and the last ends at the total duration. */
    lemma ChunksContiguous()
      requires Valid()
      ensures |chunks| > 0 ==> chunks[0].startTime == 0.0
      ensures forall k :: 0 <= k < |chunks| - 1 ==> chunks[k + 1].startTime == chunks[k].endTime
      ensures |chunks| > 0 ==> chunks[|chunks| - 1].endTime == totalDuration
    {
      var rate := config.sampleRate;
      forall k | 0 <= k < |chunks| - 1
        ensures chunks[k + 1].startTime == chunks[k].endTime
      {
        var c := chunks[k];
        ChunkAt(k);
        ChunkAt(k + 1);
        SecsAdd(Offsets[k], |c.samples|, rate);
      }
      if |chunks| > 0 {
        ChunkAt(0);
        var k := |chunks| - 1;
        var c := chunks[k];
        ChunkAt(k);
        assert Offsets[k] + |c.samples| == |Contents|;
        SecsAdd(Offsets[k], |c.samples|, rate);
      }
    }
  }

  /** Three one-second appends of 16 kHz audio into a store whose chunks
      hold at most two seconds: the first two frames share a chunk covering
      `[0, 2)`, the third opens a second chunk covering `[2, 3)`, and the
      request `[0.5, 2.5)` crosses that boundary, returning the 32000
      samples from index 8000 on. */
  method TwoChunkQuery<S>(a: seq<S>, b: seq<S>, c: seq<S>) returns (r: seq<S>, store: AudioStorage<S>)
    requires |a| == |b| == |c| == 16000
    ensures store.Valid() && |store.chunks| == 2
    ensures store.chunks[0].startTime == 0.0 && store.chunks[0].endTime == 2.0
    ensures store.chunks[1].startTime == 2.0 && store.chunks[1].endTime == 3.0
    ensures r == (a + b + c)[8000..40000] && |r| == 32000
  {
    store := new AudioStorage<S>(AudioConfig(16000, 1, PaInt16), 2.0);
    FillFirstChunk(store, a, b);
    store.AppendAudio(c);
    assert |store.chunks| == 2;
    store.ChunkAt(0);
    store.ChunkAt(1);
    assert store.chunks[0].samples == a + b;
    assert store.chunks[1].samples == c;
    assert Secs(32000, 16000) == 2.0 && Secs(16000, 16000) == 1.0;
    assert store.Contents == a + b + c;
    r := store.GetAudioRangeSeconds(0.5, 2.5);
    HalfSecondWindow(a + b + c);
  }

  /** The first two seconds of `TwoChunkQuery`: two one-second appends into
      an empty store with two-second chunks fill its first chunk exactly. */
  method FillFirstChunk<S>(store: AudioStorage<S>, a: seq<S>, b: seq<S>)
    requires store.Valid() && store.chunks == [] && store.Contents == []
    requires store.config.sampleRate == 16000 && store.maxChunkDuration == 2.0
    requires |a| == |b| == 16000
    modifies store
    ensures store.Valid() && |store.chunks| == 1 && store.Contents == a + b
    ensures store.chunks[0].samples == a + b && store.chunks[0].Duration() >= 2.0
    ensures fresh(store.chunks[0])
  {
    store.AppendAudio(a);
    assert fresh(store.chunks[0]) && store.chunks == [store.chunks[0]];
    store.ChunkAt(0);
    assert store.chunks[0].samples == a;
    assert store.chunks[0].Duration() == Secs(16000, 16000) == 1.0;
    store.AppendAudio(b);
    store.ChunkAt(0);
    assert store.chunks[0].Duration() == Secs(32000, 16000) == 2.0;
  }
}
