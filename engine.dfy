/** `WhisperCore`: the incremental transcriber over an `AudioStorage`. The
    recognizer (the whisper model behind `transcribe_audio`, with times
    already in milliseconds) and the clock are parameters. */
module Engine {
  import opened Wrappers
  import opened Text
  import opened Timebase
  import opened Audio
  import opened Transcript

  /** Moves every recognizer segment by `offset` milliseconds and strips
      its text, one segment at a time. */
  method ShiftResults(raw: seq<Segment>, offset: int) returns (results: seq<Segment>)
    ensures results == ShiftAll(raw, offset)
  {
    results := raw;
    var i := 0;
    while i < |results|
      invariant 0 <= i <= |results| == |raw|
      invariant forall k :: 0 <= k < i ==> results[k] == Shift(raw[k], offset)
      invariant forall k :: i <= k < |results| ==> results[k] == raw[k]
    {
      var g := results[i];
      results := results[i := Segment(g.t0 + offset, g.t1 + offset, Strip(g.text))];
      i := i + 1;
    }
  }

  /** The merge step of `update_stream` on a copy of the history: the tail
      entry takes the first result, re-stamped with `now` only when its
      stripped text changed, and the other results are appended in order,
      each stamped `now`. */
  method MergeResults(history: seq<Entry>, results: seq<Segment>, now: real) returns (merged: seq<Entry>)
    requires history != [] && results != []
    ensures merged == Merge(history, results, now)
  {
    var n := |history| - 1;
    var oldText := history[n].segment.text;
    var newText := results[0].text;
    merged := history[n := history[n].(segment := results[0])];
    if Strip(oldText) != Strip(newText) {
      merged := merged[n := merged[n].(timestamp := now)];
    }
    ghost var mid := merged;
    assert mid == history[..n] + [mid[n]];
    var j := 1;
    while j < |results|
      invariant 1 <= j <= |results|
      invariant merged == mid + Stamped(results[1..j], now)
    {
      StampedSnoc(results, j, now);
      merged := merged + [Entry(now, results[j])];
      j := j + 1;
    }
    assert results[1..j] == results[1..];
    MergeParts(history, results, now, mid[n]);
  }

  class WhisperCore<S> {
    const storage: AudioStorage<S>
    var history: seq<Entry>
    var activity: Activity

    ghost predicate Valid()
      reads this, storage, storage.chunks
    {
      storage.Valid()
    }

    constructor (storage: AudioStorage<S>, now: real)
      requires storage.Valid()
      ensures Valid() && this.storage == storage
      ensures history == [] && activity == Activity(now, None)
    {
      this.storage := storage;
      history := [];
      activity := Activity(now, None);
    }

    /** `update_stream`: seed an empty history, fetch the audio from the
        window start to the end of the buffer, and when that audio and the
        recognizer's answer are both non-empty, fold the shifted answer into
        the history and the activity tracker. `now` is the clock reading
        every `time.time()` call of the cycle sees. */
    method UpdateStream(now: real, recognize: seq<S> -> seq<Segment>)
      requires Valid()
      modifies this
      ensures Valid()
      ensures var h := Seeded(old(history), now);
              var clip := WindowOf(old(storage.Contents), storage.config.sampleRate, MillisToSeconds(StartMillis(h)), -1.0);
              State(history, activity)
                == if clip == [] then State(h, old(activity)) else Advance(h, old(activity), recognize(clip), now)
    {
      // window start
      var startMillis := 0;
      if |history| == 0 {
        history := [Entry(now, Placeholder)];
      } else if |history| > 1 {
        startMillis := history[|history| - 1].segment.t0;
      }

      // fetch, then recognize and merge
      var clip := storage.GetAudioRangeMillis(startMillis, -1);
      ProcessClip(startMillis, clip, recognize, now);
    }

    /** The rest of `update_stream` once the clip is fetched: nothing more
        when the clip or the recognizer's answer is empty; otherwise the
        answer is shifted into stream time, the activity tracker is updated
        from its last phrase, and it is merged into the history. */
    method ProcessClip(startMillis: int, clip: seq<S>, recognize: seq<S> -> seq<Segment>, now: real)
      requires history != [] && startMillis == StartMillis(history)
      modifies this
      ensures State(history, activity)
                == if clip == [] then State(old(history), old(activity))
                   else Advance(old(history), old(activity), recognize(clip), now)
    {
      if |clip| == 0 {
        return;
      }
      var raw := recognize(clip);
      if |raw| == 0 {
        return;
      }

      // shift every segment into stream time
      var results := ShiftResults(raw, startMillis);

      // activity tracking
      var last := results[|results| - 1].text;
      ghost var h, a := history, activity;
      if activity.text.Some? && activity.text.value != last {
        activity := Activity(now, Some(last));
      }
      if activity.text.None? || activity.text.value == "" {
        activity := Activity(now, Some(last));
      }

      // merge into the history
      history := MergeResults(history, results, now);
      AdvanceSteps(h, a, raw, now, startMillis, results, activity, history);
    }

    /** `reset_stream` (without a save): forget the history and every stored
        sample, and restart the activity tracker at `now` with no text. */
    method ResetStream(now: real)
      requires Valid()
      modifies this, storage
      ensures Valid()
      ensures history == [] && activity == Activity(now, None)
      ensures storage.chunks == [] && storage.Contents == [] && storage.totalDuration == 0.0
    {
      history := [];
      storage.Reset();
      activity := Activity(now, None);
    }

    /** `has_new_phrases`: whether the last phrase changed less than
        `timeout` seconds before `now`. */
    method HasNewPhrases(now: real, timeout: real) returns (b: bool)
      ensures b <==> Transcript.HasNewPhrases(activity, now, timeout)
    {
      b := now - activity.lastTime < timeout;
    }
  }
}
