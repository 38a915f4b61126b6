/** The transcript state of the streaming engine, as values: the history of
    `(timestamp, segment)` records, the activity tracker, and what one
    `update_stream` cycle does to them once the recognizer has answered. */
module Transcript {
  import opened Wrappers
  import opened Text

  /** A recognized phrase: start and end in milliseconds, and its text. */
  datatype Segment = Segment(t0: int, t1: int, text: string)

  /** `WhisperSegmentChunk`: a segment and the time it last changed. */
  datatype Entry = Entry(timestamp: real, segment: Segment)

  /** `_last_activity`: when the last phrase changed, and its text (`None`
      before the first phrase since creation or reset). */
  datatype Activity = Activity(lastTime: real, text: Option<string>)

  /** The engine's transcript state. */
  datatype State = State(history: seq<Entry>, activity: Activity)

  /** The empty segment seeded into an empty history. */
  const Placeholder: Segment := Segment(0, 0, "")

  /** The history an update cycle works on: an empty history gets the
      placeholder, stamped with the cycle's clock reading. */
  function Seeded(h: seq<Entry>, now: real): seq<Entry> {
    if h == [] then [Entry(now, Placeholder)] else h
  }

  /** Start of the reprocessing window in milliseconds: the start of the
      tail segment once there is more than one entry, otherwise 0. */
  function StartMillis(h: seq<Entry>): int {
    if |h| > 1 then h[|h| - 1].segment.t0 else 0
  }

  /** A recognizer segment moved from clip time to stream time, its text stripped. */
  function Shift(g: Segment, offset: int): Segment {
    Segment(g.t0 + offset, g.t1 + offset, Strip(g.text))
  }

  /** Every segment shifted, in order. */
  function ShiftAll(gs: seq<Segment>, offset: int): (r: seq<Segment>)
    ensures |r| == |gs|
    ensures forall k :: 0 <= k < |r| ==> r[k] == Shift(gs[k], offset)
  {
    if gs == [] then [] else [Shift(gs[0], offset)] + ShiftAll(gs[1..], offset)
  }

  /** Segments stamped with one time. */
  function Stamped(gs: seq<Segment>, now: real): (r: seq<Entry>)
    ensures |r| == |gs|
    ensures forall k :: 0 <= k < |r| ==> r[k] == Entry(now, gs[k])
  {
    if gs == [] then [] else [Entry(now, gs[0])] + Stamped(gs[1..], now)
  }

  /** Stamping one more segment appends one more entry. */
  lemma StampedSnoc(gs: seq<Segment>, j: nat, now: real)
    requires 1 <= j < |gs|
    ensures Stamped(gs[1..j + 1], now) == Stamped(gs[1..j], now) + [Entry(now, gs[j])]
  {
    assert gs[1..j + 1] == gs[1..j] + [gs[j]];
  }

  /** The activity tracker after a result whose last phrase reads `last`:
      first replaced when a recorded text differs from `last`, then replaced
      when the text is unset or empty. */
  function NextActivity(a: Activity, last: string, now: real): (r: Activity)
    ensures r == (if a.text == Some(last) && last != "" then a else Activity(now, Some(last)))
  {
    var a := if a.text.Some? && a.text.value != last then Activity(now, Some(last)) else a;
    if a.text.None? || a.text.value == "" then Activity(now, Some(last)) else a
  }

  /** `has_new_phrases`: the last phrase change is less than `timeout`
      seconds before `now`. */
  predicate HasNewPhrases(a: Activity, now: real, timeout: real) {
    now - a.lastTime < timeout
  }

  /** The history after a non-empty, already shifted result: the tail takes
      the first segment (re-stamped only when its stripped text changes) and
      the other segments follow, stamped `now`. */
  function Merge(h: seq<Entry>, shifted: seq<Segment>, now: real): (r: seq<Entry>)
    requires h != [] && shifted != []
    ensures |r| == |h| + |shifted| - 1
    ensures r[..|h| - 1] == h[..|h| - 1]
    ensures r[|h| - 1].segment == shifted[0]
    ensures r[|h| - 1].timestamp
              == if Strip(h[|h| - 1].segment.text) == Strip(shifted[0].text) then h[|h| - 1].timestamp else now
    ensures forall k :: 1 <= k < |shifted| ==> r[|h| - 1 + k] == Entry(now, shifted[k])
  {
    var n := |h| - 1;
    var tail := h[n];
    var stamp := if Strip(tail.segment.text) != Strip(shifted[0].text) then now else tail.timestamp;
    var rest := Stamped(shifted[1..], now);
    var r := h[..n] + [Entry(stamp, shifted[0])] + rest;
    assert r[..n] == h[..n];
    forall k | 1 <= k < |shifted|
      ensures r[n + k] == Entry(now, shifted[k])
    {
      assert r[n + k] == rest[k - 1];
    }
    r
  }

  /** `Merge` spelled out: the history before the tail, the new tail
      entry, then the other segments stamped `now`. */
  lemma MergeParts(h: seq<Entry>, shifted: seq<Segment>, now: real, tail: Entry)
    requires h != [] && shifted != []
    requires tail == Entry(if Strip(h[|h| - 1].segment.text) != Strip(shifted[0].text) then now
                           else h[|h| - 1].timestamp, shifted[0])
    ensures Merge(h, shifted, now) == h[..|h| - 1] + [tail] + Stamped(shifted[1..], now)
  {
  }

  /** One update cycle on a seeded history, given what the recognizer
      returned for the window starting at `StartMillis(h)`. */
  function Advance(h: seq<Entry>, a: Activity, results: seq<Segment>, now: real): (r: State)
    requires h != []
    ensures results == [] ==> r == State(h, a)
    ensures results != [] ==> && |r.history| == |h| + |results| - 1
                              && r.history[..|h| - 1] == h[..|h| - 1]
                              && r.activity.text == Some(Strip(results[|results| - 1].text))
  {
    if results == [] then State(h, a)
    else
      var shifted := ShiftAll(results, StartMillis(h));
      State(Merge(h, shifted, now), NextActivity(a, shifted[|shifted| - 1].text, now))
  }

  /** An update cycle is its three steps: shift, track the activity, merge. */
  lemma AdvanceSteps(h: seq<Entry>, a: Activity, results: seq<Segment>, now: real, offset: int,
                     shifted: seq<Segment>, activity: Activity, merged: seq<Entry>)
    requires h != [] && results != [] && offset == StartMillis(h)
    requires shifted == ShiftAll(results, offset)
    requires activity == NextActivity(a, shifted[|shifted| - 1].text, now)
    requires merged == Merge(h, shifted, now)
    ensures Advance(h, a, results, now) == State(merged, activity)
  {
    assert shifted == ShiftAll(results, StartMillis(h));
  }

  /** Every segment text in the history has no surrounding whitespace. */
  predicate AllTrimmed(h: seq<Entry>) {
    forall k :: 0 <= k < |h| ==> Trimmed(h[k].segment.text)
  }

  /** Shifting keeps each segment's length, moves both ends by the offset,
      and leaves its text stripped. */
  lemma ShiftProperties(g: Segment, offset: int)
    ensures Shift(g, offset).t1 - Shift(g, offset).t0 == g.t1 - g.t0
    ensures Shift(g, offset).t0 == g.t0 + offset
    ensures Trimmed(Shift(g, offset).text)
  {
    StripSound(g.text);
  }

  /** A non-empty result grows the history by one less than its length,
      never touches the entries before the tail, puts the first shifted
      segment in the tail (re-stamped only if its stripped text changed)
      and appends the rest, each stamped `now`. */
  lemma AdvanceHistory(h: seq<Entry>, a: Activity, results: seq<Segment>, now: real)
    requires h != [] && results != []
    ensures var r, n, off := Advance(h, a, results, now).history, |h| - 1, StartMillis(h);
            && |r| == |h| + |results| - 1
            && r[..n] == h[..n]
            && r[n].segment == Shift(results[0], off)
            && r[n].timestamp == (if Strip(h[n].segment.text) == Strip(results[0].text) then h[n].timestamp else now)
            && (forall k :: 1 <= k < |results| ==> r[n + k] == Entry(now, Shift(results[k], off)))
  {
    AdvanceTail(h, a, results, now);
    AdvanceRest(h, a, results, now);
  }

  /** The tail of a non-empty cycle's history: the first shifted segment,
      re-stamped only if its stripped text changed. */
  lemma AdvanceTail(h: seq<Entry>, a: Activity, results: seq<Segment>, now: real)
    requires h != [] && results != []
    ensures var r, n := Advance(h, a, results, now).history, |h| - 1;
            && |r| == |h| + |results| - 1
            && r[n].segment == Shift(results[0], StartMillis(h))
            && r[n].timestamp == (if Strip(h[n].segment.text) == Strip(results[0].text) then h[n].timestamp else now)
  {
    var shifted := ShiftAll(results, StartMillis(h));
    assert Advance(h, a, results, now).history == Merge(h, shifted, now);
    StripIdempotent(results[0].text);
    assert Strip(shifted[0].text) == Strip(results[0].text);
  }

  /** The entries after the tail of a non-empty cycle's history: the other
      shifted segments in order, each stamped `now`. */
  lemma AdvanceRest(h: seq<Entry>, a: Activity, results: seq<Segment>, now: real)
    requires h != [] && results != []
    ensures var r, n := Advance(h, a, results, now).history, |h| - 1;
            && |r| == |h| + |results| - 1
            && forall k :: 1 <= k < |results| ==> r[n + k] == Entry(now, Shift(results[k], StartMillis(h)))
  {
    var n, off := |h| - 1, StartMillis(h);
    var shifted := ShiftAll(results, off);
    var r := Merge(h, shifted, now);
    assert Advance(h, a, results, now).history == r;
    forall k | 1 <= k < |results|
      ensures r[n + k] == Entry(now, Shift(results[k], off))
    {
      assert r[n + k] == Entry(now, shifted[k]);
    }
  }

  /** The activity records the last shifted phrase. The tracker is kept as
      it was when it already recorded that phrase and the phrase is not
      empty; otherwise it becomes that phrase at `now`. */
  lemma AdvanceActivity(h: seq<Entry>, a: Activity, results: seq<Segment>, now: real)
    requires h != [] && results != []
    ensures var last := Strip(results[|results| - 1].text);
            var r := Advance(h, a, results, now).activity;
            && r.text == Some(last)
            && (a.text == Some(last) && last != "" ==> r == a)
            && (a.text != Some(last) || last == "" ==> r == Activity(now, Some(last)))
  {
  }

  /** Right after the last phrase changes, `has_new_phrases` holds for
      every positive timeout and fails for every other. */
  lemma FreshActivity(h: seq<Entry>, a: Activity, results: seq<Segment>, now: real, timeout: real)
    requires h != [] && results != []
    requires a.text != Some(Strip(results[|results| - 1].text))
    ensures HasNewPhrases(Advance(h, a, results, now).activity, now, timeout) <==> 0.0 < timeout
  {
    AdvanceActivity(h, a, results, now);
  }

  /** The next cycle reprocesses from the last recognized phrase: once the
      history holds more than one entry, its window starts at the stream
      time of the answer's last segment; otherwise it stays at 0. */
  lemma NextWindowStart(h: seq<Entry>, a: Activity, results: seq<Segment>, now: real)
    requires h != [] && results != []
    ensures StartMillis(Advance(h, a, results, now).history)
              == if |h| + |results| > 2 then results[|results| - 1].t0 + StartMillis(h) else 0
  {
    var r := Advance(h, a, results, now).history;
    var n, last := |h| - 1, |results| - 1;
    AdvanceHistory(h, a, results, now);
    if |h| + |results| > 2 {
      if last == 0 {
        assert r[|r| - 1] == r[n];
      } else {
        assert r[|r| - 1] == r[n + last];
      }
    }
  }

  /** Texts in the history stay stripped through an update cycle. */
  lemma AdvanceTrimmed(h: seq<Entry>, a: Activity, results: seq<Segment>, now: real)
    requires h != [] && AllTrimmed(h)
    ensures AllTrimmed(Advance(h, a, results, now).history)
  {
    if results != [] {
      var r := Advance(h, a, results, now).history;
      AdvanceHistory(h, a, results, now);
      forall k | 0 <= k < |r|
        ensures Trimmed(r[k].segment.text)
      {
        if k < |h| - 1 {
          assert r[k] == r[..|h| - 1][k];
        } else {
          ShiftProperties(results[k - |h| + 1], StartMillis(h));
        }
      }
    }
  }

  /** A recognizer that keeps returning the same non-empty phrase (up to
      surrounding whitespace) as the only segment leaves the tail's
      timestamp and the activity untouched on the second cycle, so the
      engine goes quiet: once `timeout` seconds have passed since the first
      cycle, `has_new_phrases` fails. */
  lemma RepeatedPhraseGoesQuiet(h: seq<Entry>, a: Activity, g1: Segment, g2: Segment,
                                now1: real, now2: real, timeout: real)
    requires h != [] && a.lastTime <= now1
    requires Strip(g1.text) == Strip(g2.text) != ""
    ensures var s1 := Advance(h, a, [g1], now1);
            var s2 := Advance(s1.history, s1.activity, [g2], now2);
            && |s2.history| == |s1.history| == |h|
            && s2.history[|h| - 1].timestamp == s1.history[|h| - 1].timestamp
            && s2.activity == s1.activity
            && (now2 - now1 >= timeout ==> !HasNewPhrases(s2.activity, now2, timeout))
  {
    var s1 := Advance(h, a, [g1], now1);
    AdvanceHistory(h, a, [g1], now1);
    AdvanceActivity(h, a, [g1], now1);
    var text := Strip(g1.text);
    assert s1.history[|h| - 1].segment.text == text;
    StripIdempotent(g1.text);
    StripIdempotent(g2.text);
    AdvanceHistory(s1.history, s1.activity, [g2], now2);
    AdvanceActivity(s1.history, s1.activity, [g2], now2);
  }
}
