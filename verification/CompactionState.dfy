/** The per-run compaction state: the trigger, the low-water mark, the one-shot recovery,
    and the running calibration of the token estimate. */
module CompactionState {
  import opened Text
  import opened Transcript
  import opened Prune
  import opened Tail
  import opened Preserve
  import opened Compaction
  import J = Judge

  const OUTPUT_RESERVE_TOKENS := 4096
  const TRIGGER_RATIO := 0.7
  const BUDGETED_TAIL_MIN_WINDOW := 32000
  const UNBOUNDED_TAIL_TURNS := -1
  const MAX_SPILLS_PER_COMPACTION := 64

  /* ---- the trigger ---- */

  function ThresholdForRatio(contextWindow: int, ratio: real): int {
    if contextWindow <= 0 then 0
    else (contextWindow as real * (if ratio <= 0.0 then TRIGGER_RATIO else ratio)).Floor
  }

  /** The ratio's trigger: that share of the window, rounded down, and seven tenths of it when
      no ratio is set. */
  lemma ThresholdForRatioIs(contextWindow: int, ratio: real, share: real)
    requires share == contextWindow as real * (if ratio > 0.0 then ratio else 0.7)
    ensures contextWindow > 0 ==>
      ThresholdForRatio(contextWindow, ratio) as real <= share < ThresholdForRatio(contextWindow, ratio) as real + 1.0
    ensures contextWindow <= 0 ==> ThresholdForRatio(contextWindow, ratio) == 0
  {
  }

  /** The lower of the two guards: the ratio's trigger, and in every window that can hold two
      replies the window less one reply. */
  function ThresholdWithReserve(contextWindow: int, ratio: real): (threshold: int)
    ensures threshold > 0 <==> ThresholdForRatio(contextWindow, ratio) > 0
    ensures threshold <= 0 ==> threshold == 0
    ensures threshold > 0 && contextWindow < 2 * OUTPUT_RESERVE_TOKENS ==> threshold == ThresholdForRatio(contextWindow, ratio)
    ensures threshold > 0 && contextWindow >= 2 * OUTPUT_RESERVE_TOKENS ==>
      && threshold <= ThresholdForRatio(contextWindow, ratio) && threshold + OUTPUT_RESERVE_TOKENS <= contextWindow
      && (threshold == ThresholdForRatio(contextWindow, ratio) || threshold + OUTPUT_RESERVE_TOKENS == contextWindow)
  {
    var threshold := ThresholdForRatio(contextWindow, ratio);
    if threshold <= 0 then 0
    else
      var window := contextWindow - OUTPUT_RESERVE_TOKENS;
      if window >= OUTPUT_RESERVE_TOKENS && window < threshold then window else threshold
  }

  /* ---- calibration ---- */

  /** The estimate scaled by the learned ratio and rounded down; as it is before any sample. */
  function Calibrated(raw: nat, ratio: real): int {
    if ratio <= 0.0 then raw else (raw as real * ratio).Floor
  }

  /** A larger history never measures smaller. */
  lemma CalibratedMonotone(raw: nat, raw': nat, ratio: real)
    requires raw <= raw'
    ensures 0 <= Calibrated(raw, ratio) <= Calibrated(raw', ratio)
  {
    if ratio > 0.0 {
      assert raw as real * ratio <= raw' as real * ratio;
      assert 0.0 <= raw as real * ratio;
    }
  }

  /** One turn's sample, held to a sane band. */
  function Sample(rawEstimate: nat, actual: nat): (sample: real)
    requires rawEstimate > 0
    ensures 0.5 <= sample <= 2.0
    ensures actual as real / rawEstimate as real <= 0.5 ==> sample == 0.5
    ensures actual as real / rawEstimate as real >= 2.0 ==> sample == 2.0
    ensures 0.5 <= actual as real / rawEstimate as real <= 2.0 ==> sample == actual as real / rawEstimate as real
  {
    var ratio := actual as real / rawEstimate as real;
    if ratio < 0.5 then 0.5 else if ratio > 2.0 then 2.0 else ratio
  }

  function Blend(ratio: real, sample: real): real {
    (if ratio <= 0.0 then 1.0 else ratio) * 0.7 + sample * 0.3
  }

  predicate InBand(ratio: real) {
    0.5 <= ratio <= 2.0
  }

  lemma BlendStaysInBand(ratio: real, sample: real)
    requires ratio <= 0.0 || InBand(ratio)
    requires InBand(sample)
    ensures InBand(Blend(ratio, sample))
  {
  }

  function BlendMany(ratio: real, sample: real, turns: nat): real {
    if turns == 0 then ratio else Blend(BlendMany(ratio, sample, turns - 1), sample)
  }

  function Decay(turns: nat): (d: real)
    ensures 0.0 < d <= 1.0
  {
    if turns == 0 then 1.0 else Decay(turns - 1) * 0.7
  }

  /** A provider that keeps reporting one ratio is approached geometrically. */
  lemma {:induction false} CalibrationConverges(ratio: real, sample: real, turns: nat)
    requires InBand(ratio) && InBand(sample)
    ensures InBand(BlendMany(ratio, sample, turns))
    ensures BlendMany(ratio, sample, turns) - sample == Decay(turns) * (ratio - sample)
  {
    if turns > 0 {
      CalibrationConverges(ratio, sample, turns - 1);
      var before := BlendMany(ratio, sample, turns - 1);
      assert Blend(before, sample) - sample == (before - sample) * 0.7;
    }
  }

  /* ---- what a proactive attempt answers ---- */

  /** The compactor asked about `ms` may answer `r`. */
  ghost predicate Compacts(ms: seq<Message>, opts: Options, t: Tools, summarize: seq<Message> -> Outcome<string>,
                           r: Outcome<Compacted>)
  {
    exists planned: int, boundary: nat ::
      SystemEnd(ms) <= boundary <= |ms| && Cut(ms, opts, planned, boundary) && r == Answer(t, opts, ms, summarize, boundary)
  }

  function Drop(ms: seq<Message>, chosen: seq<Message>): int {
    Estimate(ms) - Estimate(chosen)
  }

  /** The calibrated size of a request: its history and its tool definitions. */
  function Measure(ms: seq<Message>, toolTokens: nat, ratio: real): int {
    Calibrated(Estimate(ms) + toolTokens, ratio)
  }

  /** It counts the history and the tools, scaled and rounded down once a ratio is learned. */
  lemma MeasureIs(ms: seq<Message>, toolTokens: nat, ratio: real, scaled: real)
    requires scaled == (Estimate(ms) + toolTokens) as real * ratio
    ensures ratio <= 0.0 ==> Measure(ms, toolTokens, ratio) == Estimate(ms) + toolTokens
    ensures ratio > 0.0 ==> Measure(ms, toolTokens, ratio) as real <= scaled < Measure(ms, toolTokens, ratio) as real + 1.0
  {
    hide Estimate;
  }

  lemma MeasureMonotone(ms: seq<Message>, ms': seq<Message>, toolTokens: nat, ratio: real)
    requires Estimate(ms) <= Estimate(ms')
    ensures Measure(ms, toolTokens, ratio) <= Measure(ms', toolTokens, ratio)
  {
    CalibratedMonotone(Estimate(ms) + toolTokens, Estimate(ms') + toolTokens, ratio);
  }

  /** The history, the low-water mark and the compaction flag an attempt leaves: the
      free stage when it clears the threshold, the prune when the summarizer fails, and
      the summary only when it is smaller. */
  ghost predicate AttemptLeaves(ms: seq<Message>, pruned: seq<Message>, chosen: seq<Message>, toolTokens: nat, ratio: real,
                                threshold: int, r: Outcome<Compacted>, out: seq<Message>, mark: int, did: bool)
  {
    var shrank := Drop(ms, chosen) > 0;
    var size := Measure(if shrank then chosen else ms, toolTokens, ratio);
    if shrank && size <= threshold then out == chosen && mark == size && !did
    else if r.Err? then out == pruned && mark == Measure(pruned, toolTokens, ratio) && !did
    else if Measure(r.value.messages, toolTokens, ratio) >= size then out == chosen && mark == size && !did
    else out == r.value.messages && mark == Measure(out, toolTokens, ratio) && did == r.value.compacted
  }

  /** The free stage shrank the history to within the threshold. */
  predicate FreeStageSuffices(ms: seq<Message>, chosen: seq<Message>, toolTokens: nat, ratio: real, threshold: int) {
    Drop(ms, chosen) > 0 && Measure(chosen, toolTokens, ratio) <= threshold
  }

  lemma CompactsBy(ms: seq<Message>, opts: Options, t: Tools, summarize: seq<Message> -> Outcome<string>,
                   r: Outcome<Compacted>, planned: int, boundary: nat)
    requires SystemEnd(ms) <= boundary <= |ms| && Cut(ms, opts, planned, boundary)
    requires r == Answer(t, opts, ms, summarize, boundary)
    ensures Compacts(ms, opts, t, summarize, r)
  {
    hide Cut, Answer, SystemEnd;
  }

  /** Whatever the compactor answers about an acceptable history is acceptable. */
  lemma CompactsKeepsValidity(ms: seq<Message>, opts: Options, t: Tools, summarize: seq<Message> -> Outcome<string>,
                              r: Outcome<Compacted>)
    requires WellFormed(ms) && Compacts(ms, opts, t, summarize, r) && r.Ok?
    requires opts.tailTurns == 0 ==> opts.preserveLast >= 0
    ensures WellFormed(r.value.messages)
  {
    hide WellFormed, SystemEnd, Rebuilt, SummaryContent, Planned;
    var planned: int, boundary: nat :|
      SystemEnd(ms) <= boundary <= |ms| && Cut(ms, opts, planned, boundary) && r == Answer(t, opts, ms, summarize, boundary);
    if boundary > SystemEnd(ms) {
      var raw := summarize(ms[SystemEnd(ms)..boundary]).value;
      CompactionKeepsValidity(ms, boundary, SummaryContent(t, opts, ms, TrimSpace(raw), boundary));
    }
  }

  /** Every attempt marks the size it leaves, never leaves more than it found, and
      reports a compaction only when it leaves strictly less. */
  lemma AttemptShrinks(ms: seq<Message>, pruned: seq<Message>, chosen: seq<Message>, toolTokens: nat, ratio: real,
                       threshold: int, r: Outcome<Compacted>, out: seq<Message>, mark: int, did: bool)
    requires AttemptLeaves(ms, pruned, chosen, toolTokens, ratio, threshold, r, out, mark, did)
    requires Estimate(pruned) <= Estimate(ms) && Estimate(chosen) <= Estimate(ms)
    ensures mark == Measure(out, toolTokens, ratio) <= Measure(ms, toolTokens, ratio)
    ensures did ==> mark < Measure(ms, toolTokens, ratio)
  {
    hide Estimate;
    MeasureMonotone(pruned, ms, toolTokens, ratio);
    MeasureMonotone(chosen, ms, toolTokens, ratio);
    if Estimate(chosen) == Estimate(ms) {
      MeasureMonotone(ms, chosen, toolTokens, ratio);
    }
    hide Measure;
  }

  /* ---- recovery from a context-limit error ---- */

  function Stripped(ms: seq<Message>): (out: seq<Message>)
    ensures |out| == |ms|
    ensures forall k :: 0 <= k < |ms| ==> out[k] == ms[k].(images := [])
  {
    seq(|ms|, k requires 0 <= k < |ms| => ms[k].(images := []))
  }

  method StripMessageImages(messages: seq<Message>) returns (out: seq<Message>)
    ensures out == Stripped(messages)
  {
    out := messages;
    for i := 0 to |messages|
      invariant |out| == |messages|
      invariant forall k :: 0 <= k < |messages| ==> out[k] == if k < i then messages[k].(images := []) else messages[k]
    {
      if |out[i].images| > 0 {
        out := out[i := out[i].(images := [])];
      }
    }
  }

  lemma StrippedKeepsFrames(ms: seq<Message>)
    ensures SameFrames(ms, Stripped(ms))
  {
  }

  /** A retry sends an acceptable history when it was given one. */
  lemma RecoveryKeepsValidity(ms: seq<Message>, first: Outcome<Compacted>, pruned: seq<Message>, reclaimed: int,
                              fallback: bool, second: Outcome<Compacted>)
    requires WellFormed(pruned) && (first.Ok? ==> WellFormed(first.value.messages))
    requires fallback && second.Ok? ==> WellFormed(second.value.messages)
    ensures var r := Recovers(ms, first, pruned, reclaimed, fallback, second); r.Retry? ==> WellFormed(r.messages)
  {
    hide Estimate, Stripped, WellFormed;
    var candidate := if first.Ok? then first.value.messages else pruned;
    var best := if fallback then Best(candidate, second) else candidate;
    StrippedKeepsFrames(best);
    SameFramesWellFormed(best, Stripped(best));
  }

  lemma SameFramesWellFormed(ms: seq<Message>, ms': seq<Message>)
    requires SameFrames(ms, ms')
    ensures WellFormed(ms') <==> WellFormed(ms)
  {
    SameFramesScan(START, ms, ms');
  }

  datatype Recovery = GiveUp | Failed(error: Error) | Retry(messages: seq<Message>)

  predicate Shrinks(ms: seq<Message>, candidate: seq<Message>) {
    Estimate(candidate) < Estimate(ms)
  }

  /** The smaller of the two compactions. */
  function Best(first: seq<Message>, second: Outcome<Compacted>): seq<Message> {
    if second.Ok? && Estimate(second.value.messages) < Estimate(first) then second.value.messages else first
  }

  /** What one recovery answers, from its first compaction, its prune and its fallback. */
  function Recovers(ms: seq<Message>, first: Outcome<Compacted>, pruned: seq<Message>, reclaimed: int,
                    fallback: bool, second: Outcome<Compacted>): Recovery
  {
    if first == Err(UnusableSummary) && reclaimed <= 0 then GiveUp
    else if first.Err? && first.error != UnusableSummary then Failed(first.error)
    else
      var candidate := if first.Err? then pruned else first.value.messages;
      if Shrinks(ms, candidate) then Retry(candidate)
      else
        var best := if fallback then Best(candidate, second) else candidate;
        if Shrinks(ms, best) then Retry(best)
        else if Shrinks(ms, Stripped(best)) then Retry(Stripped(best))
        else GiveUp
  }

  /** A retry is always strictly smaller, and a recovery gives up only when neither
      compaction, with or without its images, is. */
  lemma RecoveryRetriesIffSomethingShrinks(ms: seq<Message>, first: Outcome<Compacted>, pruned: seq<Message>,
                                           reclaimed: int, fallback: bool, second: Outcome<Compacted>)
    requires reclaimed == Estimate(ms) - Estimate(pruned)
    ensures var r := Recovers(ms, first, pruned, reclaimed, fallback, second);
      && (r.Retry? ==> Shrinks(ms, r.messages))
      && (r.Failed? <==> first.Err? && first.error != UnusableSummary)
      && (first == Err(UnusableSummary) ==> (r.Retry? <==> Shrinks(ms, pruned)) && (r.Retry? ==> r.messages == pruned))
      && (first.Ok? ==>
            (r.Retry? <==>
              || Shrinks(ms, first.value.messages)
              || (fallback && second.Ok? && Shrinks(ms, second.value.messages))
              || Shrinks(ms, Stripped(if fallback then Best(first.value.messages, second) else first.value.messages))))
      && (first.Ok? && Shrinks(ms, first.value.messages) ==> r == Retry(first.value.messages))
      && (first.Ok? && !Shrinks(ms, first.value.messages) && fallback && second.Ok? && Shrinks(ms, second.value.messages)
          ==> r == Retry(second.value.messages))
  {
    hide Estimate, Stripped;
    if first.Ok? {
      var best := if fallback then Best(first.value.messages, second) else first.value.messages;
      StrippedIsSmaller(best);
    }
  }

  lemma {:induction false} StrippedIsSmaller(ms: seq<Message>)
    ensures Estimate(Stripped(ms)) <= Estimate(ms)
  {
    hide CallTokens, Tokens;
    if ms != [] {
      var n := |ms| - 1;
      assert Stripped(ms)[..n] == Stripped(ms[..n]);
      StrippedIsSmaller(ms[..n]);
    }
  }

  /* ---- the state ---- */

  /** The relevance judge as it is set up: its classifier, its thresholds, and the text that
      replaces each dropped body. */
  datatype Filter = Filter(classify: J.Classifier, opts: J.Options, recover: nat -> string)

  /** What the free stage chooses: the judged history, or the prune when there is no judge or
      it answers nothing. */
  ghost function Chosen(judge: Option<Filter>, ms: seq<Message>, preserve: nat): seq<Message> {
    J.FloorKeepsCalls(ms, preserve);
    var pruned := Pruned(ms, preserve).0;
    if judge.None? then pruned
    else
      var ruling := J.RulingOn(judge.value.classify, ms, preserve, judge.value.opts, judge.value.recover);
      if ruling.answered == map[] then pruned else J.Judged(ms, pruned, preserve, ruling)
  }

  lemma ChosenIs(judge: Option<Filter>, ms: seq<Message>, preserve: nat)
    ensures |Pruned(ms, preserve).0| == |ms|
    ensures judge.None? ==> Chosen(judge, ms, preserve) == Pruned(ms, preserve).0
    ensures judge.Some? ==>
      var ruling := J.RulingOn(judge.value.classify, ms, preserve, judge.value.opts, judge.value.recover);
      Chosen(judge, ms, preserve) ==
        if ruling.answered == map[] then Pruned(ms, preserve).0 else J.Judged(ms, Pruned(ms, preserve).0, preserve, ruling)
  {
    hide Pruned, J.Judged, J.RulingOn;
    J.FloorKeepsCalls(ms, preserve);
  }

  /** No text that may replace a body costs more than it. */
  predicate CheapReplacements(judge: Option<Filter>, ms: seq<Message>, preserve: nat) {
    judge.Some? ==> forall i: nat :: i < |ms| && J.JudgedResult(ms, preserve, i)
                      ==> Tokens(judge.value.recover(i)) <= Tokens(ms[i].content)
  }

  predicate NoLarger(ms: seq<Message>, chosen: seq<Message>) {
    Estimate(chosen) <= Estimate(ms)
  }

  /** With no judge, or with replacements no costlier than what they replace, the free stage
      never leaves more than it found. */
  lemma ChosenIsNoLarger(judge: Option<Filter>, ms: seq<Message>, preserve: nat)
    ensures CheapReplacements(judge, ms, preserve) ==> NoLarger(ms, Chosen(judge, ms, preserve))
  {
    hide Estimate, Pruned, J.Judged, J.Replies, J.Requests, J.Work, J.Candidates, J.DropThreshold, J.JudgedResult, Tokens;
    PruneAccounting(ms, preserve);
    if judge.Some? && CheapReplacements(judge, ms, preserve) {
      J.JudgedIsNoLarger(ms, preserve, J.RulingOn(judge.value.classify, ms, preserve, judge.value.opts, judge.value.recover));
    }
  }

  /** The prune, the judge over it, and what the chosen history saves. */
  method FreeStage(messages: seq<Message>, judge: Option<Filter>, preserve: nat)
    returns (pruned: seq<Message>, chosen: seq<Message>, reclaimed: nat)
    ensures pruned == Pruned(messages, preserve).0 && chosen == Chosen(judge, messages, preserve)
    ensures Estimate(pruned) <= Estimate(messages)
    ensures reclaimed == Max(0, Drop(messages, chosen))
  {
    hide Pruned, Chosen, Estimate, J.Judged, J.RulingOn;
    var figure;
    pruned, figure := PruneStaleToolOutput(messages, preserve);
    PruneAccounting(messages, preserve);
    chosen := pruned;
    if judge.Some? {
      var judged := J.JudgeStaleHistory(judge.value.classify, messages, pruned, preserve, judge.value.opts, judge.value.recover);
      if judged.Some? {
        chosen := judged.value;
      }
    }
    ChosenIs(judge, messages, preserve);
    var before := EstimateTokens(messages);
    var after := EstimateTokens(chosen);
    reclaimed := if before > after then before - after else 0;
  }

  /** What an attempt leaves, and that it never leaves more than it found. */
  ghost predicate Settles(ms: seq<Message>, pruned: seq<Message>, chosen: seq<Message>, toolTokens: nat, ratio: real,
                          threshold: int, r: Outcome<Compacted>, out: seq<Message>, mark: int, did: bool)
  {
    && AttemptLeaves(ms, pruned, chosen, toolTokens, ratio, threshold, r, out, mark, did)
    && (NoLarger(ms, chosen) ==>
          && mark == Measure(out, toolTokens, ratio) <= Measure(ms, toolTokens, ratio)
          && (did ==> mark < Measure(ms, toolTokens, ratio)))
  }

  lemma Settled(ms: seq<Message>, pruned: seq<Message>, chosen: seq<Message>, toolTokens: nat, ratio: real,
                threshold: int, r: Outcome<Compacted>, out: seq<Message>, mark: int, did: bool)
    requires AttemptLeaves(ms, pruned, chosen, toolTokens, ratio, threshold, r, out, mark, did)
    requires Estimate(pruned) <= Estimate(ms)
    ensures Settles(ms, pruned, chosen, toolTokens, ratio, threshold, r, out, mark, did)
  {
    hide Estimate, Measure, AttemptLeaves;
    if NoLarger(ms, chosen) {
      AttemptShrinks(ms, pruned, chosen, toolTokens, ratio, threshold, r, out, mark, did);
    }
  }

  /** The size the summary is compared with. */
  function FreeSize(ms: seq<Message>, chosen: seq<Message>, toolTokens: nat, ratio: real): int {
    Measure(if Drop(ms, chosen) > 0 then chosen else ms, toolTokens, ratio)
  }

  lemma FreeStageSettles(ms: seq<Message>, pruned: seq<Message>, chosen: seq<Message>, toolTokens: nat, ratio: real,
                         threshold: int, r: Outcome<Compacted>)
    requires FreeStageSuffices(ms, chosen, toolTokens, ratio, threshold) && Estimate(pruned) <= Estimate(ms)
    ensures Settles(ms, pruned, chosen, toolTokens, ratio, threshold, r, chosen, Measure(chosen, toolTokens, ratio), false)
  {
    hide Estimate, Measure, Settles;
    Settled(ms, pruned, chosen, toolTokens, ratio, threshold, r, chosen, Measure(chosen, toolTokens, ratio), false);
  }

  /** The summary is taken only when it is smaller, and the prune when there is none. */
  lemma CompactorSettles(ms: seq<Message>, pruned: seq<Message>, chosen: seq<Message>, toolTokens: nat, ratio: real,
                         threshold: int, r: Outcome<Compacted>)
    requires !FreeStageSuffices(ms, chosen, toolTokens, ratio, threshold) && Estimate(pruned) <= Estimate(ms)
    ensures r.Err? ==>
      Settles(ms, pruned, chosen, toolTokens, ratio, threshold, r, pruned, Measure(pruned, toolTokens, ratio), false)
    ensures r.Ok? ==>
      var size, newSize := FreeSize(ms, chosen, toolTokens, ratio), Measure(r.value.messages, toolTokens, ratio);
      if newSize >= size then Settles(ms, pruned, chosen, toolTokens, ratio, threshold, r, chosen, size, false)
      else Settles(ms, pruned, chosen, toolTokens, ratio, threshold, r, r.value.messages, newSize, r.value.compacted)
  {
    hide Estimate, Measure, Settles;
    if r.Err? {
      Settled(ms, pruned, chosen, toolTokens, ratio, threshold, r, pruned, Measure(pruned, toolTokens, ratio), false);
    } else {
      var size, newSize := FreeSize(ms, chosen, toolTokens, ratio), Measure(r.value.messages, toolTokens, ratio);
      if newSize >= size {
        Settled(ms, pruned, chosen, toolTokens, ratio, threshold, r, chosen, size, false);
      } else {
        Settled(ms, pruned, chosen, toolTokens, ratio, threshold, r, r.value.messages, newSize, r.value.compacted);
      }
    }
  }

  /** What an attempt that settled leaves. */
  lemma SettledIsQuiet(ms: seq<Message>, pruned: seq<Message>, chosen: seq<Message>, toolTokens: nat,
                       ratio: real, threshold: int, r: Outcome<Compacted>, out: seq<Message>, mark: int, did: bool)
    requires Settles(ms, pruned, chosen, toolTokens, ratio, threshold, r, out, mark, did)
    ensures AttemptLeaves(ms, pruned, chosen, toolTokens, ratio, threshold, r, out, mark, did)
    ensures NoLarger(ms, chosen) ==>
      && mark == Measure(out, toolTokens, ratio) <= Measure(ms, toolTokens, ratio)
      && (did ==> mark < Measure(ms, toolTokens, ratio))
  {
    hide Measure, AttemptLeaves, NoLarger;
  }

  class CompactionState {
    const enabled: bool
    const window: int
    const threshold: int
    const preserveLast: nat
    const tailTurns: int
    const tailBudget: int
    var lowWaterMark: int
    var reactiveAttempted: bool
    var calibrationRatio: real
    var spillBudget: int

    ghost predicate Valid()
      reads this
    {
      && (enabled <==> window > 0)
      && preserveLast > 0
      && (tailTurns != 0 ==> tailBudget == TailTokenBudget(window))
      && (calibrationRatio == 0.0 || InBand(calibrationRatio))
    }

    constructor (contextWindow: int, preserve: int, turns: int, ratio: real)
      requires preserve > 0
      ensures Valid() && !reactiveAttempted && lowWaterMark == 0 && calibrationRatio == 0.0
      ensures window == contextWindow && preserveLast == preserve
      ensures threshold == ThresholdWithReserve(contextWindow, ratio)
      ensures tailTurns == if turns == 0 && contextWindow >= BUDGETED_TAIL_MIN_WINDOW then UNBOUNDED_TAIL_TURNS else turns
    {
      enabled := contextWindow > 0;
      window := contextWindow;
      threshold := ThresholdWithReserve(contextWindow, ratio);
      preserveLast := preserve;
      var t := turns;
      if t == 0 && contextWindow >= BUDGETED_TAIL_MIN_WINDOW {
        t := UNBOUNDED_TAIL_TURNS;
      }
      tailTurns := t;
      tailBudget := if t != 0 then TailTokenBudget(contextWindow) else 0;
      lowWaterMark, reactiveAttempted, calibrationRatio, spillBudget := 0, false, 0.0, 0;
    }

    method Calibrate(rawEstimate: int, actualPromptTokens: int)
      requires Valid()
      modifies `calibrationRatio
      ensures Valid()
      ensures if enabled && rawEstimate > 0 && actualPromptTokens > 0
        then calibrationRatio == Blend(old(calibrationRatio), Sample(rawEstimate, actualPromptTokens)) && InBand(calibrationRatio)
        else calibrationRatio == old(calibrationRatio)
    {
      if !enabled || rawEstimate <= 0 || actualPromptTokens <= 0 {
        return;
      }
      var sample := actualPromptTokens as real / rawEstimate as real;
      if sample < 0.5 {
        sample := 0.5;
      } else if sample > 2.0 {
        sample := 2.0;
      }
      BlendStaysInBand(calibrationRatio, sample);
      if calibrationRatio <= 0.0 {
        calibrationRatio := 1.0;
      }
      calibrationRatio := calibrationRatio * 0.7 + sample * 0.3;
    }

    /** Proactive compaction. Past its gates it records the size it leaves, so asking again
        about the history it returned does nothing. `asked` says the compactor ran. */
    method MaybeCompact(messages: seq<Message>, toolTokens: nat, judge: Option<Filter>,
                        task: seq<Message> -> Option<Task>, t: Tools, summarize: seq<Message> -> Outcome<string>)
      returns (out: seq<Message>, didCompact: bool, ghost asked: bool, ghost r: Outcome<Compacted>)
      requires Valid()
      modifies `lowWaterMark, `spillBudget
      ensures Valid()
      ensures var size := Measure(messages, toolTokens, calibrationRatio);
        var pruned, chosen := Pruned(messages, preserveLast).0, Chosen(judge, messages, preserveLast);
        if enabled && 0 < threshold < size && (old(lowWaterMark) <= 0 || old(lowWaterMark) < size)
        then
          && spillBudget == MAX_SPILLS_PER_COMPACTION
          && AttemptLeaves(messages, pruned, chosen, toolTokens, calibrationRatio, threshold, r, out, lowWaterMark, didCompact)
          && (asked <==> !FreeStageSuffices(messages, chosen, toolTokens, calibrationRatio, threshold))
          && (asked ==> Compacts(chosen, Options(preserveLast, tailTurns, if tailTurns == 0 then 0 else tailBudget, window, task(chosen)),
                                 t, summarize, r))
          && (NoLarger(messages, chosen) ==> lowWaterMark == Measure(out, toolTokens, calibrationRatio))
        else
          out == messages && !didCompact && !asked && lowWaterMark == old(lowWaterMark) && spillBudget == old(spillBudget)
      ensures CheapReplacements(judge, messages, preserveLast) ==> NoLarger(messages, Chosen(judge, messages, preserveLast))
      ensures NoLarger(messages, Chosen(judge, messages, preserveLast)) ==>
        && Measure(out, toolTokens, calibrationRatio) <= Measure(messages, toolTokens, calibrationRatio)
        && (didCompact ==> Measure(out, toolTokens, calibrationRatio) < Measure(messages, toolTokens, calibrationRatio))
    {
      hide Pruned, Cut, Answer, SystemEnd, Measure, TailTokenBudget, InBand, Estimate, Compacts, AttemptLeaves, Settles, Chosen, NoLarger,
        CheapReplacements;
      r, asked := Err(NoSummarizer), false;
      ChosenIsNoLarger(judge, messages, preserveLast);
      var size := Measure(messages, toolTokens, calibrationRatio);
      if !enabled || threshold <= 0 || size <= threshold {
        return messages, false, asked, r;
      }
      if lowWaterMark > 0 && size <= lowWaterMark {
        return messages, false, asked, r;
      }
      spillBudget := MAX_SPILLS_PER_COMPACTION;
      var pruned, chosen, reclaimed := FreeStage(messages, judge, preserveLast);
      if reclaimed > 0 {
        size := Measure(chosen, toolTokens, calibrationRatio);
        if size <= threshold {
          lowWaterMark := size;
          FreeStageSettles(messages, pruned, chosen, toolTokens, calibrationRatio, threshold, r);
          SettledIsQuiet(messages, pruned, chosen, toolTokens, calibrationRatio, threshold, r, chosen, size, false);
          return chosen, false, asked, r;
        }
      }
      var answer: Outcome<Compacted>;
      ghost var planned, boundary;
      var opts := Options(preserveLast, tailTurns, if tailTurns == 0 then 0 else tailBudget, window, task(chosen));
      answer, planned, boundary := CompactMessages(chosen, opts, t, Some(summarize));
      CompactsBy(chosen, opts, t, summarize, answer, planned, boundary);
      CompactorSettles(messages, pruned, chosen, toolTokens, calibrationRatio, threshold, answer);
      r, asked := answer, true;
      if answer.Err? {
        lowWaterMark := Measure(pruned, toolTokens, calibrationRatio);
        out, didCompact := pruned, false;
      } else {
        var newSize := Measure(answer.value.messages, toolTokens, calibrationRatio);
        if newSize >= size {
          lowWaterMark := size;
          out, didCompact := chosen, false;
        } else {
          lowWaterMark := newSize;
          out, didCompact := answer.value.messages, answer.value.compacted;
        }
      }
      SettledIsQuiet(messages, pruned, chosen, toolTokens, calibrationRatio, threshold, r, out, lowWaterMark, didCompact);
    }

    method CompactForRecovery(messages: seq<Message>, turns: int, task: Option<Task>, t: Tools,
                              summarize: seq<Message> -> Outcome<string>)
      returns (r: Outcome<Compacted>)
      requires Valid()
      ensures Compacts(messages, Options(preserveLast, turns, if turns == 0 then 0 else tailBudget, window, task), t, summarize, r)
    {
      hide Cut, Answer, SystemEnd, TailTokenBudget, InBand, Compacts;
      ghost var planned, boundary;
      var opts := Options(preserveLast, turns, if turns == 0 then 0 else tailBudget, window, task);
      r, planned, boundary := CompactMessages(messages, opts, t, Some(summarize));
      CompactsBy(messages, opts, t, summarize, r, planned, boundary);
    }

    /** Reactive recovery: the budgeted tail, then the legacy tail, then no images. A retry
        spends the run's one attempt; giving up does not. */
    method Recover(messages: seq<Message>, toolTokens: nat, isContextLimit: bool, task: seq<Message> -> Option<Task>,
                   t: Tools, summarize: (nat, seq<Message>) -> Outcome<string>)
      returns (out: seq<Message>, retried: bool, error: Option<Error>,
               ghost first: Outcome<Compacted>, ghost second: Outcome<Compacted>)
      requires Valid()
      modifies `lowWaterMark, `reactiveAttempted
      ensures Valid()
      ensures !enabled || old(reactiveAttempted) || !isContextLimit ==>
        !retried && out == messages && error.None? && reactiveAttempted == old(reactiveAttempted) && lowWaterMark == old(lowWaterMark)
      ensures enabled && !old(reactiveAttempted) && isContextLimit ==>
        && Compacts(messages, Options(preserveLast, tailTurns, if tailTurns == 0 then 0 else tailBudget, window, task(messages)),
                    t, x => summarize(0, x), first)
        && (first.Ok? && !Shrinks(messages, first.value.messages) && tailTurns != 0
            ==> Compacts(messages, Options(preserveLast, 0, 0, window, task(messages)), t, x => summarize(1, x), second))
        && match Recovers(messages, first, Pruned(messages, preserveLast).0, Pruned(messages, preserveLast).1, tailTurns != 0, second)
           case GiveUp => !retried && out == messages && error.None? && !reactiveAttempted && lowWaterMark == old(lowWaterMark)
           case Failed(e) => retried && out == messages && error == Some(e) && reactiveAttempted && lowWaterMark == old(lowWaterMark)
           case Retry(smaller) => retried && out == smaller && error.None? && reactiveAttempted
                                  && lowWaterMark == Measure(out, toolTokens, calibrationRatio)
      ensures retried ==> !old(reactiveAttempted) && reactiveAttempted
      ensures old(reactiveAttempted) ==> reactiveAttempted
      ensures retried && error.None? ==> Shrinks(messages, out)
    {
      hide Pruned, Cut, Answer, SystemEnd, Measure, TailTokenBudget, InBand, Estimate, Compacts, Stripped;
      first, second := Err(NoSummarizer), Err(NoSummarizer);
      out, retried, error := messages, false, None;
      if !enabled || reactiveAttempted || !isContextLimit {
        return;
      }
      var answer := CompactForRecovery(messages, tailTurns, task(messages), t, x => summarize(0, x));
      first := answer;
      var candidate := messages;
      if answer == Err(UnusableSummary) {
        var pruned, reclaimed := PruneStaleToolOutput(messages, preserveLast);
        PruneAccounting(messages, preserveLast);
        if reclaimed <= 0 {
          return;
        }
        candidate := pruned;
      } else if answer.Err? {
        reactiveAttempted := true;
        retried, error := true, Some(answer.error);
        return;
      } else {
        candidate := answer.value.messages;
        var total := EstimateTokens(messages);
        var left := EstimateTokens(candidate);
        if left >= total {
          if tailTurns != 0 {
            var legacy := CompactForRecovery(messages, 0, task(messages), t, x => summarize(1, x));
            second := legacy;
            if legacy.Ok? {
              var legacyLeft := EstimateTokens(legacy.value.messages);
              if legacyLeft < left {
                candidate := legacy.value.messages;
              }
            }
          }
          left := EstimateTokens(candidate);
          if left >= total {
            var stripped := StripMessageImages(candidate);
            var bare := EstimateTokens(stripped);
            if bare >= total {
              return;
            }
            candidate := stripped;
          }
        }
      }
      reactiveAttempted := true;
      lowWaterMark := Measure(candidate, toolTokens, calibrationRatio);
      out, retried := candidate, true;
    }
  }
}
