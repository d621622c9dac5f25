/** The carried state over a whole run: whatever the loop does between compactions, the
    summary holds what one scan of everything elided so far extracts. */
module CarriedRun {
  import opened Text
  import opened Transcript
  import opened Extract
  import opened Tail
  import opened Preserve
  import opened Chain
  import opened TurnLoop
  import C = Compaction
  import J = Judge
  import K = StateCodec
  import P = Prune
  import S = CompactionState

  /** The one message that may pose as a summary is the run's own, right after the system
      messages, and calls sit on assistants. */
  ghost predicate Carries(c: Codec, r: Readers, ms: seq<Message>, rounds: seq<Round>) {
    && (forall k :: 0 <= k < |ms| && IsSummary(ms[k]) ==> rounds != [] && k == C.SystemEnd(ms))
    && (rounds != [] ==> C.SystemEnd(ms) < |ms| && ms[C.SystemEnd(ms)] == UserText(Carried(c, r, rounds)))
    && (forall k :: 0 <= k < |ms| && ms[k].toolCalls != [] ==> ms[k].role == Assistant)
  }

  /** What the run itself adds does not pose as a summary, and every compaction of the run
      uses the same codec and readers. */
  ghost predicate Honest(c: Codec, r: Readers, e: Event) {
    match e
    case Notice(text, _) => !IsSummary(UserText(text))
    case Compact(_, tools, _, _, _) => tools.codec == c && tools.readers == r
    case _ => true
  }

  /** The event replaces a stretch of the transcript by a summary. */
  ghost predicate Elides(ms: seq<Message>, e: Event) {
    && e.Compact? && C.SystemEnd(ms) < e.boundary <= |ms|
    && var answer := e.summarize(ms[C.SystemEnd(ms)..e.boundary]);
       answer.Ok? && e.tools.usable(TrimSpace(answer.value))
  }

  /** The summary text of such an event. */
  ghost function SummaryOf(ms: seq<Message>, e: Event): string
    requires Elides(ms, e)
  {
    TrimSpace(e.summarize(ms[C.SystemEnd(ms)..e.boundary]).value)
  }

  /** What an eliding compaction leaves. */
  lemma ElisionIs(ms: seq<Message>, e: Event)
    requires Enabled(ms, e) && Elides(ms, e)
    ensures After(ms, e) == C.Rebuilt(ms, e.boundary, C.SummaryContent(e.tools, e.opts, ms, SummaryOf(ms, e), e.boundary))
  {
    hide C.SystemEnd, C.Cut, C.Rebuilt, C.SummaryContent, TrimSpace;
  }

  /** What an elided stretch holds past the previous summary. */
  function SliceOf(middle: seq<Message>, rounds: seq<Round>): seq<Message>
    requires middle != []
  {
    if rounds == [] then middle else middle[1..]
  }

  /** The round such an event is: its prose, what it elides past the previous summary, and
      the task it records. */
  ghost function RoundOf(ms: seq<Message>, e: Event, before: seq<Round>): Round
    requires Elides(ms, e)
  {
    var from := C.SystemEnd(ms);
    Round(C.Prose(SUMMARY_LABEL, SummaryOf(ms, e), e.tools.artifacts(from, e.boundary)),
          SliceOf(ms[from..e.boundary], before), e.opts.task)
  }

  ghost function NextRounds(ms: seq<Message>, e: Event, before: seq<Round>): seq<Round> {
    if Elides(ms, e) then before + [RoundOf(ms, e, before)] else before
  }

  /** The rounds after `k` events. */
  ghost function RoundsAt(ts: seq<seq<Message>>, es: seq<Event>, before: seq<Round>, k: nat): seq<Round>
    requires |ts| == |es| + 1 && k <= |es|
  {
    if k == 0 then before else NextRounds(ts[k - 1], es[k - 1], RoundsAt(ts, es, before, k - 1))
  }

  /* ---- events that elide nothing ---- */

  /** Message for message the same user texts, roles, and places without calls. */
  predicate Retold(m: Message, m': Message) {
    && m'.role == m.role && (m.toolCalls == [] ==> m'.toolCalls == [])
    && (m.role == User ==> m' == m.(images := m'.images) && (m.images == [] ==> m'.images == []))
  }

  lemma SystemEndAgrees(ms: seq<Message>, ms': seq<Message>, n: nat)
    requires n <= |ms| && n <= |ms'| && forall k :: 0 <= k < n ==> ms'[k].role == ms[k].role
    requires C.SystemEnd(ms) < n || (C.SystemEnd(ms) == n == |ms| && (n < |ms'| ==> ms'[n].role != System))
    ensures C.SystemEnd(ms') == C.SystemEnd(ms)
  {
    C.SystemEndIs(ms', C.SystemEnd(ms));
  }

  lemma RetoldCarries(c: Codec, r: Readers, ms: seq<Message>, ms': seq<Message>, rounds: seq<Round>)
    requires Carries(c, r, ms, rounds) && |ms'| == |ms| && forall k :: 0 <= k < |ms| ==> Retold(ms[k], ms'[k])
    ensures Carries(c, r, ms', rounds)
  {
    hide C.SystemEnd, TrimSpace, Carried;
    SystemEndAgrees(ms, ms', |ms|);
    forall k | 0 <= k < |ms| && IsSummary(ms'[k]) ensures IsSummary(ms[k]) {
      assert Retold(ms[k], ms'[k]);
    }
    forall k | 0 <= k < |ms| && ms'[k].toolCalls != [] ensures ms'[k].role == Assistant {
      assert Retold(ms[k], ms'[k]);
    }
    if rounds != [] {
      assert Retold(ms[C.SystemEnd(ms)], ms'[C.SystemEnd(ms)]);
    }
  }

  /** A message the loop appends: no system text, no summary, calls only on assistants. */
  predicate Ordinary(m: Message) {
    m.role != System && !IsSummary(m) && (m.toolCalls != [] ==> m.role == Assistant)
  }

  lemma AppendCarries(c: Codec, r: Readers, ms: seq<Message>, more: seq<Message>, rounds: seq<Round>)
    requires Carries(c, r, ms, rounds) && forall k :: 0 <= k < |more| ==> Ordinary(more[k])
    ensures Carries(c, r, ms + more, rounds)
  {
    hide C.SystemEnd, IsSummary, Carried;
    var ms' := ms + more;
    assert forall k :: 0 <= k < |ms| ==> ms'[k] == ms[k];
    assert forall k :: |ms| <= k < |ms'| ==> ms'[k] == more[k - |ms|] && Ordinary(ms'[k]);
    SystemEndAgrees(ms, ms', |ms|);
  }

  lemma TurnIsOrdinary(assistant: Message, executed: nat -> Executed, ran: nat)
    requires assistant.role == Assistant && ran <= |assistant.toolCalls|
    ensures var more := [assistant] + Answered(executed, ran) + AbortedResults(assistant.toolCalls[ran..]);
      forall k :: 0 <= k < |more| ==> Ordinary(more[k])
  {
    hide TrimSpace;
    var answered, aborted := Answered(executed, ran), AbortedResults(assistant.toolCalls[ran..]);
    assert forall k :: 0 <= k < |answered| ==> answered[k] == ResultOf(executed(k));
    assert forall k :: 0 <= k < |aborted| ==> aborted[k].role == Tool && aborted[k].toolCalls == [];
  }

  lemma NoticeIsOrdinary(text: string, images: seq<string>)
    requires !IsSummary(UserText(text))
    ensures Ordinary(Message(User, text, [], "", images, []))
  {
    hide TrimSpace;
  }

  lemma ReplyIsOrdinary(text: string, reasoning: seq<string>)
    ensures Ordinary(Message(Assistant, text, [], "", [], reasoning))
  {
    hide TrimSpace;
  }

  /** Neither the prune nor the judge touches a user message. */
  lemma PruneRetells(ms: seq<Message>, preserve: nat)
    ensures var out := P.Pruned(ms, preserve).0;
      |out| == |ms| && forall k :: 0 <= k < |ms| ==> Retold(ms[k], out[k])
  {
    hide P.Pruned, P.IsPrunedPlaceholder, Tokens;
    P.PruneKeepsFrames(ms, preserve);
    forall k | 0 <= k < |ms| ensures Retold(ms[k], P.Pruned(ms, preserve).0[k]) {
      P.PruneTouchesOnlyStaleResults(ms, preserve, k);
    }
  }

  lemma JudgeRetells(ms: seq<Message>, preserve: nat, ruling: J.Ruling, k: nat)
    requires k < |ms| && |P.Pruned(ms, preserve).0| == |ms|
    ensures Retold(ms[k], J.Judged(ms, P.Pruned(ms, preserve).0, preserve, ruling)[k])
  {
    hide P.Pruned, P.IsPrunedPlaceholder, Tokens, J.VerdictOn, J.ResultCandidate, J.ProseCandidate,
      J.ArgumentsCandidate, J.Judgeable, J.JudgeableCall;
    P.PruneTouchesOnlyStaleResults(ms, preserve, k);
    var calls := J.CallsFor(ms, preserve, ruling, k);
    if ms[k].role == User {
      assert forall j :: 0 <= j < |calls| ==> calls[j] == ms[k].toolCalls[j];
      assert calls == ms[k].toolCalls;
    }
  }

  lemma StripRetells(ms: seq<Message>)
    ensures forall k :: 0 <= k < |ms| ==> Retold(ms[k], S.Stripped(ms)[k])
  {
  }

  lemma EditRetells(ms: seq<Message>, index: nat, content: string)
    requires index < |ms| && ms[index].role == System
    ensures forall k :: 0 <= k < |ms| ==> Retold(ms[k], ms[index := ms[index].(content := content)][k])
  {
  }

  lemma PassiveCarries(c: Codec, r: Readers, ms: seq<Message>, e: Event, rounds: seq<Round>)
    requires Carries(c, r, ms, rounds) && Enabled(ms, e) && Honest(c, r, e) && !e.Compact?
    ensures Carries(c, r, After(ms, e), rounds)
  {
    hide Carries, IsSummary, P.Pruned, J.Judged, Retold, Answered, AbortedResults, Ordinary, IdsMatch, S.Stripped;
    match e {
      case Notice(text, images) =>
        NoticeIsOrdinary(text, images);
        AppendCarries(c, r, ms, [Message(User, text, [], "", images, [])], rounds);
      case Reply(text, reasoning) =>
        ReplyIsOrdinary(text, reasoning);
        AppendCarries(c, r, ms, [Message(Assistant, text, [], "", [], reasoning)], rounds);
      case Turn(assistant, executed, ran) =>
        var more := [assistant] + Answered(executed, ran) + AbortedResults(assistant.toolCalls[ran..]);
        TurnIsOrdinary(assistant, executed, ran);
        AppendCarries(c, r, ms, more, rounds);
        assert After(ms, e) == ms + more;
      case FreePrune(preserve) =>
        PruneRetells(ms, preserve);
        RetoldCarries(c, r, ms, P.Pruned(ms, preserve).0, rounds);
      case JudgePass(preserve, ruling) =>
        J.FloorKeepsCalls(ms, preserve);
        var out := J.Judged(ms, P.Pruned(ms, preserve).0, preserve, ruling);
        forall k: nat | k < |ms| ensures Retold(ms[k], out[k]) {
          JudgeRetells(ms, preserve, ruling, k);
        }
        RetoldCarries(c, r, ms, out, rounds);
      case StripImages =>
        StripRetells(ms);
        RetoldCarries(c, r, ms, S.Stripped(ms), rounds);
      case EditSystem(index, content) =>
        EditRetells(ms, index, content);
        RetoldCarries(c, r, ms, ms[index := ms[index].(content := content)], rounds);
    }
  }

  /* ---- a compaction ---- */

  lemma StretchIs(c: Codec, r: Readers, ms: seq<Message>, boundary: nat, rounds: seq<Round>)
    requires Carries(c, r, ms, rounds) && C.SystemEnd(ms) < boundary <= |ms|
    ensures var middle := ms[C.SystemEnd(ms)..boundary];
      var slice := SliceOf(middle, rounds);
      && middle == Middle(c, r, rounds, slice)
      && (forall k :: 0 <= k < |slice| ==> !IsSummary(slice[k]))
      && (forall m :: m in slice && m.toolCalls != [] ==> m.role == Assistant)
  {
    hide C.SystemEnd, IsSummary, Carried;
    var from := C.SystemEnd(ms);
    var middle := ms[from..boundary];
    var slice := SliceOf(middle, rounds);
    if rounds != [] {
      assert middle == [middle[0]] + middle[1..];
      assert forall k :: 0 <= k < |slice| ==> slice[k] == ms[from + 1 + k];
    } else {
      assert forall k :: 0 <= k < |slice| ==> slice[k] == ms[from + k];
    }
  }

  /** The elided stretch is the previous summary, if any, and the round's slice. */
  lemma MiddleIs(c: Codec, r: Readers, ms: seq<Message>, e: Event, rounds: seq<Round>)
    requires Carries(c, r, ms, rounds) && Elides(ms, e)
    ensures var slice := RoundOf(ms, e, rounds).slice;
      && ms[C.SystemEnd(ms)..e.boundary] == Middle(c, r, rounds, slice)
      && (forall k :: 0 <= k < |slice| ==> !IsSummary(slice[k]))
      && (forall m :: m in slice && m.toolCalls != [] ==> m.role == Assistant)
  {
    hide C.SystemEnd, IsSummary, Carries, Middle, SliceOf, SummaryOf, C.Prose;
    StretchIs(c, r, ms, e.boundary, rounds);
  }

  lemma ElisionCarries(c: Codec, r: Readers, ms: seq<Message>, e: Event, rounds: seq<Round>)
    requires Carries(c, r, ms, rounds) && Honest(c, r, e) && Enabled(ms, e) && Elides(ms, e)
    ensures SUMMARY_LABEL <= RoundOf(ms, e, rounds).prose
    ensures Carries(c, r, After(ms, e), rounds + [RoundOf(ms, e, rounds)])
  {
    hide C.SystemEnd, Carries, Carried, Middle, C.Prose, C.SummaryContent, C.Rebuilt, SUMMARY_LABEL, SummaryOf,
      SliceOf, Enabled, After;
    ElisionIs(ms, e);
    MiddleIs(c, r, ms, e, rounds);
    var round := RoundOf(ms, e, rounds);
    CompactionIsRound(e.tools, e.opts, ms, SummaryOf(ms, e), e.boundary, rounds, round.slice);
    RebuiltCarries(c, r, ms, e.boundary, rounds, round);
  }

  /** The rebuilt history position by position. */
  lemma RebuiltAt(ms: seq<Message>, boundary: nat, content: string)
    requires C.SystemEnd(ms) < boundary <= |ms|
    ensures var out, from := C.Rebuilt(ms, boundary, content), C.SystemEnd(ms);
      && |out| == from + 1 + (|ms| - boundary) && C.SystemEnd(out) == from && out[from] == UserText(content)
      && (forall k :: 0 <= k < from ==> out[k] == ms[k])
      && (forall k :: from < k < |out| ==> out[k] == ms[boundary + (k - from - 1)])
  {
    hide C.SystemEnd, UserText;
    var from := C.SystemEnd(ms);
    var out := C.Rebuilt(ms, boundary, content);
    C.Spliced(ms[..from], UserText(content), ms[boundary..]);
    forall k | 0 <= k < from ensures out[k] == ms[k] {
      assert out[..from][k] == ms[..from][k];
    }
    forall k | from < k < |out| ensures out[k] == ms[boundary + (k - from - 1)] {
      assert out[from + 1..][k - from - 1] == ms[boundary..][k - from - 1];
    }
    SummaryIsUser(content);
    C.SystemEndIs(out, from);
  }

  lemma RebuiltCarries(c: Codec, r: Readers, ms: seq<Message>, boundary: nat, rounds: seq<Round>, round: Round)
    requires Carries(c, r, ms, rounds) && C.SystemEnd(ms) < boundary <= |ms|
    ensures Carries(c, r, C.Rebuilt(ms, boundary, Carried(c, r, rounds + [round])), rounds + [round])
  {
    hide C.SystemEnd, C.Rebuilt, IsSummary, Carried, UserText;
    var content := Carried(c, r, rounds + [round]);
    RebuiltAt(ms, boundary, content);
    SummaryIsUser(content);
  }

  lemma SummaryIsUser(content: string)
    ensures UserText(content).role == User && UserText(content).toolCalls == []
  {
  }

  /** Every event keeps the invariant, with one more round when it elides. */
  lemma EventCarries(c: Codec, r: Readers, ms: seq<Message>, e: Event, rounds: seq<Round>)
    requires Carries(c, r, ms, rounds) && Enabled(ms, e) && Honest(c, r, e)
    ensures Carries(c, r, After(ms, e), NextRounds(ms, e, rounds))
  {
    hide Carries, Honest, RoundOf, Enabled, After, C.SystemEnd, Elides;
    if Elides(ms, e) {
      ElisionCarries(c, r, ms, e, rounds);
    } else if e.Compact? {
      NothingElided(ms, e);
    } else {
      PassiveCarries(c, r, ms, e, rounds);
    }
  }

  lemma NothingElided(ms: seq<Message>, e: Event)
    requires Enabled(ms, e) && e.Compact? && !Elides(ms, e)
    ensures After(ms, e) == ms
  {
    hide C.SystemEnd, C.Cut, C.Rebuilt, C.SummaryContent, TrimSpace;
  }

  /* ---- the chain of a run ---- */

  /** No label stands in the way of any summary the run writes. */
  ghost predicate LabelsClear(c: Codec, r: Readers, rounds: seq<Round>) {
    forall n :: 0 < n <= |rounds| ==> LabelClear(c, r, rounds[..n])
  }

  lemma SliceAnswersItsCalls(c: Codec, r: Readers, ms: seq<Message>, e: Event, rounds: seq<Round>)
    requires WellFormed(ms) && Carries(c, r, ms, rounds) && Enabled(ms, e) && Elides(ms, e)
    requires "" !in CallIds(AllCalls(RoundOf(ms, e, rounds).slice))
    ensures SelfContained(RoundOf(ms, e, rounds).slice)
  {
    hide WellFormed, Carries, Carried, RoundOf, Enabled, SelfContained, AllCalls, CallIds, C.SystemEnd, IsSummary;
    MiddleIs(c, r, ms, e, rounds);
    BoundaryIsSafe(ms, e);
    var slice := RoundOf(ms, e, rounds).slice;
    C.CompactionKeepsValidity(ms, e.boundary, "");
    if rounds == [] {
      WellFormedIsSelfContained(slice);
    } else {
      SliceIsSelfContained(Carried(c, r, rounds), slice);
    }
  }

  lemma BoundaryIsSafe(ms: seq<Message>, e: Event)
    requires Enabled(ms, e) && Elides(ms, e)
    ensures e.boundary < |ms| ==> ms[e.boundary].role == Assistant
  {
    hide C.SystemEnd, C.Planned, C.Rebuilt, C.SummaryContent, TrimSpace;
  }

  /** A further round keeps the chain good. */
  lemma RoundIsGood(c: Codec, r: Readers, ms: seq<Message>, e: Event, rounds: seq<Round>)
    requires WellFormed(ms) && Carries(c, r, ms, rounds) && Honest(c, r, e) && GoodChain(c, r, rounds)
    requires Enabled(ms, e) && Elides(ms, e) && LabelClear(c, r, rounds + [RoundOf(ms, e, rounds)])
    requires "" !in CallIds(AllCalls(RoundOf(ms, e, rounds).slice))
    ensures GoodChain(c, r, rounds + [RoundOf(ms, e, rounds)])
  {
    hide WellFormed, Carries, Honest, Enabled, Elides, RoundOf, LabelClear, SelfContained, AllCalls, CallIds,
      IsSummary, SUMMARY_LABEL;
    ElisionCarries(c, r, ms, e, rounds);
    MiddleIs(c, r, ms, e, rounds);
    SliceAnswersItsCalls(c, r, ms, e, rounds);
    var now := rounds + [RoundOf(ms, e, rounds)];
    assert now[..|now| - 1] == rounds;
  }

  /** The conditions on what a run has elided: call ids are unique and not empty, and no
      label stands in the way. */
  ghost predicate Sound(c: Codec, r: Readers, rounds: seq<Round>) {
    UniqueIds(AllCalls(Elided(rounds))) && LabelsClear(c, r, rounds)
  }

  lemma SoundBefore(c: Codec, r: Readers, rounds: seq<Round>, round: Round)
    requires Sound(c, r, rounds + [round])
    ensures Sound(c, r, rounds) && LabelClear(c, r, rounds + [round]) && "" !in CallIds(AllCalls(round.slice))
  {
    hide UniqueIds, LabelClear, AllCalls;
    var now := rounds + [round];
    assert now[..|now| - 1] == rounds && now[..|now|] == now;
    assert Elided(now) == Elided(rounds) + round.slice;
    AllCallsConcat(Elided(rounds), round.slice);
    UniqueConcat(AllCalls(Elided(rounds)), AllCalls(round.slice));
    UniqueNotEmpty(AllCalls(round.slice));
    forall n | 0 < n <= |rounds| ensures LabelClear(c, r, rounds[..n]) {
      assert now[..n] == rounds[..n];
    }
  }

  lemma UniqueNotEmpty(calls: seq<ToolCall>)
    requires UniqueIds(calls)
    ensures "" !in CallIds(calls)
  {
  }

  /** A run of the loop whose events add no false summary, resumed at `before`. */
  ghost predicate CarriedFrom(c: Codec, r: Readers, ts: seq<seq<Message>>, es: seq<Event>, before: seq<Round>) {
    && IsRun(ts, es) && (forall k :: 0 <= k < |es| ==> Honest(c, r, es[k]))
    && WellFormed(ts[0]) && Carries(c, r, ts[0], before) && GoodChain(c, r, before)
  }

  lemma SoundStep(c: Codec, r: Readers, ms: seq<Message>, e: Event, rounds: seq<Round>)
    requires Sound(c, r, NextRounds(ms, e, rounds))
    ensures Sound(c, r, rounds)
  {
    hide Sound, Elides, RoundOf;
    if Elides(ms, e) {
      SoundBefore(c, r, rounds, RoundOf(ms, e, rounds));
    }
  }

  lemma StepIsGood(c: Codec, r: Readers, ms: seq<Message>, e: Event, rounds: seq<Round>)
    requires WellFormed(ms) && Carries(c, r, ms, rounds) && GoodChain(c, r, rounds)
    requires Enabled(ms, e) && Honest(c, r, e) && Sound(c, r, NextRounds(ms, e, rounds))
    ensures GoodChain(c, r, NextRounds(ms, e, rounds))
  {
    hide Sound, Elides, RoundOf, WellFormed, Carries, GoodChain, Enabled, Honest;
    if Elides(ms, e) {
      SoundBefore(c, r, rounds, RoundOf(ms, e, rounds));
      RoundIsGood(c, r, ms, e, rounds);
    }
  }

  lemma {:induction false} RunsCarry(c: Codec, r: Readers, ts: seq<seq<Message>>, es: seq<Event>, before: seq<Round>, k: nat)
    requires CarriedFrom(c, r, ts, es, before) && k <= |es| && Sound(c, r, RoundsAt(ts, es, before, k))
    ensures Carries(c, r, ts[k], RoundsAt(ts, es, before, k))
    ensures GoodChain(c, r, RoundsAt(ts, es, before, k))
  {
    hide Enabled, After, WellFormed, Carries, GoodChain, Sound, Honest, NextRounds;
    if k > 0 {
      var ms, e, rounds := ts[k - 1], es[k - 1], RoundsAt(ts, es, before, k - 1);
      SoundStep(c, r, ms, e, rounds);
      RunsCarry(c, r, ts, es, before, k - 1);
      RunsStayWellFormed(ts, es, k - 1);
      EventCarries(c, r, ms, e, rounds);
      StepIsGood(c, r, ms, e, rounds);
    }
  }

  /** In every run, at every point after the first compaction, the message after the system
      texts is the summary, and its block decodes to what one scan of everything elided so
      far extracts, whatever was appended, pruned, judged or stripped in between. */
  lemma SummaryHoldsEverythingElided(c: Codec, r: Readers, ts: seq<seq<Message>>, es: seq<Event>, before: seq<Round>, k: nat)
    requires LawfulCodec(c) && SourcesNamed(r)
    requires CarriedFrom(c, r, ts, es, before) && k <= |es|
    requires Sound(c, r, RoundsAt(ts, es, before, k)) && RoundsAt(ts, es, before, k) != []
    ensures var rounds, at := RoundsAt(ts, es, before, k), C.SystemEnd(ts[k]);
      && at < |ts[k]| && IsSummary(ts[k][at])
      && ParseBlock(c, ts[k][at].content) == StateOf(r, Elided(rounds), LastTask(rounds))
      && CarriesOn(r, EMPTY, Elided(rounds), LastTask(rounds), ParseBlock(c, ts[k][at].content))
  {
    hide CarriesOn, LawfulCodec, SourcesNamed, Honest, Enabled, After, WellFormed, RoundsAt, GoodChain, Carried, ParseBlock,
      StateOf, LabelsClear, IsSummary,
      UniqueIds, SUMMARY_LABEL, C.SystemEnd;
    var rounds := RoundsAt(ts, es, before, k);
    RunsCarry(c, r, ts, es, before, k);
    ChainCarriesFullScan(c, r, rounds);
    C.SummaryMarked(Carried(c, r, rounds));
  }

  /** A fresh run: nothing in its first transcript poses as a summary. */
  lemma FreshRun(c: Codec, r: Readers, ms: seq<Message>)
    requires forall k :: 0 <= k < |ms| ==> !IsSummary(ms[k]) && (ms[k].toolCalls != [] ==> ms[k].role == Assistant)
    ensures Carries(c, r, ms, []) && GoodChain(c, r, [])
  {
    hide IsSummary;
  }

  /* ---- in the state's own JSON ---- */

  /** No text carried after `n` rounds holds the label, and no prose without a block does. */
  ghost predicate NoLabelAfter(r: Readers, rounds: seq<Round>)
    requires rounds != []
  {
    var s := StateOf(r, Elided(rounds), LastTask(rounds));
    !K.StateHolds(s, STATE_LABEL) && (s == EMPTY ==> !Contains(rounds[|rounds| - 1].prose, STATE_LABEL))
  }

  ghost predicate NoLabels(r: Readers, rounds: seq<Round>) {
    forall n :: 0 < n <= |rounds| ==> NoLabelAfter(r, rounds[..n])
  }

  lemma NoLabelIsClear(r: Readers, rounds: seq<Round>)
    requires rounds != [] && NoLabelAfter(r, rounds)
    ensures LabelClear(K.JSON, r, rounds)
  {
    hide StateOf, Elided, LastTask, K.EncodeState, K.DecodeState, K.StateHolds, BlockLine, STATE_LABEL;
    var s, prose := StateOf(r, Elided(rounds), LastTask(rounds)), rounds[|rounds| - 1].prose;
    K.LabelIsInert();
    K.EncodingHoldsIff(s, STATE_LABEL);
    var at := LastIndex(prose, STATE_LABEL);
    assert at >= 0 ==> OccursAt(prose, STATE_LABEL, at);
  }

  /** With the state written as JSON the only conditions left are on the transcript: call ids
      are unique and not empty, instruction blocks name their source, and no carried text
      holds the label. */
  lemma JsonSummaryHoldsEverythingElided(r: Readers, ts: seq<seq<Message>>, es: seq<Event>, before: seq<Round>, k: nat)
    requires SourcesNamed(r) && CarriedFrom(K.JSON, r, ts, es, before) && k <= |es|
    requires RoundsAt(ts, es, before, k) != [] && NoLabels(r, RoundsAt(ts, es, before, k))
    requires UniqueIds(AllCalls(Elided(RoundsAt(ts, es, before, k))))
    ensures var rounds, at := RoundsAt(ts, es, before, k), C.SystemEnd(ts[k]);
      && at < |ts[k]| && IsSummary(ts[k][at])
      && ParseBlock(K.JSON, ts[k][at].content) == StateOf(r, Elided(rounds), LastTask(rounds))
      && CarriesOn(r, EMPTY, Elided(rounds), LastTask(rounds), ParseBlock(K.JSON, ts[k][at].content))
  {
    hide CarriesOn, SourcesNamed, Carries, Honest, Enabled, After, WellFormed, RoundsAt, GoodChain, Carried, ParseBlock, StateOf,
      LabelClear, NoLabelAfter, IsSummary, UniqueIds, SUMMARY_LABEL, C.SystemEnd, LawfulCodec, SuffixFree, K.JSON;
    var rounds := RoundsAt(ts, es, before, k);
    K.JsonIsLawful();
    forall n | 0 < n <= |rounds| ensures LabelClear(K.JSON, r, rounds[..n]) {
      NoLabelIsClear(r, rounds[..n]);
    }
    SummaryHoldsEverythingElided(K.JSON, r, ts, es, before, k);
  }
}
