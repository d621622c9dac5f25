/** One compaction: the system prefix, one summary message, and a verbatim suffix. */
module Compaction {
  import opened Text
  import opened Transcript
  import opened Extract
  import opened Tail
  import opened Preserve

  datatype Error = NoSummarizer | SummarizerFailed | UnusableSummary
  datatype Outcome<T> = Ok(value: T) | Err(error: Error)

  /** The tail mode of one compaction: a turn budget when `tailTurns` is not zero, and a
      message count otherwise. */
  datatype Options = Options(preserveLast: int, tailTurns: int, tailBudget: int, contextWindow: int, task: Option<Task>)

  /** The parts of a compaction that are text work: the state codec, the argument readers,
      the summary check and the block listing the artifacts of an index range. */
  datatype Tools = Tools(codec: Codec, readers: Readers, usable: string -> bool, artifacts: (nat, nat) -> string)

  datatype Compacted = Compacted(
    messages: seq<Message>, removed: nat, preserved: nat, summary: string, compacted: bool)

  function SystemEnd(ms: seq<Message>): (k: nat)
    ensures k <= |ms|
    ensures forall i :: 0 <= i < k ==> ms[i].role == System
    ensures k < |ms| ==> ms[k].role != System
  {
    if ms != [] && ms[0].role == System then 1 + SystemEnd(ms[1..]) else 0
  }

  lemma {:induction false} SystemEndIs(ms: seq<Message>, k: nat)
    requires k <= |ms| && (forall i :: 0 <= i < k ==> ms[i].role == System) && (k < |ms| ==> ms[k].role != System)
    ensures SystemEnd(ms) == k
  {
  }

  function Budget(opts: Options): int {
    if opts.tailBudget <= 0 then TailTokenBudget(opts.contextWindow) else opts.tailBudget
  }

  /** Where the verbatim tail is planned to start. */
  ghost predicate Planned(ms: seq<Message>, opts: Options, planned: int) {
    if opts.tailTurns == 0 then planned == Max(|ms| - opts.preserveLast, SystemEnd(ms))
    else if ms == [] then planned == 0
    else if !HasTurn(ms, SystemEnd(ms)) then planned == |ms|
    else exists newest :: NewestPlan(ms, opts, newest, planned)
  }

  /** The budgeted tail: the least boundary that fits, with the newest turn kept whole. */
  ghost predicate NewestPlan(ms: seq<Message>, opts: Options, newest: int, planned: int) {
    && 0 <= planned <= newest < |ms|
    && IsNewest(ms, SystemEnd(ms), newest)
    && IsPlan(ms, SystemEnd(ms), opts.tailTurns, Budget(opts), newest, planned)
  }

  /** The last position from `low` to `planned` that holds an assistant, or `low`. */
  ghost predicate SafeStart(ms: seq<Message>, low: int, planned: int, boundary: int) {
    && 0 <= low <= boundary <= planned < |ms|
    && (boundary > low ==> ms[boundary].role == Assistant)
    && forall k :: boundary < k <= planned ==> ms[k].role != Assistant
  }

  method SafeSuffixBoundary(messages: seq<Message>, systemEnd: nat, planned: nat) returns (boundary: nat)
    requires systemEnd <= planned < |messages|
    ensures SafeStart(messages, systemEnd, planned, boundary)
  {
    boundary := planned;
    while boundary > systemEnd && messages[boundary].role != Assistant
      invariant systemEnd <= boundary <= planned
      invariant forall k :: boundary < k <= planned ==> messages[k].role != Assistant
    {
      boundary := boundary - 1;
    }
  }

  /** Where the suffix really starts: a tail planned to start at the end keeps nothing
      in legacy mode and everything in budgeted mode. */
  ghost predicate Cut(ms: seq<Message>, opts: Options, planned: int, boundary: int) {
    && Planned(ms, opts, planned)
    && if planned < |ms| then SafeStart(ms, SystemEnd(ms), planned, boundary)
       else boundary == if opts.tailTurns == 0 then |ms| else SystemEnd(ms)
  }

  /** The summary message's text before the state block. */
  function Prose(mark: string, summary: string, artifacts: string): string {
    var content := mark + "\n" + summary;
    if artifacts != "" then content + ("\n\n" + artifacts) else content
  }

  function SummaryContent(t: Tools, opts: Options, ms: seq<Message>, summary: string, boundary: nat): string
    requires SystemEnd(ms) <= boundary <= |ms|
  {
    var middle := ms[SystemEnd(ms)..boundary];
    WithBlock(t.codec, STATE_LABEL, Prose(SUMMARY_LABEL, summary, t.artifacts(SystemEnd(ms), boundary)),
              NextState(t.readers, ParseBlock(t.codec, LatestSummary(middle)), middle, opts.task))
  }

  function Rebuilt(ms: seq<Message>, boundary: nat, content: string): seq<Message>
    requires SystemEnd(ms) <= boundary <= |ms|
  {
    ms[..SystemEnd(ms)] + [UserText(content)] + ms[boundary..]
  }

  function Unchanged(ms: seq<Message>): Compacted {
    Compacted(ms, 0, |ms|, "", false)
  }

  /** What a compaction that cuts at `boundary` answers. */
  function Answer(t: Tools, opts: Options, ms: seq<Message>, summarize: seq<Message> -> Outcome<string>, boundary: nat)
    : Outcome<Compacted>
    requires SystemEnd(ms) <= boundary <= |ms|
  {
    var middle := ms[SystemEnd(ms)..boundary];
    if middle == [] then Ok(Unchanged(ms))
    else
      match summarize(middle)
      case Err(e) => Err(e)
      case Ok(raw) =>
        var summary := TrimSpace(raw);
        if !t.usable(summary) then Err(UnusableSummary)
        else Ok(Compacted(Rebuilt(ms, boundary, SummaryContent(t, opts, ms, summary, boundary)),
                          |middle|, |ms| - |middle|, summary, true))
  }

  /** With nothing to elide the history is left alone; otherwise the summarizer's error is
      passed on, a text that fails the summary check is refused, and any other is used. */
  predicate Answers(t: Tools, ms: seq<Message>, summarize: seq<Message> -> Outcome<string>, boundary: nat, r: Outcome<Compacted>)
    requires SystemEnd(ms) <= boundary <= |ms|
  {
    if boundary == SystemEnd(ms) then r.Ok? && r.value.messages == ms && !r.value.compacted
    else
      match summarize(ms[SystemEnd(ms)..boundary])
      case Err(e) => r == Err(e)
      case Ok(raw) =>
        if t.usable(TrimSpace(raw)) then r.Ok? && r.value.compacted && r.value.summary == TrimSpace(raw)
        else r == Err(UnusableSummary)
  }

  lemma AnswersAre(t: Tools, opts: Options, ms: seq<Message>, summarize: seq<Message> -> Outcome<string>, boundary: nat)
    requires SystemEnd(ms) <= boundary <= |ms|
    ensures Answers(t, ms, summarize, boundary, Answer(t, opts, ms, summarize, boundary))
  {
    hide SystemEnd, TrimSpace, SummaryContent, Rebuilt;
  }

  method PlanBoundary(messages: seq<Message>, opts: Options, systemEnd: nat) returns (boundary: int)
    requires systemEnd == SystemEnd(messages)
    requires opts.tailTurns == 0 ==> opts.preserveLast >= 0
    ensures Planned(messages, opts, boundary)
    ensures systemEnd <= boundary <= |messages|
  {
    hide SystemEnd, IsPlan, TailTokenBudget;
    if opts.tailTurns != 0 {
      var budget := opts.tailBudget;
      if budget <= 0 {
        budget := TailTokenBudget(opts.contextWindow);
      }
      ghost var newest: nat;
      boundary, newest := PlanTail(messages, systemEnd, opts.tailTurns, budget);
      if HasTurn(messages, systemEnd) {
        assert NewestPlan(messages, opts, newest, boundary);
        PlanIsAfterHead(messages, opts, newest, boundary);
      }
    } else {
      boundary := |messages| - opts.preserveLast;
      if boundary < systemEnd {
        boundary := systemEnd;
      }
    }
  }

  lemma PlanIsAfterHead(ms: seq<Message>, opts: Options, newest: int, planned: int)
    requires NewestPlan(ms, opts, newest, planned)
    ensures SystemEnd(ms) <= planned < |ms|
  {
  }

  /** A negative `preserveLast` would index past the end, so the legacy mode asks for none. */
  method CompactMessages(messages: seq<Message>, opts: Options, t: Tools, summarize: Option<seq<Message> -> Outcome<string>>)
    returns (r: Outcome<Compacted>, ghost planned: int, ghost boundary: nat)
    requires opts.tailTurns == 0 ==> opts.preserveLast >= 0
    ensures summarize.None? ==> r == Err(NoSummarizer)
    ensures summarize.Some? ==>
      && SystemEnd(messages) <= boundary <= |messages|
      && Cut(messages, opts, planned, boundary)
      && r == Answer(t, opts, messages, summarize.value, boundary)
  {
    hide SafeStart, TrimSpace, Planned, Prose, NextState, ParseBlock, LatestSummary, WithBlock;
    planned, boundary := 0, 0;
    if summarize.None? {
      return Err(NoSummarizer), planned, boundary;
    }
    var systemEnd := 0;
    while systemEnd < |messages| && messages[systemEnd].role == System
      invariant 0 <= systemEnd <= |messages|
      invariant forall i :: 0 <= i < systemEnd ==> messages[i].role == System
    {
      systemEnd := systemEnd + 1;
    }
    SystemEndIs(messages, systemEnd);
    hide SystemEnd;
    var cut := PlanBoundary(messages, opts, systemEnd);
    planned := cut;
    if opts.tailTurns != 0 && cut >= |messages| {
      boundary := systemEnd;
      return Ok(Unchanged(messages)), planned, boundary;
    }
    if cut < |messages| {
      cut := SafeSuffixBoundary(messages, systemEnd, cut);
      SafeStartBounds(messages, systemEnd, planned, cut);
    }
    boundary := cut;
    var middle := messages[systemEnd..cut];
    if |middle| == 0 {
      return Ok(Unchanged(messages)), planned, boundary;
    }
    var raw := summarize.value(middle);
    if raw.Err? {
      return Err(raw.error), planned, boundary;
    }
    var summary := TrimSpace(raw.value);
    if !t.usable(summary) {
      return Err(UnusableSummary), planned, boundary;
    }
    var content := Prose(SUMMARY_LABEL, summary, t.artifacts(systemEnd, cut));
    content := AppendPreservedState(t.codec, t.readers, content, middle, opts.task);
    var rebuilt := messages[..systemEnd] + [UserText(content)] + messages[cut..];
    r := Ok(Compacted(rebuilt, |middle|, |messages| - |middle|, summary, true));
  }

  lemma SafeStartBounds(ms: seq<Message>, low: int, planned: int, boundary: int)
    requires SafeStart(ms, low, planned, boundary)
    ensures 0 <= low <= boundary <= planned < |ms|
  {
  }

  /* ---- what one compaction guarantees ---- */

  /** A compacted history: the system prefix, one summary, the suffix from `end`. */
  ghost predicate CompactedShape(ms: seq<Message>, out: seq<Message>, end: nat)
    requires SystemEnd(ms) < end <= |ms|
  {
    var e := SystemEnd(ms);
    && |out| == e + 1 + (|ms| - end)
    && out[..e] == ms[..e]
    && IsSummary(out[e])
    && out[e + 1..] == ms[end..]
  }

  /** The summary message opens with the label and the summary, and then the artifacts. */
  predicate HoldsSummary(content: string, summary: string, artifacts: string) {
    var text := SUMMARY_LABEL + "\n" + summary;
    text <= content && (artifacts != "" ==> text + "\n\n" + artifacts <= content)
  }

  /** Nothing is lost or counted twice, the summary given is in the message that stands for
      what was elided, and the suffix opens with an assistant. */
  lemma CompactionShape(ms: seq<Message>, opts: Options, t: Tools, summarize: seq<Message> -> Outcome<string>,
                        planned: int, boundary: nat, c: Compacted)
    requires opts.tailTurns == 0 ==> opts.preserveLast >= 0
    requires SystemEnd(ms) <= boundary <= |ms| && Cut(ms, opts, planned, boundary)
    requires Answer(t, opts, ms, summarize, boundary) == Ok(c)
    ensures c.removed + c.preserved == |ms|
    ensures !c.compacted ==> c.messages == ms && c.removed == 0
    ensures c.compacted ==>
      && c.removed > 0
      && SystemEnd(ms) + c.removed == boundary
      && CompactedShape(ms, c.messages, boundary)
      && (boundary < |ms| ==> ms[boundary].role == Assistant)
      && summarize(ms[SystemEnd(ms)..boundary]).Ok?
      && c.summary == TrimSpace(summarize(ms[SystemEnd(ms)..boundary]).value) && t.usable(c.summary)
      && HoldsSummary(c.messages[SystemEnd(ms)].content, c.summary, t.artifacts(SystemEnd(ms), boundary))
  {
    hide TrimSpace, CompactedShape, SummaryContent, SystemEnd, Planned, Rebuilt, IsSummary, HoldsSummary;
    if c.compacted {
      var raw := summarize(ms[SystemEnd(ms)..boundary]).value;
      SummaryContentOpens(t, opts, ms, TrimSpace(raw), boundary);
      RebuiltShape(ms, boundary, SummaryContent(t, opts, ms, TrimSpace(raw), boundary));
      SummaryContentHolds(t, opts, ms, TrimSpace(raw), boundary);
    }
  }

  lemma SummaryContentHolds(t: Tools, opts: Options, ms: seq<Message>, summary: string, boundary: nat)
    requires SystemEnd(ms) <= boundary <= |ms|
    ensures HoldsSummary(SummaryContent(t, opts, ms, summary, boundary), summary, t.artifacts(SystemEnd(ms), boundary))
  {
    hide NextState, ParseBlock, LatestSummary, WithBlock, SystemEnd, Prose;
    var middle := ms[SystemEnd(ms)..boundary];
    ProseHolds(summary, t.artifacts(SystemEnd(ms), boundary));
    BlockFollows(t.codec, STATE_LABEL, Prose(SUMMARY_LABEL, summary, t.artifacts(SystemEnd(ms), boundary)),
                 NextState(t.readers, ParseBlock(t.codec, LatestSummary(middle)), middle, opts.task));
  }

  lemma ProseHolds(summary: string, artifacts: string)
    ensures HoldsSummary(Prose(SUMMARY_LABEL, summary, artifacts), summary, artifacts)
  {
    hide SUMMARY_LABEL, Prose;
    ProseIs(SUMMARY_LABEL, summary, artifacts);
  }

  lemma ProseIs(mark: string, summary: string, artifacts: string)
    ensures var text := mark + "\n" + summary;
      Prose(mark, summary, artifacts) == if artifacts == "" then text else text + "\n\n" + artifacts
  {
    var text := mark + "\n" + summary;
    assert text + ("\n\n" + artifacts) == text + "\n\n" + artifacts;
  }

  /** The whole text of the summary message: the label, the summary, the artifacts if there are
      any, and the block of the state carried on, unless there is nothing to carry. */
  lemma SummaryIsWritten(t: Tools, opts: Options, ms: seq<Message>, summary: string, boundary: nat) returns (s: State)
    requires SystemEnd(ms) <= boundary <= |ms|
    ensures var middle := ms[SystemEnd(ms)..boundary];
      CarriesOn(t.readers, ParseBlock(t.codec, LatestSummary(middle)), middle, opts.task, s)
    ensures var artifacts := t.artifacts(SystemEnd(ms), boundary);
      SummaryContent(t, opts, ms, summary, boundary) ==
        SUMMARY_LABEL + "\n" + summary + (if artifacts == "" then "" else "\n\n" + artifacts)
        + (if s == EMPTY then "" else "\n\n" + STATE_LABEL + "\n" + t.codec.encode(s))
  {
    hide NextState, ParseBlock, LatestSummary, SystemEnd, CarriesOn, SUMMARY_LABEL, STATE_LABEL;
    var middle := ms[SystemEnd(ms)..boundary];
    var prior := ParseBlock(t.codec, LatestSummary(middle));
    s := NextState(t.readers, prior, middle, opts.task);
    NextStateCarries(t.readers, prior, middle, opts.task);
    ProseAndBlock(t.codec, summary, t.artifacts(SystemEnd(ms), boundary), s);
  }

  lemma ProseAndBlock(c: Codec, summary: string, artifacts: string, s: State)
    ensures WithBlock(c, STATE_LABEL, Prose(SUMMARY_LABEL, summary, artifacts), s) ==
      SUMMARY_LABEL + "\n" + summary + (if artifacts == "" then "" else "\n\n" + artifacts)
      + (if s == EMPTY then "" else "\n\n" + STATE_LABEL + "\n" + c.encode(s))
  {
    hide SUMMARY_LABEL, STATE_LABEL, Prose;
    var prose := Prose(SUMMARY_LABEL, summary, artifacts);
    LabelHasNoNewline();
    ProseIs(SUMMARY_LABEL, summary, artifacts);
    assert prose == SUMMARY_LABEL + "\n" + summary + (if artifacts == "" then "" else "\n\n" + artifacts);
    if s != EMPTY {
      BlockContent(c, STATE_LABEL, prose, s);
      assert prose + "\n\n" + STATE_LABEL + "\n" + c.encode(s) == prose + ("\n\n" + STATE_LABEL + "\n" + c.encode(s));
    } else {
      assert prose + "" == prose;
    }
  }

  lemma RebuiltShape(ms: seq<Message>, boundary: nat, content: string)
    requires SystemEnd(ms) < boundary <= |ms| && IsSummary(UserText(content))
    ensures CompactedShape(ms, Rebuilt(ms, boundary, content), boundary)
    ensures SystemEnd(ms) < |Rebuilt(ms, boundary, content)| && Rebuilt(ms, boundary, content)[SystemEnd(ms)].content == content
  {
    hide SystemEnd, IsSummary;
    Spliced(ms[..SystemEnd(ms)], UserText(content), ms[boundary..]);
  }

  lemma Spliced<T>(a: seq<T>, m: T, c: seq<T>)
    ensures |a + [m] + c| == |a| + 1 + |c|
    ensures (a + [m] + c)[..|a|] == a && (a + [m] + c)[|a|] == m && (a + [m] + c)[|a| + 1..] == c
  {
  }

  /** A compaction leaves no verbatim suffix exactly when the legacy mode was asked to
      preserve nothing. */
  lemma SuffixIsEmptyIff(ms: seq<Message>, opts: Options, planned: int, boundary: nat)
    requires opts.tailTurns == 0 ==> opts.preserveLast >= 0
    requires SystemEnd(ms) < boundary <= |ms| && Cut(ms, opts, planned, boundary)
    ensures boundary == |ms| <==> opts.tailTurns == 0 && opts.preserveLast == 0
  {
    hide SystemEnd, HasTurn, IsPlan, IsNewest;
  }

  lemma SummaryContentOpens(t: Tools, opts: Options, ms: seq<Message>, summary: string, boundary: nat)
    requires SystemEnd(ms) <= boundary <= |ms|
    ensures SUMMARY_LABEL <= SummaryContent(t, opts, ms, summary, boundary)
    ensures IsSummary(UserText(SummaryContent(t, opts, ms, summary, boundary)))
  {
    hide NextState, ParseBlock, LatestSummary, WithBlock, Prose, SystemEnd, IsSummary;
    var middle := ms[SystemEnd(ms)..boundary];
    ProseOpens(SUMMARY_LABEL, summary, t.artifacts(SystemEnd(ms), boundary));
    BlockFollows(t.codec, STATE_LABEL, Prose(SUMMARY_LABEL, summary, t.artifacts(SystemEnd(ms), boundary)),
                 NextState(t.readers, ParseBlock(t.codec, LatestSummary(middle)), middle, opts.task));
    SummaryMarked(SummaryContent(t, opts, ms, summary, boundary));
  }

  lemma ProseOpens(mark: string, summary: string, artifacts: string)
    ensures mark <= Prose(mark, summary, artifacts)
  {
  }

  lemma BlockFollows(c: Codec, mark: string, prose: string, s: State)
    ensures prose <= WithBlock(c, mark, prose, s)
  {
    hide FormatBlock;
  }

  lemma {:induction false} KeepsPrefix(prefix: string, s: string)
    requires Trimmed(prefix) && prefix <= s
    ensures prefix <= TrimRight(s) && TrimSpace(s) == TrimRight(s)
  {
    assert s[0] == prefix[0];
    if |s| > |prefix| {
      KeepsPrefix(prefix, s[..|s| - 1]);
    }
  }

  lemma SummaryMarked(content: string)
    requires SUMMARY_LABEL <= content
    ensures IsSummary(UserText(content))
  {
    hide TrimSpace;
    assert SUMMARY_LABEL[0] == '[' && Trimmed(SUMMARY_LABEL);
    KeepsPrefix(SUMMARY_LABEL, content);
  }

  /** In budgeted mode the newest real user turn is wholly in the suffix, the planned tail
      fits its budget, and widening it crosses at most the one assistant it stops on. */
  lemma BudgetedTailKeepsNewestTurn(ms: seq<Message>, opts: Options, planned: int, boundary: nat) returns (newest: nat)
    requires opts.tailTurns != 0 && SystemEnd(ms) < boundary <= |ms| && Cut(ms, opts, planned, boundary)
    ensures IsNewest(ms, SystemEnd(ms), newest) && boundary <= planned <= newest
    ensures Estimate(ms[planned..]) <= Max(Budget(opts), Estimate(ms[newest..]))
    ensures opts.tailTurns > 0 ==> Touched(ms, planned) <= opts.tailTurns
    ensures forall k :: boundary < k <= planned ==> ms[k].role != Assistant
  {
    hide SystemEnd, Estimate, CountStarts, IsNewest, HasTurn, Budget;
    newest :| NewestPlan(ms, opts, newest, planned);
  }

  /* ---- provider validity ---- */

  lemma {:induction false} SystemScan(ms: seq<Message>, k: nat)
    requires k <= |ms| && forall i :: 0 <= i < k ==> ms[i].role == System
    ensures Scan(START, ms[..k]) == START
  {
    if k > 0 {
      assert ms[..k][..k - 1] == ms[..k - 1];
      SystemScan(ms, k - 1);
    }
  }

  /** Nothing is owed where an assistant starts, nor at the end. */
  lemma NothingOwedAt(ms: seq<Message>, k: nat)
    requires WellFormed(ms) && k <= |ms| && (k < |ms| ==> ms[k].role == Assistant)
    ensures Scan(START, ms[..k]).Expect? && Scan(START, ms[..k]).owed == []
  {
    PrefixNotRejected(ms, k);
    if k < |ms| {
      PrefixNotRejected(ms, k + 1);
      ScanStep(ms, k);
    } else {
      assert ms[..k] == ms;
    }
  }

  /** A reader's state before an assistant matters only through what is owed. */
  lemma AssistantForgetsHead(tail: seq<Message>, head: bool)
    requires tail == [] || tail[0].role == Assistant
    ensures var st := Scan(Expect(head, []), tail);
      st.Expect? && st.owed == [] <==> WellFormed(tail)
  {
    if tail != [] {
      assert tail == [tail[0]] + tail[1..];
      ScanConcat(Expect(head, []), [tail[0]], tail[1..]);
      ScanConcat(START, [tail[0]], tail[1..]);
      assert [tail[0]][..0] == [];
    }
  }

  lemma WellFormedTail(ms: seq<Message>, k: nat)
    requires WellFormed(ms) && k <= |ms| && (k < |ms| ==> ms[k].role == Assistant)
    ensures WellFormed(ms[k..]) && WellFormed(ms[..k])
  {
    NothingOwedAt(ms, k);
    assert ms == ms[..k] + ms[k..];
    ScanConcat(START, ms[..k], ms[k..]);
    AssistantForgetsHead(ms[k..], Scan(START, ms[..k]).head);
  }

  /** The elided slice and the rebuilt history are both acceptable to a strict provider. */
  lemma CompactionKeepsValidity(ms: seq<Message>, boundary: nat, content: string)
    requires WellFormed(ms) && SystemEnd(ms) <= boundary <= |ms|
    requires boundary < |ms| ==> ms[boundary].role == Assistant
    ensures WellFormed(Rebuilt(ms, boundary, content))
    ensures WellFormed(ms[SystemEnd(ms)..boundary])
  {
    hide SystemEnd, WellFormed;
    var e := SystemEnd(ms);
    var head, middle, user, tail := ms[..e], ms[e..boundary], [UserText(content)], ms[boundary..];
    SystemScan(ms, e);
    WellFormedTail(ms, boundary);
    assert ms[..boundary] == head + middle;
    ScanConcat(START, head, middle);
    ScanConcat(START, head + user, tail);
    ScanConcat(START, head, user);
    assert user[..0] == [];
    AssistantForgetsHead(tail, false);
    JoinedIsWellFormed(head, middle, user, tail);
  }

  lemma JoinedIsWellFormed(head: seq<Message>, middle: seq<Message>, user: seq<Message>, tail: seq<Message>)
    requires Scan(START, head) == START && WellFormed(head + middle) && WellFormed(tail)
    requires Scan(START, head + middle) == Scan(START, middle)
    requires Scan(START, head + user) == Expect(false, [])
    requires Scan(START, head + user + tail) == Scan(Expect(false, []), tail)
    requires var st := Scan(Expect(false, []), tail); st.Expect? && st.owed == [] <==> WellFormed(tail)
    ensures WellFormed(middle) && WellFormed(head + user + tail)
  {
  }

  /* ---- the default tail length ---- */

  const DEFAULT_PRESERVE_LAST := 12

  /** The tail length computed from a missing or negative option. */
  function DefaultedPreserveLast(preserveLast: int): int {
    if preserveLast <= 0 then DEFAULT_PRESERVE_LAST else preserveLast
  }

  /** The legacy mode plans its tail with the option itself, so the default is honoured
      exactly when it was not needed, or when the history has no room for either. */
  lemma DefaultTailIsUnused(ms: seq<Message>, opts: Options, planned: int)
    requires opts.tailTurns == 0 && opts.preserveLast >= 0 && Planned(ms, opts, planned)
    ensures Planned(ms, opts.(preserveLast := DefaultedPreserveLast(opts.preserveLast)), planned)
      <==> opts.preserveLast > 0 || |ms| == SystemEnd(ms)
  {
    hide SystemEnd;
  }
}
