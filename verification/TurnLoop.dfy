/** One tool turn of the agent loop, its early exits, and every transcript a run can reach. */
module TurnLoop {
  import opened Text
  import opened Transcript
  import opened Prune
  import opened Judge
  import C = Compaction
  import S = CompactionState

  const ABORTED_NOTICE := "aborted: run halted by the repeated-failure guard"
  const IMAGE_NOTICE := "Image(s) read from tool results below:"
  const EMPTY_OBJECT := "{}"

  /* ---- the calls as recorded ---- */

  /** The JSON checks on an argument string: valid as a whole, and its first object when
      the rest is recoverable. */
  datatype ArgumentCheck = ArgumentCheck(valid: string -> bool, first: string -> Option<string>)

  ghost predicate LawfulCheck(c: ArgumentCheck) {
    c.valid(EMPTY_OBJECT) && forall s :: c.first(s).Some? ==> c.valid(TrimSpace(c.first(s).value))
  }

  /** How an argument string is recorded: as it came when it is valid, its first object when
      only that is, and an empty object otherwise. */
  predicate RecordedAs(c: ArgumentCheck, arguments: string, safe: string) {
    var trimmed := TrimSpace(arguments);
    && (trimmed != "" && c.valid(trimmed) ==> safe == arguments)
    && (trimmed != "" && !c.valid(trimmed) && c.first(trimmed).Some? ==> safe == c.first(trimmed).value)
    && (trimmed == "" || (!c.valid(trimmed) && c.first(trimmed).None?) ==> safe == EMPTY_OBJECT)
  }

  /** Recorded calls keep their ids, names and order, and replay as valid JSON. */
  method HistorySafeToolCalls(c: ArgumentCheck, calls: seq<ToolCall>) returns (safe: seq<ToolCall>)
    requires LawfulCheck(c)
    ensures |safe| == |calls|
    ensures forall k :: 0 <= k < |calls| ==>
      && safe[k].id == calls[k].id && safe[k].name == calls[k].name
      && RecordedAs(c, calls[k].arguments, safe[k].arguments)
    ensures forall k :: 0 <= k < |calls| ==> c.valid(TrimSpace(safe[k].arguments))
    ensures CallIds(safe) == CallIds(calls)
  {
    hide TrimSpace;
    EmptyObjectIsTrimmed();
    safe := calls;
    for i := 0 to |calls|
      invariant |safe| == |calls|
      invariant forall k :: i <= k < |calls| ==> safe[k] == calls[k]
      invariant forall k :: 0 <= k < i ==>
        && safe[k].id == calls[k].id && safe[k].name == calls[k].name
        && RecordedAs(c, calls[k].arguments, safe[k].arguments)
      invariant forall k :: 0 <= k < i ==> c.valid(TrimSpace(safe[k].arguments))
    {
      var trimmed := TrimSpace(calls[i].arguments);
      if trimmed == "" {
        safe := safe[i := safe[i].(arguments := EMPTY_OBJECT)];
      } else if !c.valid(trimmed) {
        var first := c.first(trimmed);
        safe := safe[i := safe[i].(arguments := if first.Some? then first.value else EMPTY_OBJECT)];
      }
    }
  }

  lemma EmptyObjectIsTrimmed()
    ensures TrimSpace(EMPTY_OBJECT) == EMPTY_OBJECT
  {
    TrimmedIsKept(EMPTY_OBJECT);
  }

  /* ---- one batch ---- */

  /** What executing one call gives back. */
  datatype Executed = Executed(callId: string, output: string, images: seq<string>, aborts: bool, approvesPlan: bool)

  datatype Ending = Continue | Aborted | PlanApproved | FailureStop

  /** The loop goes on after call `i`. */
  predicate GoesOn(executed: nat -> Executed, canceled: nat -> bool, stops: nat -> bool, i: nat) {
    !executed(i).aborts && !canceled(i) && !executed(i).approvesPlan && !stops(i)
  }

  function ResultOf(e: Executed): Message {
    ToolResult(e.callId, e.output)
  }

  /** The results of the first `n` calls. */
  function Answered(executed: nat -> Executed, n: nat): (ms: seq<Message>)
    ensures |ms| == n && forall k :: 0 <= k < n ==> ms[k] == ResultOf(executed(k))
  {
    seq(n, k requires 0 <= k < n => ResultOf(executed(k)))
  }

  function AbortedResults(calls: seq<ToolCall>): (ms: seq<Message>)
    ensures |ms| == |calls| && forall k :: 0 <= k < |calls| ==> ms[k] == ToolResult(calls[k].id, ABORTED_NOTICE)
  {
    seq(|calls|, k requires 0 <= k < |calls| => ToolResult(calls[k].id, ABORTED_NOTICE))
  }

  function BatchImages(executed: nat -> Executed, n: nat): seq<string> {
    if n == 0 then [] else BatchImages(executed, n - 1) + executed(n - 1).images
  }

  method AppendAbortedToolResults(messages: seq<Message>, remaining: seq<ToolCall>) returns (out: seq<Message>)
    ensures out == messages + AbortedResults(remaining)
  {
    out := messages;
    for i := 0 to |remaining|
      invariant out == messages + AbortedResults(remaining)[..i]
    {
      out := out + [ToolResult(remaining[i].id, ABORTED_NOTICE)];
    }
  }

  /** The images of a batch are those of its calls, in order. */
  lemma {:induction false} ImagesInOrder(executed: nat -> Executed, n: nat, k: nat, j: nat)
    requires k < n && j < |executed(k).images|
    ensures |BatchImages(executed, k + 1)| == |BatchImages(executed, k)| + |executed(k).images|
    ensures var at := |BatchImages(executed, k)| + j;
      at < |BatchImages(executed, n)| && BatchImages(executed, n)[at] == executed(k).images[j]
  {
    if k < n - 1 {
      ImagesInOrder(executed, n - 1, k, j);
    }
  }

  /** The loop left the batch after `ran` calls: the first one that ends it, or none. An abort
      is checked for first, then an approved plan, then the failure guard. */
  predicate StoppedAfter(executed: nat -> Executed, canceled: nat -> bool, stops: nat -> bool, calls: nat, ran: nat, end: Ending) {
    && ran <= calls
    && (forall k: nat :: k + 1 < ran ==> GoesOn(executed, canceled, stops, k))
    && match end
       case Continue => ran == calls && (ran > 0 ==> GoesOn(executed, canceled, stops, ran - 1))
       case Aborted => ran > 0 && (executed(ran - 1).aborts || canceled(ran - 1))
       case PlanApproved => ran > 0 && !executed(ran - 1).aborts && !canceled(ran - 1) && executed(ran - 1).approvesPlan
       case FailureStop =>
         ran > 0 && !executed(ran - 1).aborts && !canceled(ran - 1) && !executed(ran - 1).approvesPlan && stops(ran - 1)
  }

  /** The message is the result of an executed call: its output, under the id it answered with. */
  predicate CarriesOutput(m: Message, e: Executed) {
    && m.role == Tool && m.toolCallId == e.callId && m.content == e.output
    && m.toolCalls == [] && m.images == [] && m.reasoning == []
  }

  /** The message closes out the call with the id. */
  predicate ClosesOut(m: Message, id: string) {
    && m.role == Tool && m.toolCallId == id && m.content == ABORTED_NOTICE
    && m.toolCalls == [] && m.images == [] && m.reasoning == []
  }

  /** One result a call: the output of each that ran, and the others closed out. */
  predicate HoldsResults(results: seq<Message>, calls: seq<ToolCall>, executed: nat -> Executed, ran: nat) {
    && ran <= |calls| == |results|
    && (forall k :: 0 <= k < ran ==> CarriesOutput(results[k], executed(k)))
    && (forall k :: ran <= k < |calls| ==> ClosesOut(results[k], calls[k].id))
  }

  lemma BatchHoldsResults(calls: seq<ToolCall>, executed: nat -> Executed, ran: nat)
    requires ran <= |calls|
    ensures HoldsResults(Answered(executed, ran) + AbortedResults(calls[ran..]), calls, executed, ran)
  {
    hide CarriesOutput, ClosesOut;
    forall k: nat | k < ran ensures CarriesOutput(ResultOf(executed(k)), executed(k)) {
      ResultCarriesOutput(executed(k));
    }
    forall id ensures ClosesOut(ToolResult(id, ABORTED_NOTICE), id) {
      NoticeClosesOut(id);
    }
  }

  lemma ResultCarriesOutput(e: Executed)
    ensures CarriesOutput(ResultOf(e), e)
  {
  }

  lemma NoticeClosesOut(id: string)
    ensures ClosesOut(ToolResult(id, ABORTED_NOTICE), id)
  {
  }

  lemma BatchFollows(messages: seq<Message>, calls: seq<ToolCall>, executed: nat -> Executed, ran: nat)
    requires ran <= |calls|
    ensures var out := messages + Answered(executed, ran) + AbortedResults(calls[ran..]);
      messages <= out && HoldsResults(out[|messages|..], calls, executed, ran)
  {
    hide HoldsResults, Answered, AbortedResults;
    BatchHoldsResults(calls, executed, ran);
    var results := Answered(executed, ran) + AbortedResults(calls[ran..]);
    assert messages + Answered(executed, ran) + AbortedResults(calls[ran..]) == messages + results;
    assert (messages + results)[|messages|..] == results;
  }

  /** Runs the calls in order; whatever ends the batch, the remaining calls are closed out. */
  method RunToolBatch(messages: seq<Message>, calls: seq<ToolCall>, executed: nat -> Executed,
                      canceled: nat -> bool, stops: nat -> bool)
    returns (out: seq<Message>, images: seq<string>, end: Ending, ran: nat)
    ensures StoppedAfter(executed, canceled, stops, |calls|, ran, end)
    ensures out == messages + Answered(executed, ran) + AbortedResults(calls[ran..])
    ensures messages <= out && HoldsResults(out[|messages|..], calls, executed, ran)
    ensures end == Continue ==> images == BatchImages(executed, |calls|)
  {
    hide HoldsResults;
    out, images, end, ran := messages, [], Continue, 0;
    for index := 0 to |calls|
      invariant ran == index && end == Continue
      invariant out == messages + Answered(executed, index)
      invariant images == BatchImages(executed, index)
      invariant forall k: nat :: k < index ==> GoesOn(executed, canceled, stops, k)
    {
      var result := executed(index);
      out := out + [ToolResult(result.callId, result.output)];
      ran := index + 1;
      end := if result.aborts || canceled(index) then Aborted
             else if result.approvesPlan then PlanApproved
             else if stops(index) then FailureStop
             else Continue;
      assert Answered(executed, ran) == Answered(executed, index) + [ResultOf(result)];
      if end != Continue {
        out := AppendAbortedToolResults(out, calls[index + 1..]);
        BatchFollows(messages, calls, executed, ran);
        return;
      }
      images := images + result.images;
    }
    assert AbortedResults(calls[ran..]) == [];
    BatchFollows(messages, calls, executed, ran);
  }

  /* ---- what a batch leaves ---- */

  predicate IdsMatch(calls: seq<ToolCall>, executed: nat -> Executed, n: nat)
    requires n <= |calls|
  {
    forall k :: 0 <= k < n ==> executed(k).callId == calls[k].id
  }

  /** The results of a batch: the consumed ones, then the closed-out ones. */
  function BatchResults(calls: seq<ToolCall>, executed: nat -> Executed, ran: nat): seq<Message>
    requires ran <= |calls|
  {
    Answered(executed, ran) + AbortedResults(calls[ran..])
  }

  lemma BatchResultIds(calls: seq<ToolCall>, executed: nat -> Executed, ran: nat)
    requires ran <= |calls|
    ensures var results := BatchResults(calls, executed, ran);
      && |results| == |calls|
      && (forall k :: 0 <= k < |calls| ==> results[k].role == Tool)
      && ((forall k :: 0 <= k < |calls| ==> results[k].toolCallId == CallIds(calls)[k]) <==> IdsMatch(calls, executed, ran))
  {
    var results := BatchResults(calls, executed, ran);
    assert forall k :: 0 <= k < ran ==> results[k] == ResultOf(executed(k));
    assert forall k :: ran <= k < |calls| ==> results[k] == ToolResult(calls[k].id, ABORTED_NOTICE);
  }

  lemma ReadAssistant(ms: seq<Message>, assistant: Message)
    requires WellFormed(ms) && assistant.role == Assistant
    ensures Scan(START, ms + [assistant]) == Expect(false, CallIds(assistant.toolCalls))
  {
    assert (ms + [assistant])[..|ms|] == ms;
  }

  /** Whatever ends a batch, the transcript stays acceptable exactly when each consumed
      result carries its call's id. */
  lemma BatchIsWellFormedIff(ms: seq<Message>, assistant: Message, executed: nat -> Executed, ran: nat)
    requires WellFormed(ms) && assistant.role == Assistant && ran <= |assistant.toolCalls|
    ensures WellFormed(ms + [assistant] + Answered(executed, ran) + AbortedResults(assistant.toolCalls[ran..]))
      <==> IdsMatch(assistant.toolCalls, executed, ran)
  {
    hide IdsMatch, Answered, AbortedResults, CallIds;
    var calls := assistant.toolCalls;
    var results := BatchResults(calls, executed, ran);
    assert ms + [assistant] + Answered(executed, ran) + AbortedResults(calls[ran..]) == ms + [assistant] + results;
    ReadAssistant(ms, assistant);
    ScanConcat(START, ms + [assistant], results);
    BatchResultIds(calls, executed, ran);
    hide BatchResults, Scan;
    ReadResults(false, CallIds(calls), results);
  }

  /** Once a result is refused, nothing appended later repairs the transcript. */
  lemma RefusedForever(ms: seq<Message>, more: seq<Message>)
    requires Scan(START, ms) == Rejected
    ensures !WellFormed(ms + more)
  {
    ScanConcat(START, ms, more);
    RejectedStays(more);
  }

  /* ---- a whole tool turn ---- */

  function Notices(texts: seq<string>): (ms: seq<Message>)
    ensures |ms| == |texts| && forall k :: 0 <= k < |texts| ==> ms[k] == UserText(texts[k])
  {
    seq(|texts|, k requires 0 <= k < |texts| => UserText(texts[k]))
  }

  function ImageNotice(images: seq<string>): seq<Message> {
    if images == [] then [] else [Message(User, IMAGE_NOTICE, [], "", images, [])]
  }

  /** The reply as the transcript records it, with each call's arguments made safe. */
  predicate RecordsReply(m: Message, text: string, reasoning: seq<string>, calls: seq<ToolCall>, c: ArgumentCheck) {
    && m.role == Assistant && m.content == text && m.reasoning == reasoning && m.images == [] && m.toolCallId == ""
    && |m.toolCalls| == |calls|
    && forall k :: 0 <= k < |calls| ==>
         && m.toolCalls[k].id == calls[k].id && m.toolCalls[k].name == calls[k].name
         && RecordedAs(c, calls[k].arguments, m.toolCalls[k].arguments)
  }

  predicate UserSays(m: Message, text: string, images: seq<string>) {
    && m.role == User && m.content == text && m.images == images
    && m.toolCalls == [] && m.toolCallId == "" && m.reasoning == []
  }

  /** One message for the images, if there are any, and one for each notice. */
  predicate HoldsNotices(more: seq<Message>, images: seq<string>, notices: seq<string>) {
    var first := if images == [] then 0 else 1;
    && |more| == first + |notices|
    && (images != [] ==> UserSays(more[0], IMAGE_NOTICE, images))
    && forall k :: 0 <= k < |notices| ==> UserSays(more[first..][k], notices[k], [])
  }

  lemma NoticesFollow(images: seq<string>, notices: seq<string>)
    ensures HoldsNotices(ImageNotice(images) + Notices(notices), images, notices)
  {
    var head := ImageNotice(images);
    assert (head + Notices(notices))[|head|..] == Notices(notices);
  }

  /** A turn that called tools: the reply, the batch, and, when the run goes on, the images
      and the notices the guards and checks ask for. */
  method ToolTurn(messages: seq<Message>, text: string, reasoning: seq<string>, calls: seq<ToolCall>, c: ArgumentCheck,
                  executed: nat -> Executed, canceled: nat -> bool, stops: nat -> bool, noOpStop: bool, notices: seq<string>)
    returns (out: seq<Message>, end: Ending, ran: nat)
    requires LawfulCheck(c)
    ensures StoppedAfter(executed, canceled, stops, |calls|, ran, end)
    ensures WellFormed(messages) ==> (WellFormed(out) <==> IdsMatch(calls, executed, ran))
    ensures messages <= out && |out| >= |messages| + 1 + |calls|
    ensures RecordsReply(out[|messages|], text, reasoning, calls, c)
    ensures HoldsResults(out[|messages| + 1..|messages| + 1 + |calls|], calls, executed, ran)
    ensures var more := out[|messages| + 1 + |calls|..];
      if end != Continue || noOpStop then more == [] else HoldsNotices(more, BatchImages(executed, |calls|), notices)
  {
    hide WellFormed, RecordedAs, StoppedAfter, LawfulCheck, HoldsResults, HoldsNotices;
    var safe := HistorySafeToolCalls(c, calls);
    var assistant := Message(Assistant, text, safe, "", [], reasoning);
    out := messages + [assistant];
    var images;
    out, images, end, ran := RunToolBatch(out, calls, executed, canceled, stops);
    StoppedInRange(executed, canceled, stops, |calls|, ran, end);
    SameIdsSameTurn(calls, safe, executed, ran);
    if WellFormed(messages) {
      BatchIsWellFormedIff(messages, assistant, executed, ran);
    }
    ghost var batch := out;
    assert |batch| == |messages| + 1 + |calls|;
    assert batch[|messages| + 1..|messages| + 1 + |calls|] == batch[|messages| + 1..];
    if end != Continue || noOpStop {
      return;
    }
    var more := ImageNotice(images) + Notices(notices);
    UserMessagesKeep(batch, more);
    NoticesFollow(images, notices);
    out := out + more;
    assert out[|messages| + 1..|messages| + 1 + |calls|] == batch[|messages| + 1..];
    assert out[|messages| + 1 + |calls|..] == more;
  }

  lemma StoppedInRange(executed: nat -> Executed, canceled: nat -> bool, stops: nat -> bool, calls: nat, ran: nat, end: Ending)
    requires StoppedAfter(executed, canceled, stops, calls, ran, end)
    ensures ran <= calls
  {
  }

  lemma SameIdsSameTurn(calls: seq<ToolCall>, safe: seq<ToolCall>, executed: nat -> Executed, ran: nat)
    requires CallIds(safe) == CallIds(calls) && ran <= |calls|
    ensures |safe| == |calls|
    ensures IdsMatch(safe, executed, ran) <==> IdsMatch(calls, executed, ran)
    ensures AbortedResults(safe[ran..]) == AbortedResults(calls[ran..])
  {
    assert |CallIds(safe)| == |CallIds(calls)|;
    assert forall k :: 0 <= k < |calls| ==> CallIds(safe)[k] == CallIds(calls)[k];
  }

  /* ---- where a run starts ---- */

  predicate IsEmptySeed(m: Message) {
    m.content == "" && m.toolCalls == [] && m.toolCallId == "" && m.images == [] && m.reasoning == []
  }

  function Kept(initial: seq<Message>): seq<Message> {
    if initial == [] then []
    else
      var m := initial[|initial| - 1];
      Kept(initial[..|initial| - 1]) + if m.role == System || IsEmptySeed(m) then [] else [m]
  }

  function Seed(systemPrompt: string, prompt: string, images: seq<string>, initial: seq<Message>): seq<Message> {
    [Message(System, systemPrompt, [], "", [], [])] + Kept(initial) + [Message(User, prompt, [], "", images, [])]
  }

  method SeedRunMessages(systemPrompt: string, prompt: string, images: seq<string>, initial: seq<Message>)
    returns (messages: seq<Message>)
    ensures messages == Seed(systemPrompt, prompt, images, initial)
    ensures messages == [Message(System, systemPrompt, [], "", [], [])] + Kept(initial) + [Message(User, prompt, [], "", images, [])]
  {
    messages := [Message(System, systemPrompt, [], "", [], [])];
    ghost var head := messages;
    for i := 0 to |initial|
      invariant messages == head + Kept(initial[..i])
    {
      assert initial[..i + 1][..i] == initial[..i];
      if initial[i].role != System && !IsEmptySeed(initial[i]) {
        messages := messages + [initial[i]];
      }
    }
    assert initial[..|initial|] == initial;
    messages := messages + [Message(User, prompt, [], "", images, [])];
  }

  /** No result would be dropped from the history: one is only when it has neither id nor
      content. */
  predicate KeepsResults(ms: seq<Message>) {
    forall k :: 0 <= k < |ms| && ms[k].role == Tool ==> !IsEmptySeed(ms[k])
  }

  /** A dropped message changes nothing that is owed, and a kept one reads the same. */
  lemma ReadKept(st: Expect, st': Expect, m: Message)
    requires st.Expect? && st'.Expect? && st.owed == st'.owed && Read(st, m).Expect?
    requires m.role == Tool ==> !IsEmptySeed(m)
    ensures if m.role == System || IsEmptySeed(m) then Read(st, m).owed == st'.owed
            else Read(st', m).Expect? && Read(st', m).owed == Read(st, m).owed
  {
    if m.toolCalls == [] {
      assert CallIds(m.toolCalls) == [];
    }
  }

  /** The seed keeps, in order, every message that is neither a system text nor wholly empty. */
  lemma KeptAt(initial: seq<Message>, k: nat)
    requires k < |initial|
    ensures var m := initial[k];
      var kept := m.role != System && (m.content != "" || m.toolCalls != [] || m.toolCallId != "" || m.images != [] || m.reasoning != []);
      Kept(initial[..k + 1]) == Kept(initial[..k]) + if kept then [m] else []
  {
    assert initial[..k + 1][..k] == initial[..k];
  }

  lemma KeptStep(initial: seq<Message>, k: nat)
    requires k < |initial|
    ensures Kept(initial[..k + 1]) ==
      if initial[k].role == System || IsEmptySeed(initial[k]) then Kept(initial[..k]) else Kept(initial[..k]) + [initial[k]]
    ensures Scan(START, Kept(initial[..k + 1])) ==
      if initial[k].role == System || IsEmptySeed(initial[k]) then Scan(START, Kept(initial[..k]))
      else Read(Scan(START, Kept(initial[..k])), initial[k])
  {
    hide IsEmptySeed, Read;
    assert initial[..k + 1][..k] == initial[..k];
    var kept, m := Kept(initial[..k]), initial[k];
    assert kept + [] == kept;
    assert (kept + [m])[..|kept + [m]| - 1] == kept;
    assert Kept(initial[..k + 1]) == if m.role == System || IsEmptySeed(m) then kept else kept + [m];
  }

  /** Dropping system and empty messages leaves the reader owing the same results. */
  lemma {:induction false} KeptOwesTheSame(initial: seq<Message>, k: nat)
    requires k <= |initial| && KeepsResults(initial) && Scan(START, initial[..k]).Expect?
    ensures Scan(START, Kept(initial[..k])).Expect?
    ensures Scan(START, Kept(initial[..k])).owed == Scan(START, initial[..k]).owed
  {
    hide IsEmptySeed, Read, Kept;
    if k > 0 {
      ScanStep(initial, k - 1);
      RejectedRead(initial[k - 1]);
      KeptOwesTheSame(initial, k - 1);
      KeptStep(initial, k - 1);
      ReadKept(Scan(START, initial[..k - 1]), Scan(START, Kept(initial[..k - 1])), initial[k - 1]);
    } else {
      NothingKept(initial);
    }
  }

  lemma RejectedRead(m: Message)
    ensures Read(Rejected, m) == Rejected
  {
  }

  lemma NothingKept(initial: seq<Message>)
    ensures Kept(initial[..0]) == []
  {
  }

  /* -- an acceptable transcript answers as many calls as it makes -- */

  function ResultCount(ms: seq<Message>): nat {
    if ms == [] then 0 else ResultCount(ms[..|ms| - 1]) + if ms[|ms| - 1].role == Tool then 1 else 0
  }

  function CallCount(ms: seq<Message>): nat {
    if ms == [] then 0
    else CallCount(ms[..|ms| - 1]) + if ms[|ms| - 1].role == Assistant then |ms[|ms| - 1].toolCalls| else 0
  }

  lemma {:induction false} AcceptedCounts(st: Expect, ms: seq<Message>)
    requires st.Expect? && Scan(st, ms).Expect?
    ensures ResultCount(ms) + |Scan(st, ms).owed| == CallCount(ms) + |st.owed|
  {
    if ms != [] {
      AcceptedCounts(st, ms[..|ms| - 1]);
    }
  }

  lemma CountsSnoc(ms: seq<Message>, m: Message)
    ensures CallCount(ms + [m]) == CallCount(ms) + if m.role == Assistant then |m.toolCalls| else 0
    ensures ResultCount(ms + [m]) == ResultCount(ms) + if m.role == Tool then 1 else 0
  {
    assert (ms + [m])[..|ms|] == ms;
  }

  lemma EmptySeedHasNoCalls(m: Message)
    ensures IsEmptySeed(m) ==> m.toolCalls == []
  {
  }

  lemma {:induction false} KeptCounts(initial: seq<Message>)
    ensures CallCount(Kept(initial)) == CallCount(initial)
    ensures ResultCount(Kept(initial)) <= ResultCount(initial)
    ensures !KeepsResults(initial) ==> ResultCount(Kept(initial)) < ResultCount(initial)
  {
    hide CallCount, ResultCount, IsEmptySeed;
    if initial == [] {
      assert Kept(initial) == [];
    } else {
      var n := |initial| - 1;
      var kept, m := Kept(initial[..n]), initial[n];
      KeptCounts(initial[..n]);
      CountsSnoc(kept, m);
      CountsSnoc(initial[..n], m);
      EmptySeedHasNoCalls(m);
      assert kept + [] == kept && initial[..n] + [m] == initial;
      assert Kept(initial) == if m.role == System || IsEmptySeed(m) then kept else kept + [m];
    }
  }

  /** A run that resumes an acceptable history starts from an acceptable transcript exactly
      when no result in it lacks both id and content: the seed drops such a result. */
  lemma SeedIsWellFormedIff(systemPrompt: string, prompt: string, images: seq<string>, initial: seq<Message>)
    requires WellFormed(initial)
    ensures WellFormed(Seed(systemPrompt, prompt, images, initial)) <==> KeepsResults(initial)
  {
    hide KeepsResults, Kept, ResultCount, CallCount;
    var system, user := Message(System, systemPrompt, [], "", [], []), Message(User, prompt, [], "", images, []);
    assert initial[..|initial|] == initial;
    ScanConcat(START, [system], Kept(initial));
    assert [system][..0] == [];
    UserMessagesKeep([system] + Kept(initial), [user]);
    if KeepsResults(initial) {
      KeptOwesTheSame(initial, |initial|);
    } else {
      KeptCounts(initial);
      AcceptedCounts(START, initial);
      if Scan(START, Kept(initial)).Expect? {
        AcceptedCounts(START, Kept(initial));
      }
    }
  }

  /** Such a history: a call without an id whose tool wrote nothing. */
  lemma EmptyResultBreaksSeed(systemPrompt: string, prompt: string, images: seq<string>, text: string, call: ToolCall)
    requires call.id == ""
    ensures var initial := [Message(Assistant, text, [call], "", [], []), ToolResult("", "")];
      WellFormed(initial) && !WellFormed(Seed(systemPrompt, prompt, images, initial))
  {
    hide Seed, Kept, WellFormed;
    var assistant, result := Message(Assistant, text, [call], "", [], []), ToolResult("", "");
    var executed: nat -> Executed := k => Executed("", "", [], false, false);
    NothingRead();
    BatchIsWellFormedIff([], assistant, executed, 1);
    assert Answered(executed, 1) == [result] && AbortedResults([call][1..]) == [];
    assert [] + [assistant] + [result] + [] == [assistant, result];
    assert IsEmptySeed([assistant, result][1]);
    SeedIsWellFormedIff(systemPrompt, prompt, images, [assistant, result]);
  }

  lemma NothingRead()
    ensures WellFormed([])
  {
  }

  /* ---- every transcript a run reaches ---- */

  /** What the loop can do to its transcript between two requests. */
  datatype Event =
    | Notice(text: string, images: seq<string>)
    | Reply(text: string, reasoning: seq<string>)
    | Turn(assistant: Message, executed: nat -> Executed, ran: nat)
    | FreePrune(preserve: nat)
    | JudgePass(preserve: nat, ruling: Ruling)
    | Compact(opts: C.Options, tools: C.Tools, summarize: seq<Message> -> C.Outcome<string>, planned: int, boundary: nat)
    | StripImages
    | EditSystem(index: nat, content: string)

  ghost predicate Enabled(ms: seq<Message>, e: Event) {
    match e
    case Turn(assistant, executed, ran) =>
      assistant.role == Assistant && ran <= |assistant.toolCalls| && IdsMatch(assistant.toolCalls, executed, ran)
    case Compact(opts, tools, summarize, planned, boundary) =>
      && (opts.tailTurns == 0 ==> opts.preserveLast >= 0)
      && C.SystemEnd(ms) <= boundary <= |ms| && C.Cut(ms, opts, planned, boundary)
      && C.Answer(tools, opts, ms, summarize, boundary).Ok?
    case EditSystem(index, _) => index < |ms| && ms[index].role == System
    case _ => true
  }

  ghost function After(ms: seq<Message>, e: Event): seq<Message>
    requires Enabled(ms, e)
  {
    match e
    case Notice(text, images) => ms + [Message(User, text, [], "", images, [])]
    case Reply(text, reasoning) => ms + [Message(Assistant, text, [], "", [], reasoning)]
    case Turn(assistant, executed, ran) =>
      ms + [assistant] + Answered(executed, ran) + AbortedResults(assistant.toolCalls[ran..])
    case FreePrune(preserve) => Pruned(ms, preserve).0
    case JudgePass(preserve, ruling) => FloorKeepsCalls(ms, preserve); Judged(ms, Pruned(ms, preserve).0, preserve, ruling)
    case Compact(opts, tools, summarize, planned, boundary) => C.Answer(tools, opts, ms, summarize, boundary).value.messages
    case StripImages => S.Stripped(ms)
    case EditSystem(index, content) => ms[index := ms[index].(content := content)]
  }

  /** What the events that append or edit do: a notice is one user message, a reply one
      assistant message without calls, a turn the reply and one result a call; stripping takes
      the images alone, and an edit of a system text that text alone. */
  lemma EventEffects(ms: seq<Message>, e: Event)
    requires Enabled(ms, e)
    ensures var out := After(ms, e);
      && (e.Notice? ==> ms <= out && |out| == |ms| + 1 && UserSays(out[|ms|], e.text, e.images))
      && (e.Reply? ==> out == ms + [Message(Assistant, e.text, [], "", [], e.reasoning)])
      && (e.Turn? ==> ms + [e.assistant] <= out && HoldsResults(out[|ms| + 1..], e.assistant.toolCalls, e.executed, e.ran))
      && (e.StripImages? ==> |out| == |ms| && forall k :: 0 <= k < |ms| ==> out[k] == ms[k].(images := []))
      && (e.EditSystem? ==>
            && e.index < |ms| == |out| && out[e.index] == ms[e.index].(content := e.content)
            && forall k :: 0 <= k < |ms| && k != e.index ==> out[k] == ms[k])
  {
    hide HoldsResults;
    if e.Turn? {
      BatchFollows(ms + [e.assistant], e.assistant.toolCalls, e.executed, e.ran);
    }
  }

  lemma EventKeepsValidity(ms: seq<Message>, e: Event)
    requires WellFormed(ms) && Enabled(ms, e)
    ensures WellFormed(After(ms, e))
  {
    hide WellFormed, Pruned, Judged, IdsMatch;
    match e {
      case Notice(text, images) => UserMessagesKeep(ms, [Message(User, text, [], "", images, [])]);
      case Reply(text, reasoning) => ReplyKeepsValidity(ms, Message(Assistant, text, [], "", [], reasoning));
      case Turn(assistant, executed, ran) => BatchIsWellFormedIff(ms, assistant, executed, ran);
      case FreePrune(preserve) =>
        PruneKeepsFrames(ms, preserve);
        S.SameFramesWellFormed(ms, Pruned(ms, preserve).0);
      case JudgePass(preserve, ruling) =>
        JudgeKeepsFrames(ms, preserve, ruling);
        S.SameFramesWellFormed(ms, Judged(ms, Pruned(ms, preserve).0, preserve, ruling));
      case Compact(opts, tools, summarize, planned, boundary) =>
        var r := C.Answer(tools, opts, ms, summarize, boundary);
        S.CompactsBy(ms, opts, tools, summarize, r, planned, boundary);
        S.CompactsKeepsValidity(ms, opts, tools, summarize, r);
      case StripImages =>
        S.StrippedKeepsFrames(ms);
        S.SameFramesWellFormed(ms, S.Stripped(ms));
      case EditSystem(index, content) => S.SameFramesWellFormed(ms, After(ms, e));
    }
  }

  lemma ReplyKeepsValidity(ms: seq<Message>, m: Message)
    requires WellFormed(ms) && m.role == Assistant && m.toolCalls == []
    ensures WellFormed(ms + [m])
  {
    assert (ms + [m])[..|ms|] == ms;
  }

  /** The transcripts of a run, one per event. */
  ghost predicate IsRun(ts: seq<seq<Message>>, es: seq<Event>) {
    && |ts| == |es| + 1
    && forall k :: 0 <= k < |es| ==> Enabled(ts[k], es[k]) && ts[k + 1] == After(ts[k], es[k])
  }

  /** Every transcript of every run from an acceptable start is acceptable. */
  lemma {:induction false} RunsStayWellFormed(ts: seq<seq<Message>>, es: seq<Event>, k: nat)
    requires IsRun(ts, es) && k <= |es| && WellFormed(ts[0])
    ensures WellFormed(ts[k])
  {
    hide Enabled, After, WellFormed;
    if k > 0 {
      RunsStayWellFormed(ts, es, k - 1);
      EventKeepsValidity(ts[k - 1], es[k - 1]);
    }
  }
}
