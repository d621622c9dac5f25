/** The relevance judge: which stale items it may rewrite, how it asks about them, and what
    it makes of the answers. */
module Judge {
  import opened Text
  import opened Transcript
  import opened Extract
  import opened Prune

  const STATE_BYTE_BUDGET := 30000
  const MAX_WORK := 1000
  const MIN_ARG_TOKENS := 200
  const MIN_PROSE_TOKENS := 200
  const INPUT_BYTES := 600
  const RESULT_BYTES := 1500
  const KEEP_THRESHOLD := 0.35
  const EMPTY_ARGUMENTS := "{}"

  datatype Kind = Result | Arguments | Prose

  /** One stale item: a tool body, a call's arguments, or an assistant's narration. */
  datatype Candidate = Candidate(index: nat, call: int, id: string, kind: Kind, tool: string,
                                 argument: string, body: string, tokens: nat)

  /** A classifier answer; only a probability counts. */
  datatype Answer = Probability(p: real) | OtherAnswer

  /** What the judge works over: the history, its free prune, and its two hooks. */
  datatype Options = Options(drop: real, keep: real)

  /* ---- which items are stale ---- */

  /** Tokens of every tool body at or after `i`, duplicates included. */
  function ToolTokens(ms: seq<Message>, i: nat): nat
    requires i <= |ms|
    decreases |ms| - i
  {
    if i == |ms| then 0
    else ToolTokens(ms, i + 1) + if ms[i].role == Tool then Tokens(ms[i].content) else 0
  }

  /** Before the preserved tail, past the recent-output window, and free of reasoning. */
  predicate Judgeable(ms: seq<Message>, preserve: nat, i: nat)
    requires i < |ms|
  {
    && i < |ms| - preserve
    && ToolTokens(ms, i + 1) >= PROTECT_RECENT_TOKENS
    && ms[i].reasoning == []
  }

  /** The calls whose arguments no preserved-state reader parses. */
  predicate JudgeableCall(name: string) {
    name !in {TODO_WRITE, TOOL_SEARCH, SKILL, WRITE_FILE, EDIT_FILE} && TrimSpace(name) != ""
  }

  predicate JudgedResult(ms: seq<Message>, preserve: nat, i: nat)
    requires i < |ms|
  {
    && Judgeable(ms, preserve, i) && ms[i].role == Tool
    && Tokens(ms[i].content) >= MIN_BODY_TOKENS && !IsPrunedPlaceholder(ms[i].content)
  }

  predicate JudgedProse(ms: seq<Message>, preserve: nat, i: nat)
    requires i < |ms|
  {
    && Judgeable(ms, preserve, i) && ms[i].role == Assistant
    && ms[i].toolCalls != [] && Tokens(ms[i].content) >= MIN_PROSE_TOKENS
  }

  predicate JudgedArguments(ms: seq<Message>, preserve: nat, i: nat, j: nat)
    requires i < |ms| && j < |ms[i].toolCalls|
  {
    && Judgeable(ms, preserve, i) && ms[i].role == Assistant
    && JudgeableCall(ms[i].toolCalls[j].name) && Tokens(ms[i].toolCalls[j].arguments) >= MIN_ARG_TOKENS
  }

  /* ---- the candidates ---- */

  predicate CleanChar(c: char) {
    c == '-' || c == '_' || 'a' <= c <= 'z' || 'A' <= c <= 'Z' || '0' <= c <= '9'
  }

  function CleanToken(value: string): string {
    var id := TrimSpace(value);
    if forall k :: 0 <= k < |id| ==> CleanChar(id[k]) then id else ""
  }

  function ItemId(prefix: string, toolCallId: string, index: nat, sub: nat): string {
    if CleanToken(toolCallId) != "" then prefix + "_" + CleanToken(toolCallId)
    else prefix + "_index_" + Decimal(index) + "_" + Decimal(sub)
  }

  /** The arguments of the first call with this id. */
  function ArgumentOf(calls: seq<ToolCall>, id: string): string {
    if calls == [] then ""
    else if calls[0].id == id then calls[0].arguments
    else ArgumentOf(calls[1..], id)
  }

  function ResultCandidate(ms: seq<Message>, i: nat): Candidate
    requires i < |ms|
  {
    Candidate(i, -1, ItemId("result", ms[i].toolCallId, i, 0), Result, ToolLabel(NameOf(ToolNames(ms), ms[i].toolCallId)),
              ArgumentOf(AllCalls(ms), ms[i].toolCallId), ms[i].content, Tokens(ms[i].content))
  }

  function ProseCandidate(ms: seq<Message>, i: nat): Candidate
    requires i < |ms|
  {
    Candidate(i, -1, ItemId("prose", "", i, 0), Prose, "assistant", "", ms[i].content, Tokens(ms[i].content))
  }

  function ArgumentsCandidate(ms: seq<Message>, i: nat, j: nat): Candidate
    requires i < |ms| && j < |ms[i].toolCalls|
  {
    var call := ms[i].toolCalls[j];
    Candidate(i, j, ItemId("args", call.id, i, j), Arguments, ToolLabel(call.name), call.arguments, "", Tokens(call.arguments))
  }

  /** The argument candidates among the first `n` calls of message `i`. */
  function CallCandidates(ms: seq<Message>, preserve: nat, i: nat, n: nat): seq<Candidate>
    requires i < |ms| && n <= |ms[i].toolCalls|
  {
    if n == 0 then []
    else CallCandidates(ms, preserve, i, n - 1)
         + if JudgedArguments(ms, preserve, i, n - 1) then [ArgumentsCandidate(ms, i, n - 1)] else []
  }

  function MessageCandidates(ms: seq<Message>, preserve: nat, i: nat): seq<Candidate>
    requires i < |ms|
  {
    if JudgedResult(ms, preserve, i) then [ResultCandidate(ms, i)]
    else
      (if JudgedProse(ms, preserve, i) then [ProseCandidate(ms, i)] else [])
      + CallCandidates(ms, preserve, i, |ms[i].toolCalls|)
  }

  /** Newest message first. */
  function Candidates(ms: seq<Message>, preserve: nat, i: nat): seq<Candidate>
    requires i <= |ms|
    decreases |ms| - i
  {
    if i == |ms| then [] else Candidates(ms, preserve, i + 1) + MessageCandidates(ms, preserve, i)
  }

  method AddCallCandidates(messages: seq<Message>, preserve: nat, i: nat, found: seq<Candidate>)
    returns (candidates: seq<Candidate>)
    requires i < |messages| && Judgeable(messages, preserve, i) && messages[i].role == Assistant
    ensures candidates == found + CallCandidates(messages, preserve, i, |messages[i].toolCalls|)
  {
    hide JudgeableCall, Tokens, ItemId, ToolLabel, ToolTokens;
    candidates := found;
    for j := 0 to |messages[i].toolCalls|
      invariant candidates == found + CallCandidates(messages, preserve, i, j)
    {
      var call := messages[i].toolCalls[j];
      if JudgeableCall(call.name) {
        var tokens := ApproxTextTokens(call.arguments);
        if tokens >= MIN_ARG_TOKENS {
          candidates := candidates + [ArgumentsCandidate(messages, i, j)];
        }
      }
    }
  }

  lemma NoCallCandidates(ms: seq<Message>, preserve: nat, i: nat, n: nat)
    requires i < |ms| && n <= |ms[i].toolCalls| && !(Judgeable(ms, preserve, i) && ms[i].role == Assistant)
    ensures CallCandidates(ms, preserve, i, n) == []
  {
  }

  /** What the scan offers from one message, once it knows whether the message is stale. */
  method OfferMessage(messages: seq<Message>, preserve: nat, i: nat, stale: bool, found: seq<Candidate>)
    returns (candidates: seq<Candidate>)
    requires i < |messages|
    requires stale <==> i < |messages| - preserve && ToolTokens(messages, i + 1) >= PROTECT_RECENT_TOKENS
    ensures candidates == found + MessageCandidates(messages, preserve, i)
  {
    hide Tokens, ItemId, ToolLabel, IsPrunedPlaceholder, CallCandidates, ResultCandidate, ProseCandidate, ToolTokens;
    var msg := messages[i];
    candidates := found;
    if !(stale && |msg.reasoning| == 0 && msg.role == Assistant) {
      NoCallCandidates(messages, preserve, i, |msg.toolCalls|);
    }
    if stale && |msg.reasoning| == 0 {
      if msg.role == Tool {
        var bodyTokens := ApproxTextTokens(msg.content);
        if bodyTokens >= MIN_BODY_TOKENS && !IsPrunedPlaceholder(msg.content) {
          candidates := candidates + [ResultCandidate(messages, i)];
        }
      } else if msg.role == Assistant {
        if |msg.toolCalls| > 0 {
          var bodyTokens := ApproxTextTokens(msg.content);
          if bodyTokens >= MIN_PROSE_TOKENS {
            candidates := candidates + [ProseCandidate(messages, i)];
          }
        }
        candidates := AddCallCandidates(messages, preserve, i, candidates);
      }
    }
  }

  method JudgeCandidates(messages: seq<Message>, preserveLast: int) returns (candidates: seq<Candidate>)
    ensures candidates == Candidates(messages, if preserveLast < 0 then 0 else preserveLast, 0)
  {
    hide Tokens, MessageCandidates;
    var preserve: nat := if preserveLast < 0 then 0 else preserveLast;
    var protectUntil := |messages| - preserve;
    var recentToolTokens := 0;
    candidates := [];
    var i := |messages|;
    while i > 0
      invariant 0 <= i <= |messages|
      invariant recentToolTokens == ToolTokens(messages, i)
      invariant candidates == Candidates(messages, preserve, i)
    {
      i := i - 1;
      var stale := i < protectUntil && recentToolTokens >= PROTECT_RECENT_TOKENS;
      candidates := OfferMessage(messages, preserve, i, stale, candidates);
      if messages[i].role == Tool {
        var bodyTokens := ApproxTextTokens(messages[i].content);
        recentToolTokens := recentToolTokens + bodyTokens;
      }
    }
  }

  lemma {:induction false} CallCandidateIs(ms: seq<Message>, preserve: nat, i: nat, n: nat, c: Candidate)
    requires i < |ms| && n <= |ms[i].toolCalls|
    ensures c in CallCandidates(ms, preserve, i, n) <==>
      0 <= c.call < n && JudgedArguments(ms, preserve, i, c.call) && c == ArgumentsCandidate(ms, i, c.call)
  {
    hide ItemId, JudgedArguments, Tokens, ToolLabel;
    if n > 0 {
      CallCandidateIs(ms, preserve, i, n - 1, c);
    }
  }

  /** `c` is what the scan offers for some stale item of message `i`. */
  predicate OfferedBy(ms: seq<Message>, preserve: nat, i: nat, c: Candidate)
    requires i < |ms|
  {
    match c.kind
    case Result => JudgedResult(ms, preserve, i) && c == ResultCandidate(ms, i)
    case Prose => JudgedProse(ms, preserve, i) && c == ProseCandidate(ms, i)
    case Arguments =>
      0 <= c.call < |ms[i].toolCalls| && JudgedArguments(ms, preserve, i, c.call) && c == ArgumentsCandidate(ms, i, c.call)
  }

  lemma MessageCandidateIs(ms: seq<Message>, preserve: nat, i: nat, c: Candidate)
    requires i < |ms|
    ensures c in MessageCandidates(ms, preserve, i) <==> OfferedBy(ms, preserve, i, c)
  {
    hide ItemId, Judgeable, Tokens, ToolLabel, IsPrunedPlaceholder, JudgeableCall, CallCandidates;
    CallCandidateIs(ms, preserve, i, |ms[i].toolCalls|, c);
  }

  /** The scan offers exactly the stale items, each under its own message. */
  lemma {:induction false} CandidateIs(ms: seq<Message>, preserve: nat, from: nat, c: Candidate)
    requires from <= |ms|
    ensures c in Candidates(ms, preserve, from) <==> from <= c.index < |ms| && OfferedBy(ms, preserve, c.index, c)
    decreases |ms| - from
  {
    hide ItemId, Judgeable, Tokens, ToolLabel, IsPrunedPlaceholder, JudgeableCall, MessageCandidates;
    if from < |ms| {
      CandidateIs(ms, preserve, from + 1, c);
      MessageCandidateIs(ms, preserve, from, c);
    }
  }

  /* ---- asking in batches ---- */

  function Lesser(a: nat, b: nat): nat {
    if a < b then a else b
  }

  function KindName(k: Kind): string {
    match k case Result => "tool_result" case Arguments => "tool_args" case Prose => "assistant"
  }

  function CandidateBytes(c: Candidate): nat {
    |c.id| + |KindName(c.kind)| + |c.tool| + 64
    + if c.kind == Arguments then Lesser(|c.argument|, RESULT_BYTES)
      else Lesser(|c.argument|, INPUT_BYTES) + Lesser(|c.body|, RESULT_BYTES)
  }

  function BatchBytes(batch: seq<Candidate>): nat {
    if batch == [] then 0 else BatchBytes(batch[..|batch| - 1]) + CandidateBytes(batch[|batch| - 1])
  }

  /** A request is not empty, and over the budget only when it holds a single item. */
  predicate FitsRequest(batch: seq<Candidate>) {
    batch != [] && (|batch| == 1 || BatchBytes(batch) <= STATE_BYTE_BUDGET)
  }

  function Joined(batches: seq<seq<Candidate>>): seq<Candidate> {
    if batches == [] then [] else Joined(batches[..|batches| - 1]) + batches[|batches| - 1]
  }

  /** The classifier's reply to the n-th request, or nothing when it failed. */
  type Classifier = (nat, seq<Candidate>) -> Option<map<string, Answer>>

  /** Later replies override earlier ones; a failed request adds nothing. */
  function Replies(classify: Classifier, batches: seq<seq<Candidate>>): map<string, Answer> {
    if batches == [] then map[]
    else
      var n := |batches| - 1;
      var before := Replies(classify, batches[..n]);
      var reply := classify(n, batches[n]);
      if reply.Some? then before + reply.value else before
  }

  function Work(candidates: seq<Candidate>): seq<Candidate> {
    if |candidates| > MAX_WORK then candidates[..MAX_WORK] else candidates
  }

  ghost predicate AllFit(batches: seq<seq<Candidate>>) {
    forall k :: 0 <= k < |batches| ==> FitsRequest(batches[k])
  }

  /** The requests sent once the items of `work` are packed, and the one still open. */
  function Packing(work: seq<Candidate>): (seq<seq<Candidate>>, seq<Candidate>) {
    if work == [] then ([], [])
    else
      var (sent, batch) := Packing(work[..|work| - 1]);
      var next := work[|work| - 1];
      if batch != [] && BatchBytes(batch) + CandidateBytes(next) > STATE_BYTE_BUDGET then (sent + [batch], [next])
      else (sent, batch + [next])
  }

  function Requests(work: seq<Candidate>): seq<seq<Candidate>> {
    var (sent, batch) := Packing(work);
    if batch == [] then sent else sent + [batch]
  }

  lemma AddToBatch(batch: seq<Candidate>, c: Candidate)
    ensures BatchBytes(batch + [c]) == BatchBytes(batch) + CandidateBytes(c)
    ensures batch == [] || BatchBytes(batch) + CandidateBytes(c) <= STATE_BYTE_BUDGET ==> FitsRequest(batch + [c])
  {
    hide CandidateBytes;
    assert (batch + [c])[..|batch|] == batch;
  }

  lemma JoinedSnoc(batches: seq<seq<Candidate>>, batch: seq<Candidate>)
    ensures Joined(batches + [batch]) == Joined(batches) + batch
  {
    assert (batches + [batch])[..|batches|] == batches;
  }

  lemma {:induction false} PackingCovers(work: seq<Candidate>)
    ensures var (sent, batch) := Packing(work);
      && Joined(sent) + batch == work && AllFit(sent) && (batch != [] ==> FitsRequest(batch))
  {
    hide FitsRequest, BatchBytes, CandidateBytes, Joined;
    if work == [] {
      NothingJoined();
    } else {
      var (sent, batch) := Packing(work[..|work| - 1]);
      var next := work[|work| - 1];
      PackingCovers(work[..|work| - 1]);
      AddToBatch(batch, next);
      AddToBatch([], next);
      JoinedSnoc(sent, batch);
      assert work == work[..|work| - 1] + [next];
      assert [] + [next] == [next];
      assert Joined(sent) + batch + [next] == Joined(sent) + (batch + [next]);
    }
  }

  lemma NothingJoined()
    ensures Joined([]) == [] && BatchBytes([]) == 0
  {
  }

  /** Every item is in exactly one request, in order, and every request fits its budget or
      holds a single item. */
  lemma RequestsPartition(work: seq<Candidate>)
    ensures Joined(Requests(work)) == work && AllFit(Requests(work))
  {
    hide FitsRequest, Joined, Packing;
    PackingCovers(work);
    var (sent, batch) := Packing(work);
    JoinedSnoc(sent, batch);
    assert batch == [] ==> Joined(sent) + batch == Joined(sent);
  }

  /** Asks about the first thousand items, packed greedily. */
  method JudgeAnswers(classify: Classifier, candidates: seq<Candidate>) returns (answered: map<string, Answer>)
    ensures answered == Replies(classify, Requests(Work(candidates)))
  {
    hide BatchBytes, CandidateBytes, Work, Replies, Packing;
    answered := map[];
    var sent: seq<seq<Candidate>>, batch: seq<Candidate>, bytes := [], [], 0;
    var work := Work(candidates);
    NothingAsked(classify, work);
    for i := 0 to |work|
      invariant (sent, batch) == Packing(work[..i])
      invariant answered == Replies(classify, sent) && bytes == BatchBytes(batch)
    {
      PackOne(work, i);
      var candidateBytes := CandidateBytes(work[i]);
      if |batch| > 0 && bytes + candidateBytes > STATE_BYTE_BUDGET {
        answered := Ask(classify, batch, answered, sent);
        sent := sent + [batch];
        batch, bytes := [], 0;
      }
      AddToBatch(batch, work[i]);
      batch := batch + [work[i]];
      bytes := bytes + candidateBytes;
    }
    assert work[..|work|] == work;
    if |batch| > 0 {
      answered := Ask(classify, batch, answered, sent);
    }
  }

  lemma NothingAsked(classify: Classifier, work: seq<Candidate>)
    ensures BatchBytes([]) == 0 && Replies(classify, []) == map[] && Packing(work[..0]) == ([], [])
  {
  }

  lemma PackOne(work: seq<Candidate>, i: nat)
    requires i < |work|
    ensures var (sent, batch) := Packing(work[..i]);
      Packing(work[..i + 1]) ==
        if batch != [] && BatchBytes(batch) + CandidateBytes(work[i]) > STATE_BYTE_BUDGET then (sent + [batch], [] + [work[i]])
        else (sent, batch + [work[i]])
    ensures BatchBytes([]) == 0
  {
    hide CandidateBytes;
    assert work[..i + 1][..i] == work[..i];
    assert [] + [work[i]] == [work[i]];
  }

  method Ask(classify: Classifier, batch: seq<Candidate>, known: map<string, Answer>, before: seq<seq<Candidate>>)
    returns (answered: map<string, Answer>)
    requires known == Replies(classify, before)
    ensures answered == Replies(classify, before + [batch])
  {
    assert (before + [batch])[..|before|] == before;
    var reply := classify(|before|, batch);
    answered := if reply.Some? then known + reply.value else known;
  }

  /* ---- the rewritten history ---- */

  /** The answers, the drop threshold in force, and the text that replaces a dropped body. */
  datatype Ruling = Ruling(answered: map<string, Answer>, drop: real, recover: nat -> string)

  datatype Verdict = Unanswered | Kept | Dropped

  function VerdictOn(ruling: Ruling, id: string): Verdict {
    if id !in ruling.answered || ruling.answered[id].OtherAnswer? then Unanswered
    else if ruling.answered[id].p < ruling.drop then Dropped
    else Kept
  }

  function ContentFor(ms: seq<Message>, base: seq<Message>, preserve: nat, ruling: Ruling, i: nat): string
    requires i < |ms| == |base|
  {
    if JudgedResult(ms, preserve, i) then
      match VerdictOn(ruling, ResultCandidate(ms, i).id)
      case Unanswered => base[i].content
      case Kept => ms[i].content
      case Dropped => ruling.recover(i)
    else if JudgedProse(ms, preserve, i) && VerdictOn(ruling, ProseCandidate(ms, i).id) == Dropped then ""
    else base[i].content
  }

  predicate ArgumentsDropped(ms: seq<Message>, preserve: nat, ruling: Ruling, i: nat, j: nat)
    requires i < |ms| && j < |ms[i].toolCalls|
  {
    JudgedArguments(ms, preserve, i, j) && VerdictOn(ruling, ArgumentsCandidate(ms, i, j).id) == Dropped
  }

  function CallsFor(ms: seq<Message>, preserve: nat, ruling: Ruling, i: nat): (calls: seq<ToolCall>)
    requires i < |ms|
    ensures |calls| == |ms[i].toolCalls|
  {
    seq(|ms[i].toolCalls|, j requires 0 <= j < |ms[i].toolCalls| =>
      if ArgumentsDropped(ms, preserve, ruling, i, j) then ms[i].toolCalls[j].(arguments := EMPTY_ARGUMENTS)
      else ms[i].toolCalls[j])
  }

  /** The history the judge leaves over the floor `base`. */
  function Judged(ms: seq<Message>, base: seq<Message>, preserve: nat, ruling: Ruling): (out: seq<Message>)
    requires |ms| == |base|
    ensures |out| == |ms|
  {
    seq(|ms|, i requires 0 <= i < |ms| =>
      base[i].(content := ContentFor(ms, base, preserve, ruling, i), toolCalls := CallsFor(ms, preserve, ruling, i)))
  }

  /** The body edit one answered candidate asks for. */
  function ContentEdit(c: Candidate, base: seq<Message>, ruling: Ruling): Option<string>
    requires c.index < |base|
  {
    var verdict := VerdictOn(ruling, c.id);
    match c.kind
    case Result =>
      var replace := if verdict == Dropped then ruling.recover(c.index) else c.body;
      if verdict == Unanswered || replace == base[c.index].content then None else Some(replace)
    case Prose =>
      if verdict != Dropped || base[c.index].content == "" then None else Some("")
    case Arguments => None
  }

  predicate ArgumentEdit(c: Candidate, ruling: Ruling) {
    c.kind == Arguments && VerdictOn(ruling, c.id) == Dropped
  }

  predicate InRange(candidates: seq<Candidate>, base: seq<Message>) {
    forall k :: 0 <= k < |candidates| ==> candidates[k].index < |base|
  }

  /** The two edit tables agree with the candidates read so far. */
  ghost predicate EditsSoFar(candidates: seq<Candidate>, base: seq<Message>, ruling: Ruling, n: nat,
                             contents: map<nat, string>, arguments: set<(nat, int)>)
    requires n <= |candidates| && InRange(candidates, base)
  {
    && (forall i: nat :: i in contents ==>
          exists k :: 0 <= k < n && candidates[k].index == i && ContentEdit(candidates[k], base, ruling) == Some(contents[i]))
    && (forall k :: 0 <= k < n && ContentEdit(candidates[k], base, ruling).Some? ==> candidates[k].index in contents)
    && (forall k :: 0 <= k < n && ArgumentEdit(candidates[k], ruling) ==> (candidates[k].index, candidates[k].call) in arguments)
    && (forall a :: a in arguments ==>
          exists k :: 0 <= k < n && candidates[k].index == a.0 && candidates[k].call == a.1 && ArgumentEdit(candidates[k], ruling))
  }

  method CollectEdits(candidates: seq<Candidate>, base: seq<Message>, ruling: Ruling)
    returns (contents: map<nat, string>, arguments: set<(nat, int)>)
    requires InRange(candidates, base)
    ensures EditsSoFar(candidates, base, ruling, |candidates|, contents, arguments)
  {
    hide VerdictOn;
    contents, arguments := map[], {};
    for k := 0 to |candidates|
      invariant EditsSoFar(candidates, base, ruling, k, contents, arguments)
    {
      var c := candidates[k];
      ghost var before := contents;
      var verdict := VerdictOn(ruling, c.id);
      if verdict != Unanswered {
        match c.kind {
          case Result =>
            var replace := if verdict == Dropped then ruling.recover(c.index) else c.body;
            if replace != base[c.index].content {
              contents := contents[c.index := replace];
            }
          case Arguments =>
            if verdict == Dropped {
              arguments := arguments + {(c.index, c.call)};
            }
          case Prose =>
            if verdict == Dropped && base[c.index].content != "" {
              contents := contents[c.index := ""];
            }
        }
      }
      assert ContentEdit(c, base, ruling).Some? ==> contents == before[c.index := ContentEdit(c, base, ruling).value];
      assert ContentEdit(c, base, ruling).None? ==> contents == before;
    }
  }

  method RewriteToolCallArguments(calls: seq<ToolCall>, i: nat, edits: set<(nat, int)>) returns (out: seq<ToolCall>)
    ensures |out| == |calls|
    ensures forall j :: 0 <= j < |calls| ==>
      out[j] == if (i, j) in edits then calls[j].(arguments := EMPTY_ARGUMENTS) else calls[j]
  {
    out := calls;
    for j := 0 to |calls|
      invariant |out| == |calls|
      invariant forall k :: 0 <= k < |calls| ==>
        out[k] == if k < j && (i, k) in edits then calls[k].(arguments := EMPTY_ARGUMENTS) else calls[k]
    {
      if (i, j) in edits {
        out := out[j := out[j].(arguments := EMPTY_ARGUMENTS)];
      }
    }
  }

  lemma RolesDiffer(ms: seq<Message>, preserve: nat, i: nat)
    requires i < |ms|
    ensures !(JudgedResult(ms, preserve, i) && JudgedProse(ms, preserve, i))
  {
  }

  /** The two tables hold what the scan's candidates ask for. */
  ghost predicate Tabled(ms: seq<Message>, base: seq<Message>, preserve: nat, ruling: Ruling,
                         contents: map<nat, string>, arguments: set<(nat, int)>)
  {
    && |ms| == |base|
    && InRange(Candidates(ms, preserve, 0), base)
    && EditsSoFar(Candidates(ms, preserve, 0), base, ruling, |Candidates(ms, preserve, 0)|, contents, arguments)
  }

  /** A candidate that asks for a body edit gets one, and an edit has such a candidate. */
  lemma EditFromCandidate(ms: seq<Message>, base: seq<Message>, preserve: nat, ruling: Ruling,
                          contents: map<nat, string>, arguments: set<(nat, int)>, i: nat) returns (c: Candidate)
    requires i < |ms| == |base| && Tabled(ms, base, preserve, ruling, contents, arguments) && i in contents
    ensures c.index == i && OfferedBy(ms, preserve, i, c) && ContentEdit(c, base, ruling) == Some(contents[i])
  {
    hide Candidates, OfferedBy, ContentEdit;
    var cs := Candidates(ms, preserve, 0);
    var k :| 0 <= k < |cs| && cs[k].index == i && ContentEdit(cs[k], base, ruling) == Some(contents[i]);
    CandidateIs(ms, preserve, 0, cs[k]);
    c := cs[k];
  }

  lemma EditForCandidate(ms: seq<Message>, base: seq<Message>, preserve: nat, ruling: Ruling,
                         contents: map<nat, string>, arguments: set<(nat, int)>, c: Candidate)
    requires c.index < |ms| == |base| && Tabled(ms, base, preserve, ruling, contents, arguments)
    requires OfferedBy(ms, preserve, c.index, c) && ContentEdit(c, base, ruling).Some?
    ensures c.index in contents
  {
    hide Candidates, OfferedBy, ContentEdit;
    CandidateIs(ms, preserve, 0, c);
    var cs := Candidates(ms, preserve, 0);
    var k :| 0 <= k < |cs| && cs[k] == c;
  }

  lemma CandidateFields(ms: seq<Message>, i: nat)
    requires i < |ms|
    ensures var c := ResultCandidate(ms, i); c.index == i && c.kind == Result && c.body == ms[i].content
    ensures var c := ProseCandidate(ms, i); c.index == i && c.kind == Prose
  {
    hide ItemId, Tokens, ToolLabel, ArgumentOf, AllCalls, ToolNames;
  }

  lemma EditedContent(ms: seq<Message>, base: seq<Message>, preserve: nat, ruling: Ruling, i: nat, c: Candidate, text: string)
    requires i < |ms| == |base| && c.index == i && OfferedBy(ms, preserve, i, c) && ContentEdit(c, base, ruling) == Some(text)
    ensures ContentFor(ms, base, preserve, ruling, i) == text
  {
    RolesDiffer(ms, preserve, i);
    CandidateFields(ms, i);
    hide VerdictOn, JudgedResult, JudgedProse, JudgedArguments, ResultCandidate, ProseCandidate, ArgumentsCandidate;
  }

  lemma UneditedContent(ms: seq<Message>, base: seq<Message>, preserve: nat, ruling: Ruling, i: nat)
    requires i < |ms| == |base|
    ensures JudgedResult(ms, preserve, i) && ContentEdit(ResultCandidate(ms, i), base, ruling).None?
      ==> ContentFor(ms, base, preserve, ruling, i) == base[i].content
    ensures !JudgedResult(ms, preserve, i) && JudgedProse(ms, preserve, i) && ContentEdit(ProseCandidate(ms, i), base, ruling).None?
      ==> ContentFor(ms, base, preserve, ruling, i) == base[i].content
    ensures !JudgedResult(ms, preserve, i) && !JudgedProse(ms, preserve, i)
      ==> ContentFor(ms, base, preserve, ruling, i) == base[i].content
  {
    CandidateFields(ms, i);
    hide VerdictOn, JudgedResult, JudgedProse, ResultCandidate, ProseCandidate;
  }

  /** The table entry of message `i` is what its own candidate asks for. */
  lemma TableContent(ms: seq<Message>, base: seq<Message>, preserve: nat, ruling: Ruling,
                     contents: map<nat, string>, arguments: set<(nat, int)>, i: nat)
    requires i < |ms| == |base| && Tabled(ms, base, preserve, ruling, contents, arguments)
    ensures (if i in contents then contents[i] else base[i].content) == ContentFor(ms, base, preserve, ruling, i)
  {
    CandidateFields(ms, i);
    hide Tabled, JudgedResult, JudgedProse, JudgedArguments, ResultCandidate, ProseCandidate, ArgumentsCandidate,
      ContentFor, ContentEdit;
    if i in contents {
      var c := EditFromCandidate(ms, base, preserve, ruling, contents, arguments, i);
      EditedContent(ms, base, preserve, ruling, i, c, contents[i]);
    } else {
      UneditedContent(ms, base, preserve, ruling, i);
      if JudgedResult(ms, preserve, i) {
        if ContentEdit(ResultCandidate(ms, i), base, ruling).Some? {
          EditForCandidate(ms, base, preserve, ruling, contents, arguments, ResultCandidate(ms, i));
        }
      } else if JudgedProse(ms, preserve, i) {
        if ContentEdit(ProseCandidate(ms, i), base, ruling).Some? {
          EditForCandidate(ms, base, preserve, ruling, contents, arguments, ProseCandidate(ms, i));
        }
      }
    }
  }

  lemma TableArguments(ms: seq<Message>, base: seq<Message>, preserve: nat, ruling: Ruling,
                       contents: map<nat, string>, arguments: set<(nat, int)>, i: nat, j: nat)
    requires i < |ms| == |base| && j < |ms[i].toolCalls| && Tabled(ms, base, preserve, ruling, contents, arguments)
    ensures (i, j) in arguments <==> ArgumentsDropped(ms, preserve, ruling, i, j)
  {
    hide Candidates, Judgeable, ItemId, Tokens, ToolLabel, IsPrunedPlaceholder, VerdictOn, JudgedArguments, ContentEdit;
    var cs := Candidates(ms, preserve, 0);
    if (i, j) in arguments {
      var k :| 0 <= k < |cs| && cs[k].index == i && cs[k].call == j && ArgumentEdit(cs[k], ruling);
      CandidateIs(ms, preserve, 0, cs[k]);
    }
    if ArgumentsDropped(ms, preserve, ruling, i, j) {
      CandidateIs(ms, preserve, 0, ArgumentsCandidate(ms, i, j));
      var k :| 0 <= k < |cs| && cs[k] == ArgumentsCandidate(ms, i, j);
      assert ArgumentEdit(cs[k], ruling);
    }
  }

  lemma CandidatesInRange(ms: seq<Message>, base: seq<Message>, preserve: nat)
    requires |ms| == |base|
    ensures InRange(Candidates(ms, preserve, 0), base)
  {
    hide Candidates, OfferedBy;
    var cs := Candidates(ms, preserve, 0);
    forall k | 0 <= k < |cs| ensures cs[k].index < |base| {
      CandidateIs(ms, preserve, 0, cs[k]);
    }
  }

  method ApplyEdits(messages: seq<Message>, base: seq<Message>, preserve: nat, ruling: Ruling,
                    contents: map<nat, string>, arguments: set<(nat, int)>)
    returns (out: seq<Message>)
    requires |messages| == |base| && forall k :: 0 <= k < |base| ==> base[k].toolCalls == messages[k].toolCalls
    requires Tabled(messages, base, preserve, ruling, contents, arguments)
    ensures out == Judged(messages, base, preserve, ruling)
  {
    hide Tabled, ContentFor, ArgumentsDropped;
    out := [];
    for i := 0 to |base|
      invariant out == Judged(messages, base, preserve, ruling)[..i]
    {
      var content := if i in contents then contents[i] else base[i].content;
      var calls := RewriteToolCallArguments(base[i].toolCalls, i, arguments);
      TableContent(messages, base, preserve, ruling, contents, arguments, i);
      forall j | 0 <= j < |messages[i].toolCalls|
        ensures (i, j) in arguments <==> ArgumentsDropped(messages, preserve, ruling, i, j)
      {
        TableArguments(messages, base, preserve, ruling, contents, arguments, i, j);
      }
      assert calls == CallsFor(messages, preserve, ruling, i);
      out := out + [base[i].(content := content, toolCalls := calls)];
    }
  }

  /** The threshold below which an item is dropped: an unset or inverted band is the keep
      threshold, which is 0.35 when unset too. */
  function DropThreshold(opts: Options): (drop: real)
    ensures drop > 0.0
    ensures opts.drop <= 0.0 && opts.keep <= 0.0 ==> drop == KEEP_THRESHOLD
    ensures opts.drop <= 0.0 < opts.keep ==> drop == opts.keep
    ensures 0.0 < opts.drop && opts.keep <= 0.0 ==> drop == if opts.drop > KEEP_THRESHOLD then KEEP_THRESHOLD else opts.drop
    ensures 0.0 < opts.drop <= opts.keep ==> drop == opts.drop
    ensures 0.0 < opts.keep < opts.drop ==> drop == opts.keep
  {
    var keep := if opts.keep <= 0.0 then KEEP_THRESHOLD else opts.keep;
    if opts.drop <= 0.0 || opts.drop > keep then keep else opts.drop
  }

  /** What the judge is asked about, and what it makes of the replies. */
  function RulingOn(classify: Classifier, ms: seq<Message>, preserve: nat, opts: Options, recover: nat -> string): Ruling {
    Ruling(Replies(classify, Requests(Work(Candidates(ms, preserve, 0)))), DropThreshold(opts), recover)
  }

  /** Filters the stale history over its free prune; nothing when there was nothing to ask
      or no answer. */
  method JudgeStaleHistory(classify: Classifier, messages: seq<Message>, floor: seq<Message>, preserveLast: int,
                           opts: Options, recover: nat -> string)
    returns (judged: Option<seq<Message>>)
    requires |floor| == |messages| ==> floor == Pruned(messages, if preserveLast < 0 then 0 else preserveLast).0
    ensures var preserve := if preserveLast < 0 then 0 else preserveLast;
      var ruling := RulingOn(classify, messages, preserve, opts, recover);
      judged == if ruling.answered == map[] then None
                else Some(Judged(messages, Pruned(messages, preserve).0, preserve, ruling))
  {
    hide Candidates, Requests, Replies, Pruned, Judged, DropThreshold, Tabled, InRange, EditsSoFar;
    var preserve := if preserveLast < 0 then 0 else preserveLast;
    NoRequests(classify);
    var candidates := JudgeCandidates(messages, preserveLast);
    if |candidates| == 0 {
      return None;
    }
    var answered := JudgeAnswers(classify, candidates);
    if |answered| == 0 {
      return None;
    }
    var base := floor;
    if |base| != |messages| {
      var pruned, _ := PruneStaleToolOutput(messages, preserveLast);
      base := pruned;
    }
    FloorKeepsCalls(messages, preserve);
    CandidatesInRange(messages, base, preserve);
    var ruling := Ruling(answered, DropThreshold(opts), recover);
    var contents, arguments := CollectEdits(candidates, base, ruling);
    TablesHold(messages, base, preserve, ruling, contents, arguments);
    var out := ApplyEdits(messages, base, preserve, ruling, contents, arguments);
    judged := Some(out);
  }

  lemma TablesHold(ms: seq<Message>, base: seq<Message>, preserve: nat, ruling: Ruling,
                   contents: map<nat, string>, arguments: set<(nat, int)>)
    requires |ms| == |base| && InRange(Candidates(ms, preserve, 0), base)
    requires EditsSoFar(Candidates(ms, preserve, 0), base, ruling, |Candidates(ms, preserve, 0)|, contents, arguments)
    ensures Tabled(ms, base, preserve, ruling, contents, arguments)
  {
    hide Candidates, InRange, EditsSoFar;
  }

  lemma NoRequests(classify: Classifier)
    ensures Replies(classify, Requests(Work([]))) == map[]
  {
  }

  lemma FloorKeepsCalls(ms: seq<Message>, preserve: nat)
    ensures var base := Pruned(ms, preserve).0;
      |base| == |ms| && forall k :: 0 <= k < |ms| ==> base[k] == ms[k].(content := base[k].content)
  {
    hide Pruned, IsPrunedPlaceholder, Tokens;
    PruneKeepsFrames(ms, preserve);
    forall k | 0 <= k < |ms| ensures Pruned(ms, preserve).0[k] == ms[k].(content := Pruned(ms, preserve).0[k].content) {
      PruneTouchesOnlyStaleResults(ms, preserve, k);
    }
  }

  /* ---- what the judge guarantees ---- */

  lemma JudgeKeepsFrames(ms: seq<Message>, preserve: nat, ruling: Ruling)
    ensures |Pruned(ms, preserve).0| == |ms|
    ensures SameFrames(ms, Judged(ms, Pruned(ms, preserve).0, preserve, ruling))
  {
    hide Pruned, ContentFor, ArgumentsDropped;
    FloorKeepsCalls(ms, preserve);
    var base := Pruned(ms, preserve).0;
    forall i | 0 <= i < |ms| ensures SameFrame(ms[i], Judged(ms, base, preserve, ruling)[i]) {
      assert base[i] == ms[i].(content := base[i].content);
      var calls := CallsFor(ms, preserve, ruling, i);
      assert forall j :: 0 <= j < |calls| ==> calls[j].id == ms[i].toolCalls[j].id;
    }
  }

  lemma FreshCallsAreKept(ms: seq<Message>, preserve: nat, ruling: Ruling, i: nat)
    requires i < |ms|
    ensures Judgeable(ms, preserve, i) || CallsFor(ms, preserve, ruling, i) == ms[i].toolCalls
  {
    hide VerdictOn, Tokens, JudgeableCall;
  }

  /** Over its floor the judge touches only reasoning-free messages that 40000 tokens of
      tool output follow, outside the preserved tail. */
  lemma JudgeEditsOnlyStale(ms: seq<Message>, base: seq<Message>, preserve: nat, ruling: Ruling, i: nat)
    requires i < |ms| == |base| && base[i] == ms[i].(content := base[i].content)
    requires Judged(ms, base, preserve, ruling)[i] != base[i]
    ensures ms[i].reasoning == [] && i < |ms| - preserve && ToolTokens(ms, i + 1) >= PROTECT_RECENT_TOKENS
  {
    hide Tokens, VerdictOn, ResultCandidate, ProseCandidate, ArgumentsCandidate, JudgeableCall;
    FreshCallsAreKept(ms, preserve, ruling, i);
  }

  /** Every reasoning-free body the second prune pass would drop is a candidate; the first
      thousand candidates are asked about. */
  lemma JudgeCoversPrune(ms: seq<Message>, preserve: nat, i: nat)
    requires i < |ms| && Stale(ms, preserve, i) && ms[i].reasoning == []
    ensures ResultCandidate(ms, i) in Candidates(ms, preserve, 0)
  {
    hide Candidates, Tokens, IsPrunedPlaceholder, StaleBody, Collapsed, ResultCandidate;
    RecentIsLess(ms, preserve, i + 1);
    ResultIsOffered(ms, preserve, i);
  }

  lemma ResultIsOffered(ms: seq<Message>, preserve: nat, i: nat)
    requires i < |ms| && JudgedResult(ms, preserve, i)
    ensures ResultCandidate(ms, i) in Candidates(ms, preserve, 0)
  {
    hide Candidates, JudgedResult;
    CandidateIs(ms, preserve, 0, ResultCandidate(ms, i));
  }

  lemma {:induction false} RecentIsLess(ms: seq<Message>, preserve: nat, i: nat)
    requires i <= |ms|
    ensures RecentTokens(ms, preserve, i) <= ToolTokens(ms, i)
    decreases |ms| - i
  {
    hide Collapsed, Tokens;
    if i < |ms| {
      RecentIsLess(ms, preserve, i + 1);
    }
  }

  /** The judge drops a body the prune kept exactly when that body is stale by the judge's
      own count, the answer is below the threshold, and the replacement differs. */
  lemma JudgeDropsKeptBodyIff(ms: seq<Message>, base: seq<Message>, preserve: nat, ruling: Ruling, i: nat)
    requires i < |ms| == |base| && base[i] == ms[i] && ms[i].role == Tool
    ensures Judged(ms, base, preserve, ruling)[i].content != ms[i].content <==>
      && JudgedResult(ms, preserve, i)
      && VerdictOn(ruling, ResultCandidate(ms, i).id) == Dropped
      && ruling.recover(i) != ms[i].content
  {
    hide JudgedResult, VerdictOn, ResultCandidate, CallsFor;
  }

  /** Results at 1 and 2: too little is stale for the prune to act. */
  lemma TooLittleToPrune(ms: seq<Message>, preserve: nat)
    requires |ms| >= 3 && ms[1].role == Tool && ms[2].role == Tool
    requires forall k :: 0 <= k < |ms| && k != 1 && k != 2 ==> ms[k].role != Tool
    requires !HasLaterCopy(ms, 1) && !HasLaterCopy(ms, 2) && Tokens(ms[1].content) == 200
    ensures Pruned(ms, preserve).0 == ms
  {
    hide HasLaterCopy, Tokens, StaleBody, DuplicateBody, IsPrunedPlaceholder, Reclaim;
    TailIsFree(ms, preserve, 3);
    assert !Stale(ms, preserve, 2);
    forall k | 0 <= k < |ms| && k != 1 ensures NewBody(ms, preserve, k) == ms[k].content {
    }
    OnlyOneCanGo(ms, preserve, 1, |ms|);
  }

  lemma {:induction false} OnlyOneCanGo(ms: seq<Message>, preserve: nat, only: nat, n: nat)
    requires n <= |ms| && only < |ms|
    requires forall k :: 0 <= k < |ms| && k != only ==> NewBody(ms, preserve, k) == ms[k].content
    ensures Reclaim(ms, preserve, n) <= if only < n then Tokens(ms[only].content) else 0
  {
    hide NewBody, Tokens;
    if n > 0 {
      OnlyOneCanGo(ms, preserve, only, n - 1);
    }
  }

  /** A judged result that the classifier refuses is replaced. */
  lemma RefusedResultGoes(ms: seq<Message>, preserve: nat, ruling: Ruling)
    requires |ms| > 2 && 1 < |ms| - preserve && ms[1].role == Tool && ms[1].reasoning == []
    requires ms[2].role == Tool && Tokens(ms[2].content) == 40000 && ToolTokens(ms, 3) == 0
    requires Tokens(ms[1].content) == 200 && !IsPrunedPlaceholder(ms[1].content)
    requires VerdictOn(ruling, ItemId("result", ms[1].toolCallId, 1, 0)) == Dropped
    ensures Judged(ms, ms, preserve, ruling)[1].content == ruling.recover(1)
  {
    hide VerdictOn, ItemId, Tokens, IsPrunedPlaceholder, CallsFor, ToolNames, ArgumentOf, AllCalls;
    assert ToolTokens(ms, 2) == 40000;
    assert JudgedResult(ms, preserve, 1);
    assert ResultCandidate(ms, 1).id == ItemId("result", ms[1].toolCallId, 1, 0);
  }

  /** For every tail there is a history a run can hold that the prune leaves alone and from
      which the judge, told that the first result is irrelevant, drops it. */
  lemma JudgeDropsWhatPruneKeeps(tool: string, preserve: nat, ruling: Ruling) returns (ms: seq<Message>)
    requires tool != "" && |tool| <= 40
    requires VerdictOn(ruling, ItemId("result", CallId(0), 1, 0)) == Dropped
    ensures |ms| == 3 + preserve && WellFormed(ms) && ms[1].role == Tool && Pruned(ms, preserve).0 == ms
    ensures Judged(ms, ms, preserve, ruling)[1].content == ruling.recover(1)
    ensures IsPrunedPlaceholder(ruling.recover(1)) ==> Judged(ms, ms, preserve, ruling)[1].content != ms[1].content
  {
    hide IsPrunedPlaceholder, Tokens, Plain, History, HasLaterCopy, VerdictOn, ItemId, WellFormed, Pruned, Judged,
      ToolTokens,
      StaleBody, DuplicateBody, Replaceable;
    var stale, recent := PlainRun('s', 200), PlainRun('r', 40000);
    assert stale[0] == 's' && recent[0] == 'r';
    var bodies := [stale, recent];
    ms := History(tool, bodies, preserve);
    assert ms[1 + 0] == ToolResult(CallId(0), stale);
    HistoryIsWellFormed(tool, bodies, preserve);
    HistoryResult(tool, bodies, preserve, 1, 200);
    HistoryResult(tool, bodies, preserve, 2, 40000);
    NoLaterCopy(tool, bodies, preserve, 1);
    NoLaterCopy(tool, bodies, preserve, 2);
    TooLittleToPrune(ms, preserve);
    NoToolsAfter(ms, 3);
    RefusedResultGoes(ms, preserve, ruling);
  }

  lemma {:induction false} NoToolsAfter(ms: seq<Message>, i: nat)
    requires i <= |ms| && forall k :: i <= k < |ms| ==> ms[k].role != Tool
    ensures ToolTokens(ms, i) == 0
    decreases |ms| - i
  {
    if i < |ms| {
      NoToolsAfter(ms, i + 1);
    }
  }

  /* ---- the judge's cost ---- */

  lemma {:induction false} PointwiseCheaper(ms: seq<Message>, ms': seq<Message>)
    requires |ms'| == |ms| && forall k :: 0 <= k < |ms| ==> MessageTokens(ms'[k]) <= MessageTokens(ms[k])
    ensures Estimate(ms') <= Estimate(ms)
  {
    hide MessageTokens;
    if ms != [] {
      PointwiseCheaper(ms[..|ms| - 1], ms'[..|ms| - 1]);
    }
  }

  lemma {:induction false} CallsCheaper(calls: seq<ToolCall>, calls': seq<ToolCall>)
    requires |calls'| == |calls|
    requires forall j :: 0 <= j < |calls| ==> calls'[j] == calls[j] || calls'[j] == calls[j].(arguments := EMPTY_ARGUMENTS)
    ensures CallTokens(calls') <= CallTokens(calls)
  {
    hide Tokens;
    if calls != [] {
      CallsCheaper(calls[..|calls| - 1], calls'[..|calls| - 1]);
      EmptyArgumentsAreFree();
    }
  }

  lemma EmptyArgumentsAreFree()
    ensures Tokens(EMPTY_ARGUMENTS) == 0
  {
    NonSpaceBound(EMPTY_ARGUMENTS);
  }

  /** The judged history costs no more than the original when no replacement costs more
      than the body it replaces: the judge does not check that, the prune does. */
  lemma JudgedIsNoLarger(ms: seq<Message>, preserve: nat, ruling: Ruling)
    requires forall i: nat :: i < |ms| && JudgedResult(ms, preserve, i) ==> Tokens(ruling.recover(i)) <= Tokens(ms[i].content)
    ensures |Pruned(ms, preserve).0| == |ms|
    ensures Estimate(Judged(ms, Pruned(ms, preserve).0, preserve, ruling)) <= Estimate(ms)
  {
    hide Pruned, Tokens, VerdictOn, JudgedResult, JudgedProse, ArgumentsDropped, CallTokens, IsPrunedPlaceholder,
      ResultCandidate, ProseCandidate;
    FloorKeepsCalls(ms, preserve);
    var base := Pruned(ms, preserve).0;
    var out := Judged(ms, base, preserve, ruling);
    forall i: nat | i < |ms| ensures MessageTokens(out[i]) <= MessageTokens(ms[i]) {
      PruneTouchesOnlyStaleResults(ms, preserve, i);
      CallsCheaper(ms[i].toolCalls, CallsFor(ms, preserve, ruling, i));
      NonSpaceBound("");
      assert Tokens("") == 0 by { BlankIsFree(); }
      assert base[i] == ms[i].(content := base[i].content);
    }
    PointwiseCheaper(ms, out);
  }

  lemma BlankIsFree()
    ensures Tokens("") == 0
  {
  }
}
