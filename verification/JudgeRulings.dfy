/** What the judge asks about each item and what each answer does to it, said of the history
    and the answers alone. */
module JudgeRulings {
  import opened Text
  import opened Transcript
  import opened Extract
  import opened Prune
  import opened Judge

  /* ---- the keys ---- */

  /** Letters, digits, hyphens and underscores. */
  predicate IsKey(s: string) {
    s != "" && forall k :: 0 <= k < |s| ==>
      s[k] in ['-', '_'] || 'a' <= s[k] <= 'z' || 'A' <= s[k] <= 'Z' || '0' <= s[k] <= '9'
  }

  predicate IsPrefix(prefix: string) {
    prefix == "result" || prefix == "args" || prefix == "prose"
  }

  lemma CleanTokenIs(id: string)
    ensures CleanToken(id) == if IsKey(TrimSpace(id)) then TrimSpace(id) else ""
  {
    hide TrimSpace;
  }

  lemma PrefixIsKey(prefix: string)
    requires IsPrefix(prefix)
    ensures IsKey(prefix + "_") && IsKey(prefix + "_index_")
  {
  }

  lemma PositionIsKey(index: nat, sub: nat)
    ensures IsKey(Decimal(index) + "_" + Decimal(sub))
  {
    hide Decimal;
    DecimalDigits(index);
    DecimalDigits(sub);
  }

  /** Every key is safe to put in a question. */
  lemma KeysAreSafe(prefix: string, id: string, index: nat, sub: nat)
    requires IsPrefix(prefix)
    ensures IsKey(ItemId(prefix, id, index, sub))
  {
    hide TrimSpace, CleanToken, IsKey, Decimal;
    CleanTokenIs(id);
    PrefixIsKey(prefix);
    PositionIsKey(index, sub);
    if CleanToken(id) == "" {
      KeysJoin(prefix + "_index_", Decimal(index) + "_" + Decimal(sub));
      assert prefix + "_index_" + (Decimal(index) + "_" + Decimal(sub)) == prefix + "_index_" + Decimal(index) + "_" + Decimal(sub);
    } else {
      KeysJoin(prefix + "_", CleanToken(id));
    }
  }

  lemma KeysJoin(a: string, b: string)
    requires IsKey(a) && IsKey(b)
    ensures IsKey(a + b)
  {
  }

  lemma PrefixesDiffer(p: string, a: string, q: string, b: string)
    requires IsPrefix(p) && IsPrefix(q) && p + a == q + b
    ensures p == q && a == b
  {
    assert (p + a)[0] == p[0] && (q + b)[0] == q[0];
    assert (p + a)[1] == p[1] && (q + b)[1] == q[1];
    assert (p + a)[|p|..] == a && (q + b)[|q|..] == b;
  }

  /** Two numbers with an underscore between them read back. */
  lemma PairReadsBack(i: nat, j: nat, i': nat, j': nat)
    requires Decimal(i) + "_" + Decimal(j) == Decimal(i') + "_" + Decimal(j')
    ensures i == i' && j == j'
  {
    hide Decimal, ReadDecimal;
    DecimalDigits(i);
    DecimalDigits(i');
    assert "_" == ['_'];
    SplitsAt(Decimal(i), '_', Decimal(j), Decimal(i'), Decimal(j'));
    DecimalReadsBack(i);
    DecimalReadsBack(j);
    DecimalReadsBack(i');
    DecimalReadsBack(j');
  }

  /** An id that is a key itself and does not pose as a position. */
  predicate IsPlainId(id: string) {
    IsKey(TrimSpace(id)) && !("index_" <= TrimSpace(id))
  }

  /** An id that cannot be a key, so that the item's position stands for it. */
  predicate IsUnusable(id: string) {
    !IsKey(TrimSpace(id))
  }

  /** A key stands for one kind of item and for one trimmed id, or, when the id is unusable,
      for one position. */
  lemma KeysIdentify(p: string, id: string, i: nat, s: nat, p': string, id': string, i': nat, s': nat)
    requires IsPrefix(p) && IsPrefix(p') && (IsPlainId(id) || IsUnusable(id)) && (IsPlainId(id') || IsUnusable(id'))
    ensures ItemId(p, id, i, s) == ItemId(p', id', i', s') <==>
      p == p' && if IsUnusable(id) then IsUnusable(id') && i == i' && s == s' else TrimSpace(id) == TrimSpace(id')
  {
    hide TrimSpace, CleanToken, Decimal, IsKey;
    CleanTokenIs(id);
    CleanTokenIs(id');
    KeyIsSomething(TrimSpace(id));
    KeyIsSomething(TrimSpace(id'));
    var tail := if IsUnusable(id) then "index_" + (Decimal(i) + "_" + Decimal(s)) else TrimSpace(id);
    var tail' := if IsUnusable(id') then "index_" + (Decimal(i') + "_" + Decimal(s')) else TrimSpace(id');
    KeyIs(p, id, i, s, tail);
    KeyIs(p', id', i', s', tail');
    if ItemId(p, id, i, s) == ItemId(p', id', i', s') {
      PrefixesDiffer(p, "_" + tail, p', "_" + tail');
      assert ("_" + tail)[1..] == tail && ("_" + tail')[1..] == tail';
      if IsUnusable(id) && IsUnusable(id') {
        assert tail[6..] == Decimal(i) + "_" + Decimal(s) && tail'[6..] == Decimal(i') + "_" + Decimal(s');
        PairReadsBack(i, s, i', s');
      }
    }
  }

  lemma KeyIsSomething(s: string)
    ensures IsKey(s) ==> s != ""
  {
  }

  lemma KeyIs(p: string, id: string, i: nat, s: nat, tail: string)
    requires tail == if CleanToken(id) == "" then "index_" + (Decimal(i) + "_" + Decimal(s)) else CleanToken(id)
    ensures ItemId(p, id, i, s) == p + ("_" + tail)
  {
    hide CleanToken, Decimal;
    if CleanToken(id) == "" {
      assert p + "_index_" + Decimal(i) + "_" + Decimal(s) == p + ("_" + ("index_" + (Decimal(i) + "_" + Decimal(s))));
    } else {
      assert p + "_" + CleanToken(id) == p + ("_" + CleanToken(id));
    }
  }

  /* ---- the items ---- */

  /** Outside the preserved tail, without reasoning, and followed by 40000 tokens of tool output. */
  predicate IsStale(ms: seq<Message>, preserve: nat, i: nat) {
    i < |ms| && i < |ms| - preserve && ms[i].reasoning == [] && ToolTokens(ms, i + 1) >= 40000
  }

  predicate RewritableResult(ms: seq<Message>, preserve: nat, i: nat) {
    && IsStale(ms, preserve, i) && ms[i].role == Tool
    && Tokens(ms[i].content) >= 200 && !(PRUNED_PREFIX <= TrimSpace(ms[i].content))
  }

  predicate RewritableProse(ms: seq<Message>, preserve: nat, i: nat) {
    && IsStale(ms, preserve, i) && ms[i].role == Assistant
    && ms[i].toolCalls != [] && Tokens(ms[i].content) >= 200
  }

  /** A call's arguments, unless one of the five tools whose arguments the carried state is
      read from was called. */
  predicate RewritableArguments(ms: seq<Message>, preserve: nat, i: nat, j: int) {
    && IsStale(ms, preserve, i) && ms[i].role == Assistant && 0 <= j < |ms[i].toolCalls|
    && var call := ms[i].toolCalls[j];
       && call.name !in ["todo_write", "tool_search", "skill", "write_file", "edit_file"]
       && TrimSpace(call.name) != "" && Tokens(call.arguments) >= 200
  }

  /** The arguments the first call with the id was made with. */
  ghost predicate FirstArguments(calls: seq<ToolCall>, id: string, arguments: string) {
    || (arguments == "" && forall k :: 0 <= k < |calls| ==> calls[k].id != id)
    || exists k :: 0 <= k < |calls| && calls[k].id == id && calls[k].arguments == arguments
                   && forall t :: 0 <= t < k ==> calls[t].id != id
  }

  lemma {:induction false} ArgumentOfIs(calls: seq<ToolCall>, id: string)
    ensures FirstArguments(calls, id, ArgumentOf(calls, id))
  {
    if calls != [] && calls[0].id != id {
      var rest := calls[1..];
      ArgumentOfIs(rest, id);
      assert forall k :: 0 < k < |calls| ==> calls[k] == rest[k - 1];
      if exists k :: 0 <= k < |rest| && rest[k].id == id && rest[k].arguments == ArgumentOf(rest, id)
                     && forall t :: 0 <= t < k ==> rest[t].id != id
      {
        var k :| 0 <= k < |rest| && rest[k].id == id && rest[k].arguments == ArgumentOf(rest, id)
                 && forall t :: 0 <= t < k ==> rest[t].id != id;
        assert calls[k + 1].id == id && calls[k + 1].arguments == ArgumentOf(calls, id);
      }
    }
  }

  /** What the judge is shown of an item. */
  ghost predicate Shows(ms: seq<Message>, preserve: nat, c: Candidate) {
    var i := c.index;
    match c.kind
    case Result =>
      && RewritableResult(ms, preserve, i) && c.call == -1 && c.id == ItemId("result", ms[i].toolCallId, i, 0)
      && c.tool == ToolLabel(NameOf(ToolNames(ms), ms[i].toolCallId)) && c.argument == ArgumentOf(AllCalls(ms), ms[i].toolCallId)
      && c.body == ms[i].content && c.tokens == Tokens(ms[i].content)
    case Prose =>
      && RewritableProse(ms, preserve, i) && c.call == -1 && c.id == ItemId("prose", "", i, 0)
      && c.tool == "assistant" && c.argument == "" && c.body == ms[i].content && c.tokens == Tokens(ms[i].content)
    case Arguments =>
      && RewritableArguments(ms, preserve, i, c.call)
      && var call := ms[i].toolCalls[c.call];
         && c.id == ItemId("args", call.id, i, c.call) && c.tool == ToolLabel(call.name)
         && c.argument == call.arguments && c.body == "" && c.tokens == Tokens(call.arguments)
  }

  lemma StaleIs(ms: seq<Message>, preserve: nat, i: nat)
    requires i < |ms|
    ensures Judgeable(ms, preserve, i) <==> IsStale(ms, preserve, i)
  {
    hide Tokens;
  }

  lemma JudgedAre(ms: seq<Message>, preserve: nat, i: nat)
    requires i < |ms|
    ensures JudgedResult(ms, preserve, i) <==> RewritableResult(ms, preserve, i)
    ensures JudgedProse(ms, preserve, i) <==> RewritableProse(ms, preserve, i)
    ensures forall j: nat :: j < |ms[i].toolCalls| ==> (JudgedArguments(ms, preserve, i, j) <==> RewritableArguments(ms, preserve, i, j))
  {
    hide Tokens, ToolTokens, TrimSpace, Judgeable, IsStale;
    StaleIs(ms, preserve, i);
    forall name: string
      ensures name !in {TODO_WRITE, TOOL_SEARCH, SKILL, WRITE_FILE, EDIT_FILE}
        <==> name !in ["todo_write", "tool_search", "skill", "write_file", "edit_file"]
    {
    }
  }

  /** The judge is asked about exactly the items it may rewrite, each as it stands. */
  lemma CandidatesAre(ms: seq<Message>, preserve: nat, c: Candidate)
    ensures c in Candidates(ms, preserve, 0) <==> c.index < |ms| && Shows(ms, preserve, c)
  {
    hide Candidates, Tokens, ItemId, ToolLabel, ToolNames, AllCalls, ArgumentOf, NameOf, JudgedResult, JudgedProse,
      JudgedArguments, RewritableResult, RewritableProse, RewritableArguments;
    CandidateIs(ms, preserve, 0, c);
    if c.index < |ms| {
      JudgedAre(ms, preserve, c.index);
      ArgumentsInRange(ms, preserve, c.index, c.call);
    }
  }

  lemma ArgumentsInRange(ms: seq<Message>, preserve: nat, i: nat, j: int)
    ensures RewritableArguments(ms, preserve, i, j) ==> i < |ms| && 0 <= j < |ms[i].toolCalls|
  {
    hide IsStale, Tokens, TrimSpace;
    StaleInRange(ms, preserve, i);
  }

  lemma StaleInRange(ms: seq<Message>, preserve: nat, i: nat)
    ensures IsStale(ms, preserve, i) ==> i < |ms|
  {
  }

  /* ---- the answers ---- */

  /** The item was answered with a probability of being needed below the threshold. */
  predicate Refused(ruling: Ruling, id: string) {
    id in ruling.answered && ruling.answered[id].Probability? && ruling.answered[id].p < ruling.drop
  }

  /** The item was answered with one at or above it. */
  predicate Upheld(ruling: Ruling, id: string) {
    id in ruling.answered && ruling.answered[id].Probability? && ruling.answered[id].p >= ruling.drop
  }

  lemma VerdictIs(ruling: Ruling, id: string)
    ensures VerdictOn(ruling, id) == if Refused(ruling, id) then Dropped else if Upheld(ruling, id) then Kept else Unanswered
  {
  }

  /** The body of every message after the judge: a refused result has its replacement, an
      upheld one its own body whatever the prune did, refused narration is gone, and anything
      else is as the prune left it. */
  lemma JudgedContentIs(ms: seq<Message>, base: seq<Message>, preserve: nat, ruling: Ruling, i: nat)
    requires i < |ms| == |base|
    ensures var out := Judged(ms, base, preserve, ruling)[i];
      var result, prose := ItemId("result", ms[i].toolCallId, i, 0), ItemId("prose", "", i, 0);
      out.content ==
        if RewritableResult(ms, preserve, i) && Refused(ruling, result) then ruling.recover(i)
        else if RewritableResult(ms, preserve, i) && Upheld(ruling, result) then ms[i].content
        else if RewritableProse(ms, preserve, i) && Refused(ruling, prose) then ""
        else base[i].content
  {
    hide JudgedResult, JudgedProse, JudgedArguments, RewritableResult, RewritableProse, RewritableArguments, VerdictOn, Refused, Upheld,
      ItemId, CallsFor, Tokens, ToolLabel, ToolNames, AllCalls, ArgumentOf, NameOf;
    JudgedAre(ms, preserve, i);
    RolesDiffer(ms, preserve, i);
    VerdictIs(ruling, ItemId("result", ms[i].toolCallId, i, 0));
    VerdictIs(ruling, ItemId("prose", "", i, 0));
    NotBoth(ruling, ItemId("result", ms[i].toolCallId, i, 0));
  }

  lemma NotBoth(ruling: Ruling, id: string)
    ensures !(Refused(ruling, id) && Upheld(ruling, id))
  {
  }

  /** The arguments of every call after the judge: those refused are empty, and the others
      are as they were. */
  lemma JudgedArgumentsAre(ms: seq<Message>, base: seq<Message>, preserve: nat, ruling: Ruling, i: nat, j: nat)
    requires i < |ms| == |base| && j < |ms[i].toolCalls|
    ensures var calls := Judged(ms, base, preserve, ruling)[i].toolCalls;
      && |calls| == |ms[i].toolCalls|
      && calls[j].id == ms[i].toolCalls[j].id && calls[j].name == ms[i].toolCalls[j].name
      && calls[j].arguments ==
           if RewritableArguments(ms, preserve, i, j) && Refused(ruling, ItemId("args", ms[i].toolCalls[j].id, i, j)) then "{}"
           else ms[i].toolCalls[j].arguments
  {
    hide JudgedArguments, RewritableArguments, VerdictOn, Refused, Upheld, ItemId, ContentFor, Tokens, ToolLabel;
    JudgedAre(ms, preserve, i);
    VerdictIs(ruling, ItemId("args", ms[i].toolCalls[j].id, i, j));
  }

  /* ---- the requests ---- */

  /** What an item adds to a request: nothing in it counts for more than its cap. */
  lemma OneItemFits(c: Candidate)
    ensures CandidateBytes(c) <= |c.id| + |c.tool| + 2175
    ensures c.kind == Arguments ==>
      CandidateBytes(c) == |c.id| + |c.tool| + 73 + if |c.argument| < 1500 then |c.argument| else 1500
    ensures c.kind != Arguments ==>
      CandidateBytes(c) == |c.id| + |c.tool| + (if c.kind == Result then 75 else 73)
        + (if |c.argument| < 600 then |c.argument| else 600) + (if |c.body| < 1500 then |c.body| else 1500)
  {
  }

  /** With ids and tool names of any usual length every request is within its budget. */
  lemma RequestsAreWithinBudget(work: seq<Candidate>, k: nat)
    requires forall c :: c in work ==> |c.id| + |c.tool| <= 27825
    requires k < |Requests(work)|
    ensures Requests(work)[k] != [] && BatchBytes(Requests(work)[k]) <= 30000
  {
    hide Requests, CandidateBytes;
    RequestsPartition(work);
    var batch := Requests(work)[k];
    if |batch| == 1 {
      InRequest(Requests(work), k, batch[0]);
      OneItemFits(batch[0]);
      assert batch[..0] == [];
    }
  }

  /** The first thousand items are asked about, in order. */
  lemma FirstThousandAreAsked(candidates: seq<Candidate>)
    ensures Joined(Requests(Work(candidates))) == if |candidates| > 1000 then candidates[..1000] else candidates
  {
    hide Requests, Joined;
    RequestsPartition(Work(candidates));
  }

  /** Request `k` is the last whose reply answers the item. */
  ghost predicate LastReply(classify: Classifier, batches: seq<seq<Candidate>>, id: string, k: nat) {
    && k < |batches| && HasReply(classify, batches, id, k)
    && forall j: nat :: k < j < |batches| ==> !HasReply(classify, batches, id, j)
  }

  ghost predicate HasReply(classify: Classifier, batches: seq<seq<Candidate>>, id: string, k: nat) {
    k < |batches| && classify(k, batches[k]).Some? && id in classify(k, batches[k]).value
  }

  /** An item is answered by the last reply that names it, and not at all when none does. */
  lemma {:induction false} RepliesAre(classify: Classifier, batches: seq<seq<Candidate>>, id: string) returns (k: int)
    ensures id in Replies(classify, batches) <==> k >= 0
    ensures k >= 0 ==> LastReply(classify, batches, id, k) && Replies(classify, batches)[id] == classify(k, batches[k]).value[id]
    ensures k < 0 ==> forall j: nat :: !HasReply(classify, batches, id, j)
  {
    k := |batches| - 1;
    if batches != [] && !HasReply(classify, batches, id, k) {
      var init := batches[..|batches| - 1];
      assert forall j: nat :: j < |init| ==> (HasReply(classify, batches, id, j) <==> HasReply(classify, init, id, j));
      k := RepliesAre(classify, init, id);
    }
  }

  lemma {:induction false} InRequest(batches: seq<seq<Candidate>>, k: nat, c: Candidate)
    requires k < |batches| && c in batches[k]
    ensures c in Joined(batches)
  {
    if k < |batches| - 1 {
      InRequest(batches[..|batches| - 1], k, c);
    }
  }
}
